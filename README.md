# go-stripe core, modelled in Dafny

This project models the decision logic of the go-stripe widget shop and proves properties about it. The shop is a Go web front end with a JSON API that sells widgets and subscriptions through Stripe. The model covers:

- **API credential handlers** (`ApiHandlers`, from `cmd/api/handlers-api.go`):
  - bearer-header validation in `authenticateToken`;
  - token issue (`CreateAuthToken`) and token check (`CheckAuthentication`);
  - the password-reset request and the reset itself;
  - the records built by the subscription and refund handlers.
- **Web handlers** (`WebHandlers`, from `cmd/web/handlers.go`):
  - login, logout and the one-shot receipts, which change the session;
  - the two payment-succeeded handlers;
  - `GetTransactionData`;
  - the reset-link check.
- **Websocket hub** (`WsHandlers`, from `cmd/web/ws-handlers.go`): the client registry, the greeting, the read loop, the dispatch rule, and the broadcast that drops clients whose write fails.
- **Database layer** (`Models`, from `internal/models/models.go`): pagination arithmetic, `Authenticate`, the lower-casing lookup `GetUserByEmail`, and the loops that collect rows.
- **Page rendering** (`Render`, from `cmd/web/render.go`): page and partial file names, the in-place rewrite of partial names, the template cache policy, and `addDefaultData`.

Collaborators whose code is not part of this model are the fields of `Calls.Services`. They are:

- the SQL statements;
- the Stripe gateway;
- bcrypt;
- the token generator and token store;
- the URL signer and the encryptor;
- the mailer;
- `strconv.Atoi`.

Each collaborator is a function-valued field of `Calls.Services`. A property proved for every `Services` therefore holds whatever the collaborators answer. Every API handler also returns every call it made to a collaborator other than `strconv.Atoi`, in order (`Calls.Call`). The web payment handlers return the saves they made. This makes statements like "never mails", "signs before mailing" and "updates only that user" provable.

Go panics become explicit outcomes:

- the nil `subscription` dereference;
- a failed type assertion on the `"receipt"` session value;
- indexing an empty charge list;
- division by zero when the page size is 0.

The corresponding results are `Panicked`, `NoCharges` and `DivideByZero`. None of them is a precondition.

The session manager's code is not part of this model either. `Session.SessionStore` states the behaviour the handlers rely on:

- tokens map to key/value data;
- `RenewToken` moves the data to a never-issued token;
- `Destroy` forgets the current session.

The websocket registry is a `Hub` object whose methods update its fields. The partial-name rewrite works in place on an `array`. The renderer's cache is a field of `Renderer`.

## Model

| member | source | states |
|---|---|---|
| Strings.Split | go-stripe/cmd/api/handlers-api.go:350 | `strings.Split` on one separator gives at least one piece, and no piece contains the separator |
| Strings.Join | go-stripe/cmd/web/render.go:94 | joining one piece gives that piece; the result is free of the separator iff there is at most one piece and it is free of the separator |
| Strings.JoinSplit | go-stripe/cmd/api/handlers-api.go:350 | joining the pieces of a split with the separator gives back the header |
| Strings.SplitJoin | go-stripe/cmd/web/render.go:94 | splitting a join of separator-free pieces gives back the same pieces |
| Strings.SplitIntoTwo | go-stripe/cmd/api/handlers-api.go:350-351 | a string splits into exactly `[a, b]` iff it is `a + sep + b` with neither part containing the separator |
| Strings.ToLower | go-stripe/internal/models/models.go:251 | lower-casing keeps the length and maps each letter A–Z to its lower-case form |
| Strings.ToLowerIdentifiesEqualFold | go-stripe/internal/models/models.go:251 | two strings lower-case to the same string iff they are equal ignoring letter case |
| Strings.ToLowerIdempotent | go-stripe/internal/models/models.go:251 | lower-casing twice is lower-casing once |
| Models.Offset | go-stripe/internal/models/models.go:388 | page 1 starts at row 0 |
| Models.OffsetStep | go-stripe/internal/models/models.go:388 | consecutive pages start exactly `pageSize` rows apart |
| Models.GoQuo | go-stripe/internal/models/models.go:464 | Go's truncating `/` agrees with Euclidean division on non-negative dividends and positive divisors |
| Models.GoRem | go-stripe/internal/models/models.go:465 | Go's `%` agrees with the Euclidean remainder on non-negative dividends and positive divisors |
| Models.LastPage | go-stripe/internal/models/models.go:464-467 | with a positive page size and a non-negative total, the last page is the least `n >= 0` with `totalRecords <= n*pageSize` |
| Models.LastPageIsCeiling | go-stripe/internal/models/models.go:464-467 | with positive page size and records, `(lastPage-1)*pageSize < totalRecords <= lastPage*pageSize` |
| Models.LastPageExact | go-stripe/internal/models/models.go:464-467 | `k*pageSize` records give exactly `k` pages: no records give page 0, and an exact multiple adds no partial page |
| Models.RecordOnItsPage | go-stripe/internal/models/models.go:464-467 | every record index lies on a page between 1 and the last page, within that page's offset window |
| Models.GetUserByEmail | go-stripe/internal/models/models.go:247-275 | for an address already in lower case, the result is exactly the stored row's lookup |
| Models.GetUserByEmailIgnoresCase | go-stripe/internal/models/models.go:247-275 | addresses equal up to letter case give the same lookup result, because the query uses the lower-cased address |
| Models.Authenticate | go-stripe/internal/models/models.go:278-299 | returns the stored id iff the row exists and bcrypt reports a match; an unknown email gives the scan error, a mismatch gives "incorrect password", and any other compare error gives that error |
| Models.CollectRows | go-stripe/internal/models/models.go:345-378 | succeeds iff every row scans, and then holds one element per row in row order; otherwise returns the first scan error |
| Models.GetAllOrders | go-stripe/internal/models/models.go:317-379 | a query error is returned as is; success holds iff every row scanned, and then the orders appear in row order; otherwise the error is that of the first row that failed to scan |
| Models.GetAllUsers | go-stripe/internal/models/models.go:541-581 | a query error is returned as is; success holds iff every row scanned, and then the users appear in row order; otherwise the error is that of the first row that failed to scan |
| Models.GetAllOrdersPaginated | go-stripe/internal/models/models.go:382-470 | queries with offset `(page-1)*pageSize`; returns the query, scan or count error in that order, a scan failure giving the first row's error; a page is returned iff the query succeeds, every row scans, the count succeeds and the page size is not 0, and then holds the rows in order, the count and the ceiling last page; panics iff everything succeeded and the page size is 0 |
| ApiHandlers.CheckBearerFormat | go-stripe/cmd/api/handlers-api.go:345-358 | an empty header is refused as "no header"; an accepted token has 26 characters and no space |
| ApiHandlers.BearerFormatAccepts | go-stripe/cmd/api/handlers-api.go:350-358 | the format check passes iff the header is `"Bearer "` followed by 26 space-free characters, and the token it yields is those characters |
| ApiHandlers.LowercaseSchemeRefused | go-stripe/cmd/api/handlers-api.go:350-353 | the scheme name is case-sensitive: `bearer <token>` is refused |
| ApiHandlers.WrongSizeRefused | go-stripe/cmd/api/handlers-api.go:355-358 | `Bearer <token>` with a space-free token of any length other than 26 is refused as "wrong size" |
| ApiHandlers.ShortTokenRefused | go-stripe/cmd/api/handlers-api.go:355-358 | `Bearer short` is refused as wrong size, and the token store is not consulted |
| ApiHandlers.AuthenticateToken | go-stripe/cmd/api/handlers-api.go:344-367 | a format failure makes no store call; otherwise exactly one lookup of the token, with success iff the store finds a user, and any store error becomes "no matching user" |
| ApiHandlers.MalformedHeaderSkipsStore | go-stripe/cmd/api/handlers-api.go:345-361 | the store is consulted iff the header passes every format check |
| ApiHandlers.CheckAuthentication | go-stripe/cmd/api/handlers-api.go:324-341 | answers `invalidCredentials` iff token authentication fails; otherwise 200 with "authenticated user" and the user's email |
| ApiHandlers.CheckAuthenticationFailuresAlike | go-stripe/cmd/api/handlers-api.go:326-330 | a missing header, a malformed header, a wrong size and an unknown token all get the same response |
| ApiHandlers.CreateAuthToken | go-stripe/cmd/api/handlers-api.go:261-321 | `invalidCredentials` iff there is no user or the password does not verify, and then no token is generated or stored; a token is returned only with a 24-hour lifetime and authentication scope, after it was generated and inserted for that user |
| ApiHandlers.ResetLink | go-stripe/cmd/api/handlers-api.go:459 | the link is the front-end address, then `/reset-password?email=`, then the address |
| ApiHandlers.ResetLinkInjective | go-stripe/cmd/api/handlers-api.go:459 | different addresses get different reset links |
| ApiHandlers.SendPasswordResetEmail | go-stripe/cmd/api/handlers-api.go:433-492 | an unknown address gets 202 with "No matching email found on our system" and is neither signed nor mailed; a mail is sent only after signing the reset link, and it carries the signed link to that address; 201 iff the mail went out |
| ApiHandlers.ResetPassword | go-stripe/cmd/api/handlers-api.go:494-543 | the password is updated only when decryption, lookup and hashing all succeed, and then for the user found by the decrypted address with the new hash; any earlier failure is a bad request with no update; "password changed" iff the update also succeeded |
| ApiHandlers.ResetMail | go-stripe/cmd/api/handlers-api.go:475-476 | the reset mail goes from info@widgets.com to the requested address with subject "Password Reset Request", template "password-reset" and the signed link |
| ApiHandlers.SubscriptionTransaction | go-stripe/cmd/api/handlers-api.go:177-186 | the subscription's transaction is in "cad", has status 2, stores the subscription id as payment intent, and carries the parsed amount |
| ApiHandlers.SubscriptionOrder | go-stripe/cmd/api/handlers-api.go:194-203 | the subscription's order has status 1, quantity 1, the parsed amount, and the product, transaction and customer ids |
| ApiHandlers.CreateCustomerAndSubscribeToPlan | go-stripe/cmd/api/handlers-api.go:122-225 | a failed customer creation gives `ok=false` with the gateway's message and saves nothing; a subscription error gives "Error subscribing customer" and saves nothing; a nil subscription panics; the saved transaction and order carry the constructed fields and the ids returned by the earlier saves; "Transaction successful" iff the customer is created, the subscription is returned without error, both ids convert, and the customer, transaction and order saves all succeed |
| ApiHandlers.RefundCharge | go-stripe/cmd/api/handlers-api.go:582-624 | the order status is set to 2 only after a successful refund; "Charge refunded" iff both steps succeed; a failed update after a refund gives its own message |
| Session.SessionStore.Put | go-stripe/cmd/web/handlers.go:166 | the current session gains the key with the value; other sessions and the token are unchanged |
| Session.SessionStore.Get | go-stripe/cmd/web/handlers.go:172 | finds a value iff the current session holds the key, and then returns that value |
| Session.SessionStore.Remove | go-stripe/cmd/web/handlers.go:175 | the current session loses exactly the key |
| Session.SessionStore.Destroy | go-stripe/cmd/web/handlers.go:351 | the current session's data is forgotten; other sessions are unchanged |
| Session.SessionStore.RenewToken | go-stripe/cmd/web/handlers.go:328 | the data moves to a never-issued token, and the old token no longer names any session |
| WebHandlers.GetTransactionData | go-stripe/cmd/web/handlers.go:223-281 | succeeds iff the form parses, the amount converts, the gateway finds the intent and the method, and there is a charge; the data then holds the form fields, the card details and the first charge id; an empty charge list panics |
| WebHandlers.PaymentTransaction | go-stripe/cmd/web/handlers.go:128-138 | the transaction has status 2 and carries the amount, currency, payment intent and bank return code |
| WebHandlers.PaymentOrder | go-stripe/cmd/web/handlers.go:147-156 | the order has status 1, quantity 1, the payment amount, and the widget, transaction and customer ids |
| WebHandlers.CustomerOf | go-stripe/cmd/web/handlers.go:284-289 | the saved customer carries the first name, last name and email of the transaction data |
| WebHandlers.PaymentSucceeded | go-stripe/cmd/web/handlers.go:101-168 | redirects to `/receipt` iff the form parses, the widget id converts, the data is gathered and the customer, transaction and order saves all succeed; only then is `"receipt"` written, and only to the current session; on any other path the session is unchanged; the saved order uses the ids returned by the customer and transaction saves |
| WebHandlers.VirtualTerminalPaymentSucceeded | go-stripe/cmd/web/handlers.go:30-60 | `"receipt"` is written, followed by a redirect to `/virtual-terminal-receipt`, iff the transaction data is gathered and saved, writing only to the current session; otherwise the session is unchanged |
| WebHandlers.ServeReceipt | go-stripe/cmd/web/handlers.go:171-175 | a pending receipt is shown and then removed from the session; a missing receipt panics and changes nothing |
| WebHandlers.Receipt | go-stripe/cmd/web/handlers.go:171-181 | shows the pending receipt on the "receipt" page and leaves the current session without `"receipt"`; the token and every other session are unchanged; a missing receipt panics and changes nothing |
| WebHandlers.VirtualTerminalReceipt | go-stripe/cmd/web/handlers.go:63-73 | shows the pending receipt on the "virtual-terminal-receipt" page and leaves the current session without `"receipt"`; the token and every other session are unchanged; a missing receipt panics and changes nothing |
| WebHandlers.PostLoginPage | go-stripe/cmd/web/handlers.go:327-347 | the token is renewed first; a failed `Authenticate` redirects to `/login` and writes nothing; success stores the returned id under `"userID"` and redirects to `/` |
| WebHandlers.Logout | go-stripe/cmd/web/handlers.go:350-355 | after destroy and renew, the session holds no keys, the old token names no session, and the response redirects to `/login` |
| WebHandlers.ShowResetPassword | go-stripe/cmd/web/handlers.go:363-379 | writes "valid" iff the signer accepts `frontend + RequestURI`, and "invalid" otherwise |
| WsHandlers.Forwarded | go-stripe/cmd/web/ws-handlers.go:78-87 | the forwarded payloads are the successful reads before the first failure, in read order, each tagged with its connection |
| WsHandlers.Dispatch | go-stripe/cmd/web/ws-handlers.go:96-103 | an event is answered iff its action is "deleteUser", and then with "logout", "Your account has been deleted" and the event's user id |
| WsHandlers.Survivors | go-stripe/cmd/web/ws-handlers.go:108-116 | the registry after a broadcast is the old registry minus exactly the clients whose write failed, with labels kept |
| WsHandlers.Attempts | go-stripe/cmd/web/ws-handlers.go:108-110 | a broadcast logs one write of the response per client, in the order the clients were visited |
| WsHandlers.RegistryAfterShrinks | go-stripe/cmd/web/ws-handlers.go:92-105 | handling any sequence of events never adds a client and never changes a label |
| WsHandlers.NoDeleteIsSilent | go-stripe/cmd/web/ws-handlers.go:96-103 | events other than "deleteUser" leave the registry unchanged, close nobody and write nothing |
| WsHandlers.OnlyLogoutsBroadcast | go-stripe/cmd/web/ws-handlers.go:96-103 | every write of the dispatch loop is the logout message for the user of some "deleteUser" event |
| WsHandlers.EventClosesFailed | go-stripe/cmd/web/ws-handlers.go:107-116 | one broadcast closes exactly the clients it logged a failed write to |
| WsHandlers.ClosedIffWriteFailed | go-stripe/cmd/web/ws-handlers.go:92-116 | over the whole dispatch loop, a client is closed iff the write log shows a failed write to it |
| WsHandlers.HealthyClientStays | go-stripe/cmd/web/ws-handlers.go:107-116 | a client whose writes all succeed stays registered under its label and is never closed |
| WsHandlers.Hub.constructor | go-stripe/cmd/web/ws-handlers.go:39-41 | the hub starts with no clients and an empty channel |
| WsHandlers.Hub.WsEndPoint | go-stripe/cmd/web/ws-handlers.go:44-66 | the greeting "Connected to server" is written after the upgrade, and the client is registered with label "" iff the greeting was written; otherwise the registry is unchanged |
| WsHandlers.Hub.ListenForWS | go-stripe/cmd/web/ws-handlers.go:68-88 | the channel grows by exactly the forwarded payloads, and the registry is unchanged |
| WsHandlers.Hub.BroadcastToAll | go-stripe/cmd/web/ws-handlers.go:107-117 | every client present at the start gets exactly one write attempt; failed clients are closed and removed; successful ones are neither; no client is added |
| WsHandlers.Hub.HandleEvent | go-stripe/cmd/web/ws-handlers.go:95-103 | one event is answered by the dispatch rule: a "deleteUser" event broadcasts its logout to every registered client once, in the returned order, closing and dropping the failed ones; any other event changes nothing |
| WsHandlers.Hub.ListenToWsChannel | go-stripe/cmd/web/ws-handlers.go:92-105 | takes the events off the channel in order; the registry, the closed set and the write log end as replaying the events one by one prescribes, each broadcast visiting every client registered at that point exactly once, in the returned order |
| Render.PagePath | go-stripe/cmd/web/render.go:51 | the page file is `templates/` + page + `.page.gohtml`, and the page name can be read back from it |
| Render.PagePathInjective | go-stripe/cmd/web/render.go:51 | different pages have different files |
| Render.PartialPath | go-stripe/cmd/web/render.go:87 | the partial file is `templates/` + name + `.partial.gohtml` |
| Render.PartialName | go-stripe/cmd/web/render.go:87 | every partial file name comes from the partial name this function recovers |
| Render.PartialNameOfPath | go-stripe/cmd/web/render.go:87 | recovering the name from a partial's file gives the partial back |
| Render.PartialPaths | go-stripe/cmd/web/render.go:85-89 | the rewritten list has the same length and order, with each name replaced by its file |
| Render.PartialPathsRoundTrip | go-stripe/cmd/web/render.go:85-89 | the original partial names can be recovered from the rewritten list |
| Render.ParsePatterns | go-stripe/cmd/web/render.go:91-99 | parsing uses the base layout, then the partial files joined by "," if there are any, then the page file |
| Render.WithDefaults | go-stripe/cmd/web/render.go:40-45 | the API address and both Stripe keys come from the configuration; every other field is unchanged |
| Render.WithDefaultsIdempotent | go-stripe/cmd/web/render.go:40-45 | adding the defaults twice is adding them once |
| Render.WithDefaultsKeepsOtherFields | go-stripe/cmd/web/render.go:40-45 | two data values get equal defaults iff they agree on every field but the three defaults |
| Render.TemplateData.constructor | go-stripe/cmd/web/render.go:65-67 | a missing template data becomes the zero value |
| Render.AddDefaultData | go-stripe/cmd/web/render.go:40-45 | updates the caller's data in place to its value with the defaults added |
| Render.RewritePartials | go-stripe/cmd/web/render.go:85-89 | the array now holds the partial files of the names it held |
| Render.Renderer.UsesCache | go-stripe/cmd/web/render.go:53-55 | the cache is used only in production, and only for a cached page |
| Render.Renderer.ParseTemplate | go-stripe/cmd/web/render.go:81-107 | rewrites the partials in place and parses the base layout, the partials and the page; success caches the template under the page file, and an error leaves the cache unchanged |
| Render.Renderer.RenderTemplate | go-stripe/cmd/web/render.go:48-78 | uses the cached template iff in production with the page cached, and otherwise parses it; a parse error returns it without executing; the template is executed with the caller's data (or the zero value) plus the defaults |

## Left out

- Request and response JSON: decoding and encoding are left out. A handler receives its decoded input or the decode error.
- Logging, response headers, HTTP status plumbing and routes are left out. `cmd/api/routes-api.go`, `cmd/web/routes.go` and `cmd/web/middleware.go` are not part of this model.
- Token generation and storage, the URL signer and the encryptor are left out. Their code is not part of this model, so they are uninterpreted fields of `Calls.Services`, and no sign/verify or encrypt/decrypt round trip is assumed.
- SQL, the Stripe gateway and bcrypt are left out. Each is an answer from `Calls.Services`; the SQL text itself is not modelled.
- The mailer's template rendering (`cmd/api/mailer.go`) is left out. Sending a mail is one call with one outcome.
- `time.Now()` timestamps on orders are left out. So are `created_at`/`updated_at`, which the records never compare.
- `formatCurrency` (render.go:31-34) is left out, because it is floating point.
- Template parsing and execution inside `html/template` are left out. Both are functions given to the renderer.
- The API's `VirtualTerminalPaymentSucceeded` (handlers-api.go:369-430) and the handlers that only render a page or read one record are left out. They make no decisions beyond those modelled here.
- Websocket transport, goroutines, blocking channel semantics and the unsynchronised concurrent access to `clients` are left out. The hub is modelled sequentially, and the `recover` in `ListenForWS` is panic machinery.
- Render.Renderer.ParseTemplate: the template cache is modelled sequentially; Go reads and writes the plain map from concurrent request handlers without a lock, and that unsynchronised access is left out.
- Render.Renderer.RenderTemplate: as for `ParseTemplate`, its contract is for sequential calls; concurrent access to the unlocked cache map is left out.
- Session.SessionStore.Destroy: the session store is modelled as infallible; the handlers ignore the errors of `Destroy` and `RenewToken`, so a failed store call is not modelled.
- Session.SessionStore.RenewToken: infallible here, for the same reason as `Destroy`.
- Strings.ToLower: only ASCII letters are lowered; Go's `strings.ToLower` is Unicode-aware.
- ApiHandlers.CheckBearerFormat: strings are sequences of characters, while Go's `len(token)` counts bytes; the two agree on ASCII tokens.
- Models.Offset: Go's `int` is 64-bit and `(page-1)*pageSize` can wrap; the model uses unbounded integers.
- Models.LastPage: totals and page sizes are unbounded integers, not 64-bit.
- WsHandlers.Hub.ListenForWS: each successful read yields a whole payload; Go decodes into one reused struct, so a message that omits a field keeps the previous message's value.
- WsHandlers.Hub.ListenForWS: an endless connection is a finite sequence of reads.
- WsHandlers.Hub.ListenToWsChannel: the endless receive loop is modelled as draining the events already in the channel; each broadcast's write outcomes are given by `outcome`.
- WsHandlers.Hub.BroadcastToAll: Go's map iteration order is unspecified; the model lets the method pick any order and states the result for every order.
- Render.Renderer.RenderTemplate: `Data` holds string values here rather than `any`, and `FloatMap` holds reals rather than `float32`.
- WebHandlers.GetTransactionData: the card's 64-bit expiry month and year are taken as unbounded integers.
