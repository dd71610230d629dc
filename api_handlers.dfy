/**
 * The API's credential handlers: bearer-header validation, token issue and check,
 * the password-reset request and reset, and the subscription and refund handlers'
 * record building. Each handler returns its response together with the calls it
 * made to collaborators, in order.
 */
module ApiHandlers {
  import opened Base
  import opened Strings
  import opened Models
  import opened Calls

  /** Length of a bearer token's plaintext. */
  const BearerTokenLength := 26

  /** `24 * time.Hour`, in seconds. */
  const AuthTokenLifetime := 24 * 60 * 60

  /** The ways `authenticateToken` can fail. */
  datatype AuthError = NoHeader | MalformedHeader | WrongSize | NoMatchingUser

  /** What a handler writes back. */
  datatype ApiResponse =
    | NoBody                                 // returned after only logging
    | BadRequest(message: string)            // app.badRequest
    | InvalidCredentials                     // app.invalidCredentials
    | Json(status: int, error: bool, message: string)
    | TokenIssued(message: string, token: Token)
    | TxnResult(ok: bool, message: string)   // jsonResponse{OK, Message}
    | Panicked                               // a nil dereference aborts the request

  datatype Handled = Handled(response: ApiResponse, calls: seq<Call>)

  // ---------------------------------------------------------------------------
  // Bearer tokens

  /** The format checks of `authenticateToken`, before any store lookup. */
  function CheckBearerFormat(header: string): (r: Result<string, AuthError>)
    ensures header == [] ==> r == Err(NoHeader)
    ensures r.Ok? ==> |r.value| == BearerTokenLength && ' ' !in r.value
  {
    if header == [] then Err(NoHeader)
    else
      var parts := Split(header, ' ');
      if |parts| != 2 || parts[0] != "Bearer" then Err(MalformedHeader)
      else if |parts[1]| != BearerTokenLength then Err(WrongSize)
      else Ok(parts[1])
  }

  /**
   * The format check passes exactly for `"Bearer "` followed by a 26-character
   * token without spaces, and yields that token.
   */
  lemma BearerFormatAccepts(header: string)
    ensures CheckBearerFormat(header).Ok? <==>
              |header| == 7 + BearerTokenLength && header[..7] == "Bearer " && ' ' !in header[7..]
    ensures CheckBearerFormat(header).Ok? ==> CheckBearerFormat(header).value == header[7..]
  {
    if CheckBearerFormat(header).Ok? {
      var parts := Split(header, ' ');
      SplitIntoTwo(header, ' ', parts[0], parts[1]);
      assert header == "Bearer" + [' '] + parts[1];
      assert header[..7] == "Bearer ";
      assert header[7..] == parts[1];
    }
    if |header| == 7 + BearerTokenLength && header[..7] == "Bearer " && ' ' !in header[7..] {
      assert header == "Bearer" + [' '] + header[7..];
      SplitIntoTwo(header, ' ', "Bearer", header[7..]);
    }
  }

  /** The scheme name is matched case-sensitively: `bearer <token>` is refused. */
  lemma LowercaseSchemeRefused(token: string)
    ensures CheckBearerFormat("bearer " + token).Err?
  {
    BearerFormatAccepts("bearer " + token);
    assert ("bearer " + token)[..7] == "bearer ";
  }

  /** A well-formed header whose token has any length but 26 is refused for its size. */
  lemma WrongSizeRefused(token: string)
    requires ' ' !in token && |token| != BearerTokenLength
    ensures CheckBearerFormat("Bearer " + token) == Err(WrongSize)
  {
    assert "Bearer " + token == "Bearer" + [' '] + token;
    SplitIntoTwo("Bearer " + token, ' ', "Bearer", token);
  }

  /** `Bearer short` is refused without any store lookup. */
  lemma ShortTokenRefused(userForToken: string -> Result<User, string>)
    ensures AuthenticateToken("Bearer short", userForToken) == TokenCheck(Err(WrongSize), [])
  {
    WrongSizeRefused("short");
    assert "Bearer " + "short" == "Bearer short";
  }

  /** The outcome of `authenticateToken` and the store lookups it made. */
  datatype TokenCheck = TokenCheck(user: Result<User, AuthError>, calls: seq<Call>)

  /** `authenticateToken`: the format checks, then one lookup of the token in the store. */
  function AuthenticateToken(header: string, userForToken: string -> Result<User, string>): (r: TokenCheck)
    ensures CheckBearerFormat(header).Err? ==> r.calls == [] && r.user == Err(CheckBearerFormat(header).error)
    ensures CheckBearerFormat(header).Ok? ==>
              var token := CheckBearerFormat(header).value;
              && r.calls == [QueryUserForToken(token)]
              && (r.user.Ok? <==> userForToken(token).Ok?)
              && (r.user.Ok? ==> r.user.value == userForToken(token).value)
              && (r.user.Err? ==> r.user.error == NoMatchingUser)
  {
    match CheckBearerFormat(header)
    case Err(e) => TokenCheck(Err(e), [])
    case Ok(token) =>
      var calls := [QueryUserForToken(token)];
      match userForToken(token)
      case Err(_) => TokenCheck(Err(NoMatchingUser), calls)
      case Ok(user) => TokenCheck(Ok(user), calls)
  }

  /** An empty or malformed header never reaches the token store. */
  lemma MalformedHeaderSkipsStore(header: string, userForToken: string -> Result<User, string>)
    ensures AuthenticateToken(header, userForToken).calls == [] <==> CheckBearerFormat(header).Err?
    ensures header == [] ==> AuthenticateToken(header, userForToken).user == Err(NoHeader)
  {
  }

  /** `CheckAuthentication`: every failure of `authenticateToken` becomes `invalidCredentials`. */
  function CheckAuthentication(header: string, s: Services): (h: Handled)
    ensures h.calls == AuthenticateToken(header, s.userForToken).calls
    ensures h.response == InvalidCredentials <==> AuthenticateToken(header, s.userForToken).user.Err?
    ensures AuthenticateToken(header, s.userForToken).user.Ok? ==>
              h.response == Json(200, false, "authenticated user " + AuthenticateToken(header, s.userForToken).user.value.email)
  {
    var check := AuthenticateToken(header, s.userForToken);
    match check.user
    case Err(_) => Handled(InvalidCredentials, check.calls)
    case Ok(user) => Handled(Json(200, false, "authenticated user " + user.email), check.calls)
  }

  /** A missing, malformed, wrong-size or unknown token all get the same answer. */
  lemma CheckAuthenticationFailuresAlike(h1: string, h2: string, s: Services)
    requires AuthenticateToken(h1, s.userForToken).user.Err?
    requires AuthenticateToken(h2, s.userForToken).user.Err?
    ensures CheckAuthentication(h1, s).response == CheckAuthentication(h2, s).response
  {
  }

  // ---------------------------------------------------------------------------
  // Token issue

  datatype Credentials = Credentials(email: string, password: string)

  /** The user whose stored hash the offered password matches, if any. */
  function VerifiedUser(c: Credentials, s: Services): Option<User>
  {
    match GetUserByEmail(c.email, s.usersByEmail)
    case Err(_) => None
    case Ok(user) =>
      if s.passwordMatches(user.password, c.password) == Ok(true) then Some(user) else None
  }

  /** `CreateAuthToken`: look up the user, check the password, mint and store a token. */
  function CreateAuthToken(input: Result<Credentials, string>, s: Services): (h: Handled)
    ensures input.Err? ==> h == Handled(BadRequest(input.error), [])
    ensures h.response == InvalidCredentials <==> input.Ok? && VerifiedUser(input.value, s).None?
    ensures input.Ok? && VerifiedUser(input.value, s).None? ==>
              forall k :: 0 <= k < |h.calls| ==> !h.calls[k].GenerateToken? && !h.calls[k].InsertToken?
    ensures h.response.TokenIssued? ==>
              && input.Ok? && VerifiedUser(input.value, s).Some?
              && var user := VerifiedUser(input.value, s).value;
              && s.generateToken(user.id, AuthTokenLifetime, ScopeAuthentication) == Ok(h.response.token)
              && s.insertToken(h.response.token, user) == Done
              && |h.calls| == 4
              && h.calls[2] == GenerateToken(user.id, AuthTokenLifetime, ScopeAuthentication)
              && h.calls[3] == InsertToken(h.response.token, user.id)
              && h.response.message == "token for " + input.value.email + " created"
    ensures input.Ok? && VerifiedUser(input.value, s).Some? ==>
              var user := VerifiedUser(input.value, s).value;
              var g := s.generateToken(user.id, AuthTokenLifetime, ScopeAuthentication);
              h.response.TokenIssued? <==> g.Ok? && s.insertToken(g.value, user) == Done
  {
    match input
    case Err(e) => Handled(BadRequest(e), [])
    case Ok(c) =>
      var calls := [QueryUserByEmail(ToLower(c.email))];
      match GetUserByEmail(c.email, s.usersByEmail)
      case Err(_) => Handled(InvalidCredentials, calls)
      case Ok(user) =>
        var calls := calls + [ComparePassword(user.password, c.password)];
        match s.passwordMatches(user.password, c.password)
        case Err(_) => Handled(InvalidCredentials, calls)
        case Ok(valid) =>
          if !valid then Handled(InvalidCredentials, calls)
          else
            var calls := calls + [GenerateToken(user.id, AuthTokenLifetime, ScopeAuthentication)];
            match s.generateToken(user.id, AuthTokenLifetime, ScopeAuthentication)
            case Err(e) => Handled(BadRequest(e), calls)
            case Ok(token) =>
              var calls := calls + [InsertToken(token, user.id)];
              match s.insertToken(token, user)
              case Failed(e) => Handled(BadRequest(e), calls)
              case Done => Handled(TokenIssued("token for " + c.email + " created", token), calls)
  }

  // ---------------------------------------------------------------------------
  // Password reset

  /** The unsigned reset link: the front-end address, the reset page's path and query key, then the address. */
  function ResetLink(frontend: string, email: string): (link: string)
    ensures |link| == |frontend| + 22 + |email|
    ensures link[..|frontend|] == frontend
    ensures link[|frontend|..|frontend| + 22] == "/reset-password?email="
    ensures link[|frontend| + 22..] == email
  {
    frontend + "/reset-password?email=" + email
  }

  /** Different addresses give different links under one front end. */
  lemma ResetLinkInjective(frontend: string, a: string, b: string)
    requires ResetLink(frontend, a) == ResetLink(frontend, b)
    ensures a == b
  {
    assert a == ResetLink(frontend, a)[|frontend| + 22..];
  }

  const MailSender := "info@widgets.com"

  /** The reset mail for `email` carrying `signedLink`. */
  function ResetMail(email: string, signedLink: string): (m: Mail)
    ensures m.from == MailSender && m.to == email && m.link == signedLink
    ensures m.subject == "Password Reset Request" && m.template == "password-reset"
  {
    Mail(MailSender, email, "Password Reset Request", "password-reset", signedLink)
  }

  /** `SendPasswordResetEmail`: check the address is known, sign the link, mail it. */
  function SendPasswordResetEmail(input: Result<string, string>, cfg: Config, s: Services): (h: Handled)
    ensures input.Err? ==> h == Handled(BadRequest(input.error), [])
    ensures input.Ok? && GetUserByEmail(input.value, s.usersByEmail).Err? ==>
              && h.response == Json(202, true, "No matching email found on our system")
              && forall k :: 0 <= k < |h.calls| ==> !h.calls[k].SignLink? && !h.calls[k].SendMail?
    ensures forall k :: 0 <= k < |h.calls| && h.calls[k].SendMail? ==>
              && input.Ok? && GetUserByEmail(input.value, s.usersByEmail).Ok?
              && k == 2 && h.calls[1] == SignLink(ResetLink(cfg.frontend, input.value))
              && h.calls[k].mail == ResetMail(input.value, s.sign(cfg.secretKey, ResetLink(cfg.frontend, input.value)))
    ensures h.response == Json(201, false, "") <==>
              && input.Ok? && GetUserByEmail(input.value, s.usersByEmail).Ok?
              && s.sendMail(ResetMail(input.value, s.sign(cfg.secretKey, ResetLink(cfg.frontend, input.value)))) == Done
  {
    match input
    case Err(e) => Handled(BadRequest(e), [])
    case Ok(email) =>
      var calls := [QueryUserByEmail(ToLower(email))];
      match GetUserByEmail(email, s.usersByEmail)
      case Err(_) => Handled(Json(202, true, "No matching email found on our system"), calls)
      case Ok(_) =>
        var link := ResetLink(cfg.frontend, email);
        var signedLink := s.sign(cfg.secretKey, link);
        var mail := ResetMail(email, signedLink);
        var calls := calls + [SignLink(link), SendMail(mail)];
        match s.sendMail(mail)
        case Failed(e) => Handled(BadRequest(e), calls)
        case Done => Handled(Json(201, false, ""), calls)
  }

  datatype ResetRequest = ResetRequest(email: string, password: string)

  /** `ResetPassword`: decrypt the address, find the user, hash, update. */
  function ResetPassword(input: Result<ResetRequest, string>, cfg: Config, s: Services): (h: Handled)
    ensures input.Err? ==> h == Handled(BadRequest(input.error), [])
    ensures forall k :: 0 <= k < |h.calls| && h.calls[k].UpdatePassword? ==>
              && input.Ok?
              && var plain := s.decrypt(cfg.secretKey, input.value.email);
              && plain.Ok?
              && GetUserByEmail(plain.value, s.usersByEmail).Ok?
              && s.hashPassword(input.value.password).Ok?
              && h.calls[k] == UpdatePassword(GetUserByEmail(plain.value, s.usersByEmail).value.id,
                                              s.hashPassword(input.value.password).value)
    ensures input.Ok? ==>
              var plain := s.decrypt(cfg.secretKey, input.value.email);
              (plain.Err? || GetUserByEmail(plain.value, s.usersByEmail).Err? ||
               s.hashPassword(input.value.password).Err?) ==>
                h.response.BadRequest? && forall k :: 0 <= k < |h.calls| ==> !h.calls[k].UpdatePassword?
    ensures h.response == Json(201, false, "password changed") <==>
              && input.Ok?
              && var plain := s.decrypt(cfg.secretKey, input.value.email);
              && plain.Ok?
              && GetUserByEmail(plain.value, s.usersByEmail).Ok?
              && s.hashPassword(input.value.password).Ok?
              && s.updatePassword(GetUserByEmail(plain.value, s.usersByEmail).value,
                                  s.hashPassword(input.value.password).value) == Done
  {
    match input
    case Err(e) => Handled(BadRequest(e), [])
    case Ok(req) =>
      var calls := [DecryptEmail(req.email)];
      match s.decrypt(cfg.secretKey, req.email)
      case Err(e) => Handled(BadRequest(e), calls)
      case Ok(realEmail) =>
        var calls := calls + [QueryUserByEmail(ToLower(realEmail))];
        match GetUserByEmail(realEmail, s.usersByEmail)
        case Err(e) => Handled(BadRequest(e), calls)
        case Ok(user) =>
          var calls := calls + [HashPassword(req.password)];
          match s.hashPassword(req.password)
          case Err(e) => Handled(BadRequest(e), calls)
          case Ok(newHash) =>
            var calls := calls + [UpdatePassword(user.id, newHash)];
            match s.updatePassword(user, newHash)
            case Failed(e) => Handled(BadRequest(e), calls)
            case Done => Handled(Json(201, false, "password changed"), calls)
  }

  // ---------------------------------------------------------------------------
  // Subscription and refund

  datatype StripePayload = StripePayload(
    currency: string, amount: string, paymentMethod: string, email: string,
    cardBrand: string, expiryMonth: int, expiryYear: int, lastFour: string,
    plan: string, productId: string, firstName: string, lastName: string)

  /** The transaction row a subscription records. */
  function SubscriptionTransaction(data: StripePayload, amount: int, sub: Subscription): (t: Transaction)
    ensures t.currency == "cad" && t.transactionStatusId == 2
    ensures t.paymentIntent == sub.id && t.amount == amount
  {
    Transaction(0, amount, "cad", data.lastFour, data.expiryMonth, data.expiryYear,
                sub.id, data.paymentMethod, "", 2)
  }

  /** The order row a subscription records. */
  function SubscriptionOrder(productId: int, txnId: int, customerId: int, amount: int): (o: Order)
    ensures o.statusId == 1 && o.quantity == 1 && o.amount == amount
    ensures o.widgetId == productId && o.transactionId == txnId && o.customerId == customerId
  {
    Order(0, productId, txnId, customerId, 1, 1, amount, ZeroWidget, ZeroTransaction, ZeroCustomer)
  }

  /**
   * `CreateCustomerAndSubscribeToPlan`: create the gateway customer, subscribe it,
   * then save customer, transaction and order, tracking `okay` and `txnMsg`.
   */
  method CreateCustomerAndSubscribeToPlan(input: Result<StripePayload, string>, s: Services)
    returns (h: Handled)
    ensures input.Err? ==> h == Handled(NoBody, [])
    ensures input.Ok? && s.createCustomer(input.value.paymentMethod, input.value.email).Err? ==>
              && h.response == TxnResult(false, s.createCustomer(input.value.paymentMethod, input.value.email).error)
              && NothingSaved(h.calls)
    ensures input.Ok? && s.createCustomer(input.value.paymentMethod, input.value.email).Ok? ==>
              var d := input.value;
              var answer := s.subscribe(s.createCustomer(d.paymentMethod, d.email).value, d.plan, d.email, d.lastFour, "");
              && (answer.subscription.None? ==> h.response == Panicked && NothingSaved(h.calls))
              && (answer.subscription.Some? && answer.error.Some? ==>
                    h.response == TxnResult(false, "Error subscribing customer") && NothingSaved(h.calls))
              && (forall k :: 0 <= k < |h.calls| && h.calls[k].InsertTransaction? ==>
                    && answer.subscription.Some? && answer.error.None?
                    && s.atoi(d.amount).Some?
                    && h.calls[k].txn == SubscriptionTransaction(d, s.atoi(d.amount).value, answer.subscription.value))
              && (forall k :: 0 <= k < |h.calls| && h.calls[k].InsertOrder? ==>
                    && k == |h.calls| - 1 == 4
                    && s.atoi(d.productId).Some? && s.atoi(d.amount).Some?
                    && h.calls[k - 2] == InsertCustomer(Customer(0, d.firstName, d.lastName, d.email))
                    && s.insertCustomer(Customer(0, d.firstName, d.lastName, d.email)).Ok?
                    && h.calls[k - 1].InsertTransaction?
                    && s.insertTransaction(h.calls[k - 1].txn).Ok?
                    && h.calls[k].order == SubscriptionOrder(
                         s.atoi(d.productId).value,
                         s.insertTransaction(h.calls[k - 1].txn).value,
                         s.insertCustomer(Customer(0, d.firstName, d.lastName, d.email)).value,
                         s.atoi(d.amount).value))
    ensures h.response == TxnResult(true, "Transaction successful") ==>
              |h.calls| > 0 && h.calls[|h.calls| - 1].InsertOrder? &&
              s.insertOrder(h.calls[|h.calls| - 1].order).Ok?
    ensures h.response == TxnResult(true, "Transaction successful") <==>
              && input.Ok?
              && var d := input.value;
              && s.createCustomer(d.paymentMethod, d.email).Ok?
              && var answer := s.subscribe(s.createCustomer(d.paymentMethod, d.email).value, d.plan, d.email, d.lastFour, "");
              && answer.subscription.Some? && answer.error.None?
              && s.atoi(d.productId).Some? && s.atoi(d.amount).Some?
              && var customer := Customer(0, d.firstName, d.lastName, d.email);
              && s.insertCustomer(customer).Ok?
              && var txn := SubscriptionTransaction(d, s.atoi(d.amount).value, answer.subscription.value);
              && s.insertTransaction(txn).Ok?
              && s.insertOrder(SubscriptionOrder(s.atoi(d.productId).value, s.insertTransaction(txn).value,
                                                 s.insertCustomer(customer).value, s.atoi(d.amount).value)).Ok?
  {
    if input.Err? {
      return Handled(NoBody, []);
    }
    var data := input.value;
    var okay := true;
    var subscription: Option<Subscription> := None;
    var txnMsg := "Transaction successful";
    var calls := [CreateStripeCustomer(data.paymentMethod, data.email)];

    var stripeCustomer := s.createCustomer(data.paymentMethod, data.email);
    if stripeCustomer.Err? {
      okay := false;
      txnMsg := stripeCustomer.error;
    }

    if okay {
      calls := calls + [SubscribeToPlan(data.plan, data.email, data.lastFour)];
      var answer := s.subscribe(stripeCustomer.value, data.plan, data.email, data.lastFour, "");
      subscription := answer.subscription;
      if answer.error.Some? {
        okay := false;
        txnMsg := "Error subscribing customer";
      }
      if subscription.None? {
        // `subscription.ID` is read for logging whether or not the call failed
        return Handled(Panicked, calls);
      }
    }

    if okay {
      var productId := s.atoi(data.productId);
      if productId.None? {
        return Handled(NoBody, calls);
      }
      var customer := Customer(0, data.firstName, data.lastName, data.email);
      calls := calls + [InsertCustomer(customer)];
      var customerId := s.insertCustomer(customer);
      if customerId.Err? {
        return Handled(NoBody, calls);
      }
      var amount := s.atoi(data.amount);
      if amount.None? {
        return Handled(NoBody, calls);
      }
      var txn := SubscriptionTransaction(data, amount.value, subscription.value);
      calls := calls + [InsertTransaction(txn)];
      var txnId := s.insertTransaction(txn);
      if txnId.Err? {
        return Handled(NoBody, calls);
      }
      var order := SubscriptionOrder(productId.value, txnId.value, customerId.value, amount.value);
      calls := calls + [InsertOrder(order)];
      var orderId := s.insertOrder(order);
      if orderId.Err? {
        return Handled(NoBody, calls);
      }
    }

    return Handled(TxnResult(okay, txnMsg), calls);
  }

  datatype RefundRequest = RefundRequest(id: int, paymentIntent: string, amount: int, currency: string)

  const RefundedStatus := 2

  /** `RefundCharge`: refund through the gateway, then mark the order refunded. */
  function RefundCharge(input: Result<RefundRequest, string>, s: Services): (h: Handled)
    ensures input.Err? ==> h == Handled(BadRequest(input.error), [])
    ensures forall k :: 0 <= k < |h.calls| && h.calls[k].UpdateOrderStatus? ==>
              && input.Ok? && s.refund(input.value.paymentIntent, input.value.amount) == Done
              && k == 1 && h.calls[0] == RefundPayment(input.value.paymentIntent, input.value.amount)
              && h.calls[k] == UpdateOrderStatus(input.value.id, RefundedStatus)
    ensures h.response == Json(200, false, "Charge refunded") <==>
              && input.Ok? && s.refund(input.value.paymentIntent, input.value.amount) == Done
              && s.updateOrderStatus(input.value.id, RefundedStatus) == Done
    ensures input.Ok? && s.refund(input.value.paymentIntent, input.value.amount) == Done &&
            s.updateOrderStatus(input.value.id, RefundedStatus).Failed? ==>
              h.response == BadRequest("the charge was refunded, but the database could not be updated")
  {
    match input
    case Err(e) => Handled(BadRequest(e), [])
    case Ok(charge) =>
      var calls := [RefundPayment(charge.paymentIntent, charge.amount)];
      match s.refund(charge.paymentIntent, charge.amount)
      case Failed(e) => Handled(BadRequest(e), calls)
      case Done =>
        var calls := calls + [UpdateOrderStatus(charge.id, RefundedStatus)];
        match s.updateOrderStatus(charge.id, RefundedStatus)
        case Failed(_) => Handled(BadRequest("the charge was refunded, but the database could not be updated"), calls)
        case Done => Handled(Json(200, false, "Charge refunded"), calls)
  }
}
