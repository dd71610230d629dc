/**
 * The web application's handlers that touch the session or build payment
 * records: login and logout, the two payment-succeeded handlers with their
 * one-shot receipts, transaction-data gathering, and the reset-link check.
 */
module WebHandlers {
  import opened Base
  import opened Models
  import opened Calls
  import opened Session

  datatype TransactionData = TransactionData(
    firstName: string, lastName: string, email: string,
    paymentIntentId: string, paymentMethodId: string,
    paymentAmount: int, paymentCurrency: string,
    lastFour: string, expiryMonth: int, expiryYear: int, bankReturnCode: string)

  /** What the handlers keep in a session: a logged-in user or a pending receipt. */
  datatype SessionValue = UserID(id: int) | PendingReceipt(txn: TransactionData)

  const UserKey := "userID"
  const ReceiptKey := "receipt"

  datatype WebResponse =
    | NoResponse                          // returned after only logging
    | Redirect(path: string)              // 303 See Other
    | ReceiptPage(page: string, txn: TransactionData)
    | Text(body: string)
    | Panicked                            // a failed type assertion or index aborts the request

  /** A parsed form; `Form.Get` gives "" for a missing field. */
  type Form = map<string, string>

  function FormGet(form: Form, key: string): string
  {
    if key in form then form[key] else ""
  }

  // ---------------------------------------------------------------------------
  // Transaction data

  datatype Gathered = Gathered(txn: TransactionData) | GatherFailed(message: string) | NoCharges

  /**
   * `GetTransactionData`: the customer fields and amount from the form, the card
   * details from the payment method, the bank return code from the first charge.
   */
  function GetTransactionData(form: Result<Form, string>, s: Services): (r: Gathered)
    ensures r.Gathered? <==>
              && form.Ok?
              && s.atoi(FormGet(form.value, "payment_amount")).Some?
              && s.retrievePaymentIntent(FormGet(form.value, "payment_intent")).Ok?
              && s.getPaymentMethod(FormGet(form.value, "payment_method")).Ok?
              && |s.retrievePaymentIntent(FormGet(form.value, "payment_intent")).value.chargeIds| > 0
    ensures r == NoCharges <==>
              && form.Ok?
              && s.atoi(FormGet(form.value, "payment_amount")).Some?
              && s.retrievePaymentIntent(FormGet(form.value, "payment_intent")).Ok?
              && s.getPaymentMethod(FormGet(form.value, "payment_method")).Ok?
              && s.retrievePaymentIntent(FormGet(form.value, "payment_intent")).value.chargeIds == []
    ensures r.Gathered? ==>
              var f := form.value;
              var pi := s.retrievePaymentIntent(FormGet(f, "payment_intent")).value;
              var pm := s.getPaymentMethod(FormGet(f, "payment_method")).value;
              && r.txn.firstName == FormGet(f, "first_name") && r.txn.lastName == FormGet(f, "last_name")
              && r.txn.email == FormGet(f, "email")
              && r.txn.paymentIntentId == FormGet(f, "payment_intent")
              && r.txn.paymentMethodId == FormGet(f, "payment_method")
              && r.txn.paymentAmount == s.atoi(FormGet(f, "payment_amount")).value
              && r.txn.paymentCurrency == FormGet(f, "payment_currency")
              && r.txn.lastFour == pm.last4 && r.txn.expiryMonth == pm.expMonth && r.txn.expiryYear == pm.expYear
              && r.txn.bankReturnCode == pi.chargeIds[0]
  {
    match form
    case Err(e) => GatherFailed(e)
    case Ok(f) =>
      var paymentIntent := FormGet(f, "payment_intent");
      var paymentMethod := FormGet(f, "payment_method");
      match s.atoi(FormGet(f, "payment_amount"))
      case None => GatherFailed("invalid payment amount")
      case Some(amount) =>
        match s.retrievePaymentIntent(paymentIntent)
        case Err(e) => GatherFailed(e)
        case Ok(pi) =>
          match s.getPaymentMethod(paymentMethod)
          case Err(e) => GatherFailed(e)
          case Ok(pm) =>
            if pi.chargeIds == [] then NoCharges
            else
              Gathered(TransactionData(
                FormGet(f, "first_name"), FormGet(f, "last_name"), FormGet(f, "email"),
                paymentIntent, paymentMethod, amount, FormGet(f, "payment_currency"),
                pm.last4, pm.expMonth, pm.expYear, pi.chargeIds[0]))
  }

  /** The transaction row both payment handlers save. */
  function PaymentTransaction(t: TransactionData): (txn: Transaction)
    ensures txn.transactionStatusId == 2 && txn.amount == t.paymentAmount
    ensures txn.currency == t.paymentCurrency && txn.paymentIntent == t.paymentIntentId
    ensures txn.bankReturnCode == t.bankReturnCode
  {
    Transaction(0, t.paymentAmount, t.paymentCurrency, t.lastFour, t.expiryMonth, t.expiryYear,
                t.paymentIntentId, t.paymentMethodId, t.bankReturnCode, 2)
  }

  /** The order row `PaymentSucceeded` saves. */
  function PaymentOrder(widgetId: int, txnId: int, customerId: int, t: TransactionData): (o: Order)
    ensures o.statusId == 1 && o.quantity == 1 && o.amount == t.paymentAmount
    ensures o.widgetId == widgetId && o.transactionId == txnId && o.customerId == customerId
  {
    Order(0, widgetId, txnId, customerId, 1, 1, t.paymentAmount, ZeroWidget, ZeroTransaction, ZeroCustomer)
  }

  /** The customer row `PaymentSucceeded` saves: the payer's names and address. */
  function CustomerOf(t: TransactionData): (c: Customer)
    ensures c.firstName == t.firstName && c.lastName == t.lastName && c.email == t.email
  {
    Customer(0, t.firstName, t.lastName, t.email)
  }

  // ---------------------------------------------------------------------------
  // Payments and receipts

  /**
   * `PaymentSucceeded`: save customer, transaction and order, and only then
   * put the receipt in the session and redirect to `/receipt`.
   */
  method PaymentSucceeded(session: SessionStore<SessionValue>, form: Result<Form, string>, s: Services)
    returns (resp: WebResponse, calls: seq<Call>)
    requires session.Valid()
    modifies session
    ensures session.Valid()
    ensures session.token == old(session.token) && session.nextToken == old(session.nextToken)
    ensures resp != Redirect("/receipt") ==> session.sessions == old(session.sessions)
    ensures resp == Redirect("/receipt") <==>
              && form.Ok? && s.atoi(FormGet(form.value, "product_id")).Some?
              && GetTransactionData(form, s).Gathered?
              && var t := GetTransactionData(form, s).txn;
              && s.insertCustomer(CustomerOf(t)).Ok?
              && s.insertTransaction(PaymentTransaction(t)).Ok?
              && s.insertOrder(PaymentOrder(s.atoi(FormGet(form.value, "product_id")).value,
                                            s.insertTransaction(PaymentTransaction(t)).value,
                                            s.insertCustomer(CustomerOf(t)).value, t)).Ok?
    ensures resp == Redirect("/receipt") ==> session.sessions == old(session.sessions)[session.token := session.Data()]
    ensures resp == Redirect("/receipt") ==>
              && form.Ok? && GetTransactionData(form, s).Gathered?
              && var t := GetTransactionData(form, s).txn;
              && session.Data() == old(session.Data())[ReceiptKey := PendingReceipt(t)]
              && |calls| == 3
              && calls[0] == InsertCustomer(CustomerOf(t)) && s.insertCustomer(CustomerOf(t)).Ok?
              && calls[1] == InsertTransaction(PaymentTransaction(t)) && s.insertTransaction(PaymentTransaction(t)).Ok?
              && calls[2].InsertOrder? && s.insertOrder(calls[2].order).Ok?
    ensures forall k :: 0 <= k < |calls| && calls[k].InsertOrder? ==>
              && k == 2 && form.Ok? && GetTransactionData(form, s).Gathered?
              && s.atoi(FormGet(form.value, "product_id")).Some?
              && var t := GetTransactionData(form, s).txn;
              && s.insertCustomer(CustomerOf(t)).Ok? && s.insertTransaction(PaymentTransaction(t)).Ok?
              && calls[k].order == PaymentOrder(s.atoi(FormGet(form.value, "product_id")).value,
                                               s.insertTransaction(PaymentTransaction(t)).value,
                                               s.insertCustomer(CustomerOf(t)).value, t)
    ensures GetTransactionData(form, s) == NoCharges && s.atoi(FormGet(form.value, "product_id")).Some? ==>
              resp == Panicked && calls == []
  {
    calls := [];
    if form.Err? {
      return NoResponse, calls;
    }
    var widgetId := s.atoi(FormGet(form.value, "product_id"));
    if widgetId.None? {
      return NoResponse, calls;
    }
    var gathered := GetTransactionData(form, s);
    if gathered.NoCharges? {
      return Panicked, calls;
    }
    if gathered.GatherFailed? {
      return NoResponse, calls;
    }
    var txnData := gathered.txn;

    var customer := CustomerOf(txnData);
    calls := calls + [InsertCustomer(customer)];
    var customerId := s.insertCustomer(customer);
    if customerId.Err? {
      return NoResponse, calls;
    }

    var txn := PaymentTransaction(txnData);
    calls := calls + [InsertTransaction(txn)];
    var txnId := s.insertTransaction(txn);
    if txnId.Err? {
      return NoResponse, calls;
    }

    var order := PaymentOrder(widgetId.value, txnId.value, customerId.value, txnData);
    calls := calls + [InsertOrder(order)];
    var orderId := s.insertOrder(order);
    if orderId.Err? {
      return NoResponse, calls;
    }

    session.Put(ReceiptKey, PendingReceipt(txnData));
    resp := Redirect("/receipt");
  }

  /**
   * `VirtualTerminalPaymentSucceeded`: save the transaction, and only then put
   * the receipt in the session and redirect to `/virtual-terminal-receipt`.
   */
  method VirtualTerminalPaymentSucceeded(session: SessionStore<SessionValue>, form: Result<Form, string>, s: Services)
    returns (resp: WebResponse, calls: seq<Call>)
    requires session.Valid()
    modifies session
    ensures session.Valid()
    ensures session.token == old(session.token) && session.nextToken == old(session.nextToken)
    ensures resp != Redirect("/virtual-terminal-receipt") ==> session.sessions == old(session.sessions)
    ensures resp == Redirect("/virtual-terminal-receipt") ==>
              session.sessions == old(session.sessions)[session.token := session.Data()]
    ensures resp == Redirect("/virtual-terminal-receipt") <==>
              && GetTransactionData(form, s).Gathered?
              && s.insertTransaction(PaymentTransaction(GetTransactionData(form, s).txn)).Ok?
    ensures resp == Redirect("/virtual-terminal-receipt") ==>
              var t := GetTransactionData(form, s).txn;
              && session.Data() == old(session.Data())[ReceiptKey := PendingReceipt(t)]
              && calls == [InsertTransaction(PaymentTransaction(t))]
    ensures !GetTransactionData(form, s).Gathered? ==> NothingSaved(calls)
  {
    calls := [];
    var gathered := GetTransactionData(form, s);
    if gathered.NoCharges? {
      return Panicked, calls;
    }
    if gathered.GatherFailed? {
      return NoResponse, calls;
    }
    var txn := PaymentTransaction(gathered.txn);
    calls := [InsertTransaction(txn)];
    var txnId := s.insertTransaction(txn);
    if txnId.Err? {
      return NoResponse, calls;
    }
    session.Put(ReceiptKey, PendingReceipt(gathered.txn));
    resp := Redirect("/virtual-terminal-receipt");
  }

  /** A receipt page: read the pending receipt, then remove it from the session. */
  method ServeReceipt(session: SessionStore<SessionValue>, page: string) returns (resp: WebResponse)
    requires session.Valid()
    modifies session
    ensures session.Valid()
    ensures session.token == old(session.token) && session.nextToken == old(session.nextToken)
    ensures ReceiptKey in old(session.Data()) && old(session.Data())[ReceiptKey].PendingReceipt? ==>
              && resp == ReceiptPage(page, old(session.Data())[ReceiptKey].txn)
              && session.Data() == old(session.Data()) - {ReceiptKey}
              && session.sessions == old(session.sessions)[session.token := session.Data()]
    ensures !(ReceiptKey in old(session.Data()) && old(session.Data())[ReceiptKey].PendingReceipt?) ==>
              resp == Panicked && session.sessions == old(session.sessions)
    ensures resp != Panicked ==> !session.Exists(session.token, ReceiptKey)
  {
    var value := session.Get(ReceiptKey);
    if value.None? || !value.value.PendingReceipt? {
      // `.(TransactionData)` on a missing or differently typed value panics
      return Panicked;
    }
    var txn := value.value.txn;
    session.Remove(ReceiptKey);
    resp := ReceiptPage(page, txn);
  }

  /** `Receipt`: the one-shot receipt after a widget purchase. */
  method Receipt(session: SessionStore<SessionValue>) returns (resp: WebResponse)
    requires session.Valid()
    modifies session
    ensures session.Valid()
    ensures session.token == old(session.token) && session.nextToken == old(session.nextToken)
    ensures ReceiptKey in old(session.Data()) && old(session.Data())[ReceiptKey].PendingReceipt? ==>
              && resp == ReceiptPage("receipt", old(session.Data())[ReceiptKey].txn)
              && session.Data() == old(session.Data()) - {ReceiptKey}
              && session.sessions == old(session.sessions)[session.token := session.Data()]
    ensures !(ReceiptKey in old(session.Data()) && old(session.Data())[ReceiptKey].PendingReceipt?) ==>
              resp == Panicked && session.sessions == old(session.sessions)
    ensures resp != Panicked ==> !session.Exists(session.token, ReceiptKey)
  {
    resp := ServeReceipt(session, "receipt");
  }

  /** `VirtualTerminalReceipt`: the one-shot receipt after a terminal payment. */
  method VirtualTerminalReceipt(session: SessionStore<SessionValue>) returns (resp: WebResponse)
    requires session.Valid()
    modifies session
    ensures session.Valid()
    ensures session.token == old(session.token) && session.nextToken == old(session.nextToken)
    ensures ReceiptKey in old(session.Data()) && old(session.Data())[ReceiptKey].PendingReceipt? ==>
              && resp == ReceiptPage("virtual-terminal-receipt", old(session.Data())[ReceiptKey].txn)
              && session.Data() == old(session.Data()) - {ReceiptKey}
              && session.sessions == old(session.sessions)[session.token := session.Data()]
    ensures !(ReceiptKey in old(session.Data()) && old(session.Data())[ReceiptKey].PendingReceipt?) ==>
              resp == Panicked && session.sessions == old(session.sessions)
    ensures resp != Panicked ==> !session.Exists(session.token, ReceiptKey)
  {
    resp := ServeReceipt(session, "virtual-terminal-receipt");
  }

  // ---------------------------------------------------------------------------
  // Login and logout

  /**
   * `PostLoginPage`: renew the session token first; store the user id and go
   * to `/` only when the credentials check out, otherwise back to `/login`.
   */
  method PostLoginPage(session: SessionStore<SessionValue>, form: Result<Form, string>, s: Services)
    returns (resp: WebResponse)
    requires session.Valid()
    modifies session
    ensures session.Valid()
    ensures session.token == old(session.nextToken) && old(session.token) !in session.sessions
    ensures session.token !in old(session.sessions)
    ensures form.Err? ==> resp == NoResponse && session.Data() == old(session.Data())
    ensures form.Ok? ==>
              var id := Authenticate(FormGet(form.value, "email"), FormGet(form.value, "password"),
                                     s.credentialsByEmail, s.compareHash);
              && (id.Err? ==> resp == Redirect("/login") && session.Data() == old(session.Data()))
              && (id.Ok? ==> resp == Redirect("/") && session.Data() == old(session.Data())[UserKey := UserID(id.value)])
    ensures session.sessions - {session.token} == old(session.sessions) - {old(session.token)}
  {
    session.RenewToken();
    if form.Err? {
      return NoResponse;
    }
    var email := FormGet(form.value, "email");
    var password := FormGet(form.value, "password");
    var id := Authenticate(email, password, s.credentialsByEmail, s.compareHash);
    if id.Err? {
      return Redirect("/login");
    }
    session.Put(UserKey, UserID(id.value));
    resp := Redirect("/");
  }

  /**
   * `Logout`: destroy the session, then renew its token. Afterwards the request's
   * session is empty and the old token names no session at all.
   */
  method Logout(session: SessionStore<SessionValue>) returns (resp: WebResponse)
    requires session.Valid()
    modifies session
    ensures session.Valid()
    ensures resp == Redirect("/login")
    ensures session.Data() == map[]
    ensures !session.Exists(session.token, UserKey) && !session.Exists(old(session.token), UserKey)
    ensures forall key :: !session.Exists(old(session.token), key)
    ensures session.token !in old(session.sessions)
    ensures session.sessions - {session.token} == old(session.sessions) - {old(session.token)}
  {
    session.Destroy();
    session.RenewToken();
    resp := Redirect("/login");
  }

  // ---------------------------------------------------------------------------
  // Reset link check

  /** `ShowResetPassword`: verify `frontend + RequestURI` with the signer. */
  function ShowResetPassword(cfg: Config, requestUri: string, s: Services): (r: WebResponse)
    ensures r == Text("valid") || r == Text("invalid")
    ensures r == Text("valid") <==> s.verify(cfg.secretKey, cfg.frontend + requestUri)
  {
    var testUrl := cfg.frontend + requestUri;
    if s.verify(cfg.secretKey, testUrl) then Text("valid") else Text("invalid")
  }
}
