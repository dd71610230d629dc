/**
 * The collaborators the handlers call but whose code is not part of this model
 * (SQL statements, the payment gateway, bcrypt, the token generator and store,
 * the URL signer, the encryptor, the mailer), and the trace of the calls a
 * handler makes to them.
 *
 * A collaborator is a function-valued field of `Services`: any behaviour it has
 * is allowed, so a property proved for all `Services` holds whatever they answer.
 * A randomised collaborator (token generator, bcrypt hashing) is represented by
 * the answer it gives on this run.
 */
module Calls {
  import opened Base
  import opened Models

  /** Token scopes; the handlers only ever mint authentication tokens. */
  datatype Scope = ScopeAuthentication

  /** A bearer token as the (not modelled) generator returns it; its fields are opaque here. */
  datatype Token = Token(plaintext: string, userId: int, expiry: int, scope: Scope)

  datatype Mail = Mail(from: string, to: string, subject: string, template: string, link: string)

  datatype StripeCustomer = StripeCustomer(id: string)

  datatype Subscription = Subscription(id: string)

  /** `(subscription, err)` as the gateway's subscribe call returns them; either may be nil. */
  datatype SubscribeAnswer = SubscribeAnswer(subscription: Option<Subscription>, error: Option<string>)

  /** The part of a payment intent the handlers read: the ids of its charges. */
  datatype PaymentIntent = PaymentIntent(chargeIds: seq<string>)

  /** The card details of a payment method. */
  datatype PaymentMethod = PaymentMethod(last4: string, expMonth: int, expYear: int)

  datatype Services = Services(
    // the user row whose email equals the address as passed
    usersByEmail: string -> Result<User, string>,
    // the id and password hash of the user with that email
    credentialsByEmail: string -> Result<(int, string), string>,
    // bcrypt.CompareHashAndPassword(hash, password)
    compareHash: (string, string) -> Comparison,
    // the API's password check on (stored hash, offered password)
    passwordMatches: (string, string) -> Result<bool, string>,
    // token generator and token store
    generateToken: (int, int, Scope) -> Result<Token, string>,
    insertToken: (Token, User) -> Outcome,
    userForToken: string -> Result<User, string>,
    // URL signer with a secret: sign and verify
    sign: (string, string) -> string,
    verify: (string, string) -> bool,
    // encryptor with a key: decrypt
    decrypt: (string, string) -> Result<string, string>,
    // bcrypt.GenerateFromPassword(password, 12)
    hashPassword: string -> Result<string, string>,
    updatePassword: (User, string) -> Outcome,
    sendMail: Mail -> Outcome,
    // strconv.Atoi
    atoi: string -> Option<int>,
    // inserts return the new row id
    insertCustomer: Customer -> Result<int, string>,
    insertTransaction: Transaction -> Result<int, string>,
    insertOrder: Order -> Result<int, string>,
    updateOrderStatus: (int, int) -> Outcome,
    // payment gateway
    createCustomer: (string, string) -> Result<StripeCustomer, string>,
    subscribe: (StripeCustomer, string, string, string, string) -> SubscribeAnswer,
    refund: (string, int) -> Outcome,
    retrievePaymentIntent: string -> Result<PaymentIntent, string>,
    getPaymentMethod: string -> Result<PaymentMethod, string>)

  /** The application configuration the handlers read. */
  datatype Config = Config(
    api: string, frontend: string, secretKey: string,
    stripeSecret: string, stripeKey: string, env: string)

  /** One call a handler makes to a collaborator, with the arguments it passes. */
  datatype Call =
    | QueryUserByEmail(email: string)
    | QueryUserForToken(plaintext: string)
    | ComparePassword(hash: string, password: string)
    | GenerateToken(userId: int, lifetime: int, scope: Scope)
    | InsertToken(token: Token, userId: int)
    | SignLink(link: string)
    | SendMail(mail: Mail)
    | DecryptEmail(ciphertext: string)
    | HashPassword(password: string)
    | UpdatePassword(userId: int, hash: string)
    | CreateStripeCustomer(paymentMethod: string, email: string)
    | SubscribeToPlan(plan: string, email: string, lastFour: string)
    | InsertCustomer(customer: Customer)
    | InsertTransaction(txn: Transaction)
    | InsertOrder(order: Order)
    | RefundPayment(paymentIntent: string, amount: int)
    | UpdateOrderStatus(orderId: int, statusId: int)

  /** No customer, transaction or order row was written. */
  predicate NothingSaved(calls: seq<Call>)
  {
    forall k :: 0 <= k < |calls| ==>
      !calls[k].InsertCustomer? && !calls[k].InsertTransaction? && !calls[k].InsertOrder?
  }
}
