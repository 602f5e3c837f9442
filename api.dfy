/**
 * The route table the three route files register, in the order the
 * application loads them (authentication, payments, profile), and
 * `handleRequest` dispatching a request through it to the handlers.
 */
module Api {
  import opened Wrappers
  import opened Strings
  import opened Router
  import Requests
  import Http
  import Responses
  import AuthContext
  import AuthRoutes
  import ProfileRoutes
  import PaymentRoutes
  import Sellers
  import Otps
  import Sessions
  import Payments
  import Transactions

  datatype Endpoint =
    | Signup | SignupVerify | ResendOtp | Login | RequestLoginOtp | VerifyLoginOtp
    | RequestPasswordReset | ResetPassword | Logout | Refresh
    | CreatePayment | ListPayments | GetPayment | DeletePayment | RecordSellerTransaction
    | RecordPublicTransaction | GetPublicPayment
    | GetProfile | UpdateProfile | DeleteProfile | ChangePassword

  const Guarded: Option<bool> := Some(true)

  /** The registrations of backend/src/routes/authRoutes.js, in file order. */
  method RegisterAuthRoutes(table: RouteTable<Endpoint>)
    modifies table
    ensures |table.routes| == |old(table.routes)| + 10
    ensures forall i :: 0 <= i < |old(table.routes)| ==> table.routes[i] == old(table.routes)[i]
    ensures table.routes[|old(table.routes)|] == RouteFor("POST", "/auth/signup", Signup, None)
    ensures table.routes[|old(table.routes)| + 1] == RouteFor("POST", "/auth/signup/verify", SignupVerify, None)
    ensures table.routes[|old(table.routes)| + 2] == RouteFor("POST", "/auth/otp/resend", ResendOtp, None)
    ensures table.routes[|old(table.routes)| + 3] == RouteFor("POST", "/auth/login", Login, None)
    ensures table.routes[|old(table.routes)| + 4] == RouteFor("POST", "/auth/login/otp/request", RequestLoginOtp, None)
    ensures table.routes[|old(table.routes)| + 5] == RouteFor("POST", "/auth/login/otp/verify", VerifyLoginOtp, None)
    ensures table.routes[|old(table.routes)| + 6] == RouteFor("POST", "/auth/password/request", RequestPasswordReset, None)
    ensures table.routes[|old(table.routes)| + 7] == RouteFor("POST", "/auth/password/reset", ResetPassword, None)
    ensures table.routes[|old(table.routes)| + 8] == RouteFor("POST", "/auth/logout", Logout, Guarded)
    ensures table.routes[|old(table.routes)| + 9] == RouteFor("POST", "/auth/refresh", Refresh, None)
  {
    table.RegisterRoute("POST", "/auth/signup", Signup, None);
    table.RegisterRoute("POST", "/auth/signup/verify", SignupVerify, None);
    table.RegisterRoute("POST", "/auth/otp/resend", ResendOtp, None);
    table.RegisterRoute("POST", "/auth/login", Login, None);
    table.RegisterRoute("POST", "/auth/login/otp/request", RequestLoginOtp, None);
    table.RegisterRoute("POST", "/auth/login/otp/verify", VerifyLoginOtp, None);
    table.RegisterRoute("POST", "/auth/password/request", RequestPasswordReset, None);
    table.RegisterRoute("POST", "/auth/password/reset", ResetPassword, None);
    table.RegisterRoute("POST", "/auth/logout", Logout, Guarded);
    table.RegisterRoute("POST", "/auth/refresh", Refresh, None);
  }

  /** The registrations of backend/src/routes/paymentRoutes.js, in file order. */
  method RegisterPaymentRoutes(table: RouteTable<Endpoint>)
    modifies table
    ensures |table.routes| == |old(table.routes)| + 7
    ensures forall i :: 0 <= i < |old(table.routes)| ==> table.routes[i] == old(table.routes)[i]
    ensures table.routes[|old(table.routes)|] == RouteFor("POST", "/payments", CreatePayment, Guarded)
    ensures table.routes[|old(table.routes)| + 1] == RouteFor("GET", "/payments", ListPayments, Guarded)
    ensures table.routes[|old(table.routes)| + 2] == RouteFor("GET", "/payments/:id", GetPayment, Guarded)
    ensures table.routes[|old(table.routes)| + 3] == RouteFor("DELETE", "/payments/:id", DeletePayment, Guarded)
    ensures table.routes[|old(table.routes)| + 4] == RouteFor("POST", "/payments/:id/transactions", RecordSellerTransaction, Guarded)
    ensures table.routes[|old(table.routes)| + 5] == RouteFor("POST", "/public/payments/:id/transactions", RecordPublicTransaction, None)
    ensures table.routes[|old(table.routes)| + 6] == RouteFor("GET", "/public/payments/:slug", GetPublicPayment, None)
  {
    table.RegisterRoute("POST", "/payments", CreatePayment, Guarded);
    table.RegisterRoute("GET", "/payments", ListPayments, Guarded);
    table.RegisterRoute("GET", "/payments/:id", GetPayment, Guarded);
    table.RegisterRoute("DELETE", "/payments/:id", DeletePayment, Guarded);
    table.RegisterRoute("POST", "/payments/:id/transactions", RecordSellerTransaction, Guarded);
    table.RegisterRoute("POST", "/public/payments/:id/transactions", RecordPublicTransaction, None);
    table.RegisterRoute("GET", "/public/payments/:slug", GetPublicPayment, None);
  }

  /** The registrations of backend/src/routes/profileRoutes.js, in file order. */
  method RegisterProfileRoutes(table: RouteTable<Endpoint>)
    modifies table
    ensures |table.routes| == |old(table.routes)| + 4
    ensures forall i :: 0 <= i < |old(table.routes)| ==> table.routes[i] == old(table.routes)[i]
    ensures table.routes[|old(table.routes)|] == RouteFor("GET", "/profile", GetProfile, Guarded)
    ensures table.routes[|old(table.routes)| + 1] == RouteFor("PATCH", "/profile", UpdateProfile, Guarded)
    ensures table.routes[|old(table.routes)| + 2] == RouteFor("DELETE", "/profile", DeleteProfile, Guarded)
    ensures table.routes[|old(table.routes)| + 3] == RouteFor("PATCH", "/profile/password", ChangePassword, Guarded)
  {
    table.RegisterRoute("GET", "/profile", GetProfile, Guarded);
    table.RegisterRoute("PATCH", "/profile", UpdateProfile, Guarded);
    table.RegisterRoute("DELETE", "/profile", DeleteProfile, Guarded);
    table.RegisterRoute("PATCH", "/profile/password", ChangePassword, Guarded);
  }

  /**
   * The table once app.js has loaded the three route files, in its import
   * order. The root route file is not among its imports, so `GET /` has no
   * route.
   */
  method LoadRoutes() returns (table: RouteTable<Endpoint>)
    ensures fresh(table)
    ensures |table.routes| == 21
  {
    table := new RouteTable<Endpoint>();
    RegisterAuthRoutes(table);
    RegisterPaymentRoutes(table);
    RegisterProfileRoutes(table);
  }

  /** The handlers backend/src/routes/authRoutes.js registers. */
  predicate IsAuthEndpoint(e: Endpoint) {
    || e.Signup? || e.SignupVerify? || e.ResendOtp? || e.Login? || e.RequestLoginOtp? || e.VerifyLoginOtp?
    || e.RequestPasswordReset? || e.ResetPassword? || e.Logout? || e.Refresh?
  }

  /** The handlers backend/src/routes/paymentRoutes.js registers. */
  predicate IsPaymentEndpoint(e: Endpoint) {
    || e.CreatePayment? || e.ListPayments? || e.GetPayment? || e.DeletePayment?
    || e.RecordSellerTransaction? || e.RecordPublicTransaction? || e.GetPublicPayment?
  }

  /** `route.handler({ body, params, query, seller, session, authToken })` for an authentication handler. */
  method DispatchAuth(endpoint: Endpoint, body: Requests.Body, context: AuthContext.AuthContext,
    sellers: Sellers.SellerStore, otps: Otps.OtpStore, sessions: Sessions.SessionStore,
    d: Requests.Draws) returns (outcome: Responses.Outcome)
    requires IsAuthEndpoint(endpoint)
    requires sellers.Valid() && otps.Valid() && sessions.Valid()
    requires AuthRoutes.DrawsFit(d, otps.settings.otpLength)
    modifies sellers, otps, sessions
    ensures sellers.Valid() && otps.Valid() && sessions.Valid()
  {
    match endpoint {
      case Signup => outcome := AuthRoutes.Signup(sellers, otps, body, d);
      case SignupVerify => outcome := AuthRoutes.SignupVerify(sellers, otps, sessions, body, d);
      case ResendOtp => outcome := AuthRoutes.ResendOtp(sellers, otps, body, d);
      case Login => outcome := AuthRoutes.Login(sellers, sessions, body, d);
      case RequestLoginOtp => outcome := AuthRoutes.RequestLoginOtp(sellers, otps, body, d);
      case VerifyLoginOtp => outcome := AuthRoutes.VerifyLoginOtp(sellers, otps, sessions, body, d);
      case RequestPasswordReset => outcome := AuthRoutes.RequestPasswordReset(sellers, otps, body, d);
      case ResetPassword => outcome := AuthRoutes.ResetPassword(sellers, otps, body, d);
      case Logout => outcome := AuthRoutes.Logout(sessions, context.session, context.token, d.now);
      case Refresh => outcome := AuthRoutes.Refresh(sessions, body, d);
    }
  }

  /** `route.handler({ body, params, query, seller })` for a payment handler. */
  method DispatchPayment(endpoint: Endpoint, body: Requests.Body, params: map<string, string>,
    query: map<string, string>, seller: Option<Sellers.Seller>,
    payments: Payments.PaymentStore, transactions: Transactions.TransactionStore,
    d: Requests.Draws, usdRateSet: bool) returns (outcome: Responses.Outcome)
    requires IsPaymentEndpoint(endpoint)
    requires payments.Valid() && transactions.Valid()
    requires |d.slugCandidates| == Payments.SlugAttempts
    modifies payments, transactions
    ensures payments.Valid() && transactions.Valid()
  {
    match endpoint {
      case CreatePayment => outcome := PaymentRoutes.CreatePayment(payments, seller, body, d, usdRateSet);
      case ListPayments => outcome := PaymentRoutes.ListPayments(payments.payments, seller, query);
      case GetPayment => outcome := PaymentRoutes.GetPayment(payments.payments, seller, params);
      case DeletePayment => outcome := PaymentRoutes.DeletePayment(payments, seller, params, body, d.now);
      case RecordSellerTransaction =>
        outcome := PaymentRoutes.RecordSellerTransaction(payments.payments, transactions, seller, params, body, d.now);
      case RecordPublicTransaction =>
        outcome := PaymentRoutes.RecordPublicTransaction(payments.payments, transactions, params, body, d.now);
      case GetPublicPayment => outcome := PaymentRoutes.GetPublicPayment(payments.payments, params);
    }
  }

  /** `route.handler({ body, params, query, seller, session, authToken })` for the handler registered as `endpoint`. */
  method Dispatch(endpoint: Endpoint, body: Requests.Body, params: map<string, string>, query: map<string, string>,
    context: AuthContext.AuthContext,
    sellers: Sellers.SellerStore, otps: Otps.OtpStore, sessions: Sessions.SessionStore,
    payments: Payments.PaymentStore, transactions: Transactions.TransactionStore,
    d: Requests.Draws, usdRateSet: bool) returns (outcome: Responses.Outcome)
    requires sellers.Valid() && otps.Valid() && sessions.Valid() && payments.Valid() && transactions.Valid()
    requires AuthRoutes.DrawsFit(d, otps.settings.otpLength) && |d.slugCandidates| == Payments.SlugAttempts
    modifies sellers, otps, sessions, payments, transactions
    ensures sellers.Valid() && otps.Valid() && sessions.Valid() && payments.Valid() && transactions.Valid()
  {
    var seller := context.currentSeller;
    if IsAuthEndpoint(endpoint) {
      outcome := DispatchAuth(endpoint, body, context, sellers, otps, sessions, d);
    } else if IsPaymentEndpoint(endpoint) {
      outcome := DispatchPayment(endpoint, body, params, query, seller, payments, transactions, d, usdRateSet);
    } else {
      match endpoint {
        case GetProfile => outcome := ProfileRoutes.GetProfile(seller);
        case UpdateProfile => outcome := ProfileRoutes.UpdateProfile(sellers, seller, body, d.now);
        case DeleteProfile =>
          outcome := ProfileRoutes.DeleteProfile(sellers, payments, transactions, sessions, seller, context.token, d.now);
        case ChangePassword => outcome := ProfileRoutes.ChangePassword(sellers, seller, body, d.salt, d.now);
      }
    }
  }

  /** An incoming request: its method, pathname, parsed query and raw body. */
  datatype Request = Request(verb: string, pathname: string, query: map<string, string>, body: RawBody)

  /** The path parameters of the route `route` for `pathname`, as `handleRequest` fills them. */
  function ParamsFor(route: Route<Endpoint>, pathname: string): map<string, string>
    requires route.keys == ParamNames(route.pattern) && MatchPath(route.pattern, pathname).Some?
  {
    ParamsMap(route.keys, MatchPath(route.pattern, pathname).value)
  }

  /** The stores every handler works on, all well formed. */
  ghost predicate StoresValid(sellers: Sellers.SellerStore, otps: Otps.OtpStore, sessions: Sessions.SessionStore,
    payments: Payments.PaymentStore, transactions: Transactions.TransactionStore)
    reads sellers, otps, sessions, payments, transactions
  {
    sellers.Valid() && otps.Valid() && sessions.Valid() && payments.Valid() && transactions.Valid()
  }

  /**
   * The matched route's handler called with the request's body, the
   * parameters its pattern captures and the query, its outcome answered
   * through `Respond`.
   */
  method RunHandler(route: Route<Endpoint>, req: Request, body: Requests.Body, context: AuthContext.AuthContext,
    sellers: Sellers.SellerStore, otps: Otps.OtpStore, sessions: Sessions.SessionStore,
    payments: Payments.PaymentStore, transactions: Transactions.TransactionStore,
    d: Requests.Draws, usdRateSet: bool) returns (response: Response)
    requires Compiles(route) && MatchPath(route.pattern, req.pathname).Some?
    requires StoresValid(sellers, otps, sessions, payments, transactions)
    requires AuthRoutes.DrawsFit(d, otps.settings.otpLength) && |d.slugCandidates| == Payments.SlugAttempts
    modifies sellers, otps, sessions, payments, transactions
    ensures StoresValid(sellers, otps, sessions, payments, transactions)
  {
    var captures := MatchPath(route.pattern, req.pathname).value;
    var params := FillParams(route.keys, captures);
    var outcome := Dispatch(route.handler, body, params, req.query, context,
      sellers, otps, sessions, payments, transactions, d, usdRateSet);
    response := Respond(outcome);
  }

  /** How `handleRequest` ends as written: with a response sent, or with an error escaping it. */
  datatype Handled = Answered(response: Response) | Thrown(error: Http.HttpError)

  /**
   * `handleRequest(req, res, context)` as written: a request nobody serves
   * is answered 404 and a guarded route without a current seller 401, and
   * in neither does a handler run or a store change; a body that is not
   * JSON escapes as the error `readJsonBody` throws, again with no store
   * changed; otherwise the matched handler's outcome is answered through
   * `Respond`.
   */
  method HandleRequestAsWritten(routes: seq<Route<Endpoint>>, req: Request, context: AuthContext.AuthContext,
    sellers: Sellers.SellerStore, otps: Otps.OtpStore, sessions: Sessions.SessionStore,
    payments: Payments.PaymentStore, transactions: Transactions.TransactionStore,
    d: Requests.Draws, usdRateSet: bool) returns (h: Handled)
    requires WellFormed(routes)
    requires StoresValid(sellers, otps, sessions, payments, transactions)
    requires AuthRoutes.DrawsFit(d, otps.settings.otpLength) && |d.slugCandidates| == Payments.SlugAttempts
    modifies sellers, otps, sessions, payments, transactions
    ensures StoresValid(sellers, otps, sessions, payments, transactions)
    ensures var a := AdmitAsWritten(routes, req.verb, req.pathname, req.body, context.currentSeller.Some?);
      && (a.Finished? ==> h == Answered(a.response) && unchanged(sellers, otps, sessions, payments, transactions))
      && (a.Escaped? ==> h == Thrown(a.error) && unchanged(sellers, otps, sessions, payments, transactions))
      && (a.Invoke? ==> h.Answered?)
  {
    var a := AdmitAsWritten(routes, req.verb, req.pathname, req.body, context.currentSeller.Some?);
    match a
    case Finished(response) => return Answered(response);
    case Escaped(error) => return Thrown(error);
    case Invoke(route, body) =>
      WellFormedAt(routes, SelectRoute(routes, req.verb, req.pathname).value);
      var response := RunHandler(route, req, body, context, sellers, otps, sessions, payments, transactions, d, usdRateSet);
      return Answered(response);
  }

  /**
   * `appHandler(req, res)` once the CORS headers are set, the preflight
   * is past and the auth context is resolved: whatever escapes
   * `handleRequest` is answered 500. So, as written, a matched request
   * whose body is not JSON is answered 500 and changes nothing.
   */
  method AppHandler(routes: seq<Route<Endpoint>>, req: Request, context: AuthContext.AuthContext,
    sellers: Sellers.SellerStore, otps: Otps.OtpStore, sessions: Sessions.SessionStore,
    payments: Payments.PaymentStore, transactions: Transactions.TransactionStore,
    d: Requests.Draws, usdRateSet: bool) returns (response: Response)
    requires WellFormed(routes)
    requires StoresValid(sellers, otps, sessions, payments, transactions)
    requires AuthRoutes.DrawsFit(d, otps.settings.otpLength) && |d.slugCandidates| == Payments.SlugAttempts
    modifies sellers, otps, sessions, payments, transactions
    ensures StoresValid(sellers, otps, sessions, payments, transactions)
    ensures SelectRoute(routes, req.verb, req.pathname).Some? && RequestBody(req.verb, req.body).None? ==>
      response == InternalError && unchanged(sellers, otps, sessions, payments, transactions)
    ensures var a := AdmitAsWritten(routes, req.verb, req.pathname, req.body, context.currentSeller.Some?);
      a.Finished? ==> response == a.response && unchanged(sellers, otps, sessions, payments, transactions)
  {
    var h := HandleRequestAsWritten(routes, req, context, sellers, otps, sessions, payments, transactions, d, usdRateSet);
    response := if h.Thrown? then InternalError else h.response;
  }

  /**
   * The corrected `handleRequest`, with the invalid-body error answered
   * 400 through the same `catch` as every other `HttpError`: a request
   * nobody serves is answered 404, a bad body 400, a guarded route without
   * a current seller 401, and in none of these does a handler run or any
   * store change; otherwise the matched handler's outcome is answered
   * through `Respond`.
   */
  method HandleRequest(routes: seq<Route<Endpoint>>, req: Request, context: AuthContext.AuthContext,
    sellers: Sellers.SellerStore, otps: Otps.OtpStore, sessions: Sessions.SessionStore,
    payments: Payments.PaymentStore, transactions: Transactions.TransactionStore,
    d: Requests.Draws, usdRateSet: bool) returns (response: Response)
    requires WellFormed(routes)
    requires StoresValid(sellers, otps, sessions, payments, transactions)
    requires AuthRoutes.DrawsFit(d, otps.settings.otpLength) && |d.slugCandidates| == Payments.SlugAttempts
    modifies sellers, otps, sessions, payments, transactions
    ensures StoresValid(sellers, otps, sessions, payments, transactions)
    ensures var a := Admit(routes, req.verb, req.pathname, req.body, context.currentSeller.Some?);
      a.Finished? ==>
        && response == a.response
        && unchanged(sellers, otps, sessions, payments, transactions)
    ensures SelectRoute(routes, req.verb, req.pathname).Some? && RequestBody(req.verb, req.body).None? ==>
      response == Response(400, Responses.ErrorBody("Invalid JSON body"))
    ensures var found := SelectRoute(routes, req.verb, req.pathname);
      (found.Some? && routes[found.value].requireAuth && context.currentSeller.None? &&
       RequestBody(req.verb, req.body).Some?) ==>
        response == Unauthorized && unchanged(sellers, otps, sessions, payments, transactions)
  {
    var a := Admit(routes, req.verb, req.pathname, req.body, context.currentSeller.Some?);
    if a.Finished? {
      return a.response;
    }
    WellFormedAt(routes, SelectRoute(routes, req.verb, req.pathname).value);
    response := RunHandler(a.route, req, a.body, context, sellers, otps, sessions, payments, transactions, d, usdRateSet);
  }
}
