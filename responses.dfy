/** What a route handler answers: a status and a JSON payload, or a thrown error. */
module Responses {
  import Http
  import Sellers
  import Payments
  import Transactions

  /** The token quadruple the auth routes send. */
  datatype Tokens = Tokens(accessToken: string, accessExpiresAt: int, refreshToken: string, refreshExpiresAt: int)

  /** The JSON payloads sent with `sendJson`. */
  datatype Payload =
    | ErrorBody(error: string)
    | MessageBody(message: string)
    | OtpSent(message: string, otpExpiresAt: int)
    | SellerSession(message: string, seller: Sellers.SellerView, tokens: Tokens)
    | TokensBody(message: string, tokens: Tokens)
    | ProfileBody(profile: Sellers.SellerView)
    | PaymentBody(payment: Payments.PaymentView)
    | PaymentList(items: seq<Payments.PaymentView>, limit: int, offset: int, count: nat)
    | TransactionBody(transaction: Transactions.Transaction)

  /** An error a handler throws: an `HttpError`, or any other error. */
  datatype Thrown = Raised(error: Http.HttpError) | Crashed(message: string)

  /** How a handler ends. */
  datatype Outcome = Reply(status: int, payload: Payload) | Throw(thrown: Thrown)

  /** `throw new HttpError(status, message)`. */
  function Fail(status: int, message: string): Outcome {
    Throw(Raised(Http.HttpError(status, message)))
  }
}
