/**
 * The payment endpoints of backend/src/routes/paymentRoutes.js. The
 * signed-in ones answer 404 for a payment that is missing or belongs to
 * another seller; the public ones look payments up by id or by link.
 */
module PaymentRoutes {
  import opened Wrappers
  import opened Strings
  import opened Requests
  import opened Responses
  import Ids
  import Sellers
  import Payments
  import Transactions

  const DefaultLimit: int := 20
  const DefaultOffset: int := 0

  /** `params[name]`; a missing parameter reads as text that is no identifier. */
  function Param(params: map<string, string>, name: string): string {
    if name in params then params[name] else ""
  }

  /** `Number(…)` as a price argument. */
  function AmountOf(n: Option<int>): (a: Payments.Amount)
    ensures n.None? <==> a.NotANumber?
  {
    match n
    case None => Payments.NotANumber
    case Some(v) => Payments.Amount(v)
  }

  /** `body.priceFlow !== undefined ? Number(body.priceFlow) : null`. */
  function PriceFlowArg(body: Body): Payments.Amount {
    if Field(body, "priceFlow").Undefined? then Payments.NoAmount else AmountOf(JsNumberOf(Field(body, "priceFlow")))
  }

  /** `body.priceUSD ? Number(body.priceUSD) : null`. */
  function PriceUsdArg(body: Body): Payments.Amount {
    if Truthy(Field(body, "priceUSD")) then AmountOf(JsNumberOf(Field(body, "priceUSD"))) else Payments.NoAmount
  }

  /** The image host's answer, asked only when `imageBase64` is truthy. */
  function UploadArg(body: Body, d: Draws): Option<Payments.UploadedImage> {
    if Truthy(Field(body, "imageBase64")) then d.upload else None
  }

  /**
   * POST /payments. Without a name 400; with neither price field present
   * 400; then `createPayment`, whose own errors answer 500. A truthy
   * `blockchainTxId` is recorded on the row and echoed in the reply.
   */
  method CreatePayment(payments: Payments.PaymentStore, seller: Option<Sellers.Seller>, body: Body, d: Draws,
    usdRateSet: bool) returns (out: Outcome)
    requires payments.Valid() && |d.slugCandidates| == Payments.SlugAttempts
    modifies payments
    ensures payments.Valid()
    ensures seller.None? ==> out == Fail(401, "Unauthorized")
    ensures seller.Some? && !Truthy(Field(body, "name")) ==> out == Fail(400, "name is required")
    ensures (seller.Some? && Truthy(Field(body, "name"))
      && Field(body, "priceFlow").Undefined? && Field(body, "priceUSD").Undefined?) ==>
      out == Fail(400, "Either priceFlow or priceUSD must be provided")
    ensures seller.Some? && Truthy(Field(body, "name")) && Field(body, "priceFlow") == Num(0) && !Truthy(Field(body, "priceUSD")) ==>
      out.Throw? && out.thrown.Crashed?
    ensures !out.Reply? ==> payments.payments == old(payments.payments)
    ensures out.Reply? ==>
      && seller.Some? && Truthy(Field(body, "name"))
      && Payments.PriceResolvable(PriceFlowArg(body), PriceUsdArg(body), usdRateSet)
      && |payments.payments| == |old(payments.payments)| + 1
      && var row := payments.payments[|old(payments.payments)|];
         && payments.payments[..|old(payments.payments)|] == old(payments.payments)
         && row.sellerId == seller.value.id && row.name == JsString(Field(body, "name")) && row.status == "active"
         && !Payments.LinkUsed(old(payments.payments), row.paymentLink)
         && row.blockchainCreateTx == TextIfTruthy(Field(body, "blockchainTxId"))
         && row == Payments.NewPaymentRow(|old(payments.payments)|, seller.value.id, JsString(Field(body, "name")),
              TextIfTruthy(Field(body, "image")), TextIfTruthy(Field(body, "description")), PriceUsdArg(body),
              TextIfTruthy(Field(body, "customSuccessMessage")), TextIfTruthy(Field(body, "redirectUrl")),
              UploadArg(body, d), row.paymentLink, d.now).(blockchainCreateTx := TextIfTruthy(Field(body, "blockchainTxId")))
         && out == Reply(201, PaymentBody(Payments.SerializePayment(row.(updatedAt := d.now))))
    ensures var link := Payments.SlugResolution(old(payments.payments), TextIfTruthy(Field(body, "slug")), d.slugCandidates);
      (seller.Some? && Truthy(Field(body, "name"))
       && !(Field(body, "priceFlow").Undefined? && Field(body, "priceUSD").Undefined?)
       && Payments.PriceResolvable(PriceFlowArg(body), PriceUsdArg(body), usdRateSet)) ==>
        && (link.Failure? ==> out == Throw(Crashed(link.error)))
        && (link.Ok? ==> out.Reply? && payments.payments[|old(payments.payments)|].paymentLink == link.value)
  {
    if seller.None? {
      return Fail(401, "Unauthorized");
    }
    if !Truthy(Field(body, "name")) {
      return Fail(400, "name is required");
    }
    if Field(body, "priceFlow").Undefined? && Field(body, "priceUSD").Undefined? {
      return Fail(400, "Either priceFlow or priceUSD must be provided");
    }
    var created := payments.CreatePayment(seller.value.id, JsString(Field(body, "name")),
      TextIfTruthy(Field(body, "image")), TextIfTruthy(Field(body, "description")),
      PriceFlowArg(body), PriceUsdArg(body), usdRateSet,
      TextIfTruthy(Field(body, "customSuccessMessage")), TextIfTruthy(Field(body, "redirectUrl")),
      UploadArg(body, d), TextIfTruthy(Field(body, "slug")), d.slugCandidates, d.now);
    if created.Failure? {
      return Throw(Crashed(created.error));
    }
    var payment := created.value;
    var txId := TextIfTruthy(Field(body, "blockchainTxId"));
    if txId.Some? {
      payments.SetPaymentBlockchainTx(payment.id, txId.value, d.now);
      payment := payment.(blockchainCreateTx := txId);
    }
    out := Reply(201, PaymentBody(Payments.SerializePayment(payment)));
  }

  /** `query[name] ? Number(query[name]) : fallback`; None stands for NaN. */
  function QueryNumber(query: map<string, string>, name: string, fallback: int): (r: Option<int>)
    ensures (name !in query || query[name] == "") ==> r == Some(fallback)
  {
    if name in query && query[name] != "" then JsNumber(query[name]) else Some(fallback)
  }

  function Views(rows: seq<Payments.Payment>): (views: seq<Payments.PaymentView>)
    ensures |views| == |rows|
    ensures forall i :: 0 <= i < |rows| ==> views[i] == Payments.SerializePayment(rows[i])
  {
    seq(|rows|, i requires 0 <= i < |rows| => Payments.SerializePayment(rows[i]))
  }

  /**
   * GET /payments: the seller's listing page. The limit defaults to 20 and
   * the offset to 0, both are echoed, and the count is the number of items
   * sent. A limit or offset that is not a number makes the query fail.
   */
  function ListPayments(payments: seq<Payments.Payment>, seller: Option<Sellers.Seller>, query: map<string, string>)
    : (out: Outcome)
    ensures seller.None? ==> out == Fail(401, "Unauthorized")
    ensures out.Reply? ==>
      && seller.Some? && out.status == 200 && out.payload.PaymentList?
      && Some(out.payload.limit) == QueryNumber(query, "limit", DefaultLimit)
      && Some(out.payload.offset) == QueryNumber(query, "offset", DefaultOffset)
      && out.payload.count == |out.payload.items|
      && Payments.ListPaymentsForSeller(payments, seller.value.id, out.payload.limit, out.payload.offset).Ok?
      && out.payload.items
           == Views(Payments.ListPaymentsForSeller(payments, seller.value.id, out.payload.limit, out.payload.offset).value)
    ensures (seller.Some? && QueryNumber(query, "limit", DefaultLimit).Some? && QueryNumber(query, "offset", DefaultOffset).Some?
      && QueryNumber(query, "offset", DefaultOffset).value >= 0) ==> out.Reply?
  {
    match seller
    case None => Fail(401, "Unauthorized")
    case Some(s) =>
      match (QueryNumber(query, "limit", DefaultLimit), QueryNumber(query, "offset", DefaultOffset))
      case (Some(limit), Some(offset)) =>
        (match Payments.ListPaymentsForSeller(payments, s.id, limit, offset)
         case Ok(rows) => Reply(200, PaymentList(Views(rows), limit, offset, |rows|))
         case Failure(e) => Throw(Crashed(e)))
      case _ => Throw(Crashed("limit and offset must be numbers"))
  }

  /** With no query the first 20 of the seller's payments are listed from offset 0. */
  lemma ListDefaults(payments: seq<Payments.Payment>, seller: Sellers.Seller)
    ensures var out := ListPayments(payments, Some(seller), map[]);
      out.Reply? && out.payload.limit == 20 && out.payload.offset == 0 && |out.payload.items| <= 20
  {
  }

  /** The payment a signed-in seller may act on: found by id, not deleted, and the seller's own. */
  predicate Owns(found: Result<Option<Payments.Payment>>, seller: Sellers.Seller) {
    found.Ok? && found.value.Some? && found.value.value.sellerId == seller.id
  }

  /** GET /payments/:id. */
  function GetPayment(payments: seq<Payments.Payment>, seller: Option<Sellers.Seller>, params: map<string, string>)
    : (out: Outcome)
    ensures seller.None? ==> out == Fail(401, "Unauthorized")
    ensures seller.Some? ==>
      var found := Payments.FindPaymentById(payments, Param(params, "id"));
      && (found.Failure? ==> out.Throw? && out.thrown.Crashed?)
      && (found.Ok? ==> (out == Fail(404, "Payment not found") <==> !Owns(found, seller.value)))
      && (Owns(found, seller.value) ==> out == Reply(200, PaymentBody(Payments.SerializePayment(found.value.value))))
    ensures out.Reply? ==>
      exists p :: p in payments && p.sellerId == seller.value.id && p.deletedAt.None? && out.payload == PaymentBody(Payments.SerializePayment(p))
  {
    match seller
    case None => Fail(401, "Unauthorized")
    case Some(s) =>
      match Payments.FindPaymentById(payments, Param(params, "id"))
      case Failure(e) => Throw(Crashed(e))
      case Ok(found) =>
        if found.None? || found.value.sellerId != s.id then Fail(404, "Payment not found")
        else Reply(200, PaymentBody(Payments.SerializePayment(found.value)))
  }

  /** DELETE /payments/:id: deactivates the seller's own payment, recording `txId` when truthy. */
  method DeletePayment(payments: Payments.PaymentStore, seller: Option<Sellers.Seller>, params: map<string, string>,
    body: Body, now: int) returns (out: Outcome)
    requires payments.Valid()
    modifies payments
    ensures payments.Valid()
    ensures seller.None? ==> out == Fail(401, "Unauthorized")
    ensures (seller.Some? && Payments.FindPaymentById(old(payments.payments), Param(params, "id")).Ok?
      && !Owns(Payments.FindPaymentById(old(payments.payments), Param(params, "id")), seller.value)) ==>
      out == Fail(404, "Payment not found")
    ensures !out.Reply? ==> payments.payments == old(payments.payments)
    ensures out.Reply? ==>
      && seller.Some? && Owns(Payments.FindPaymentById(old(payments.payments), Param(params, "id")), seller.value)
      && var p := Payments.FindPaymentById(old(payments.payments), Param(params, "id")).value.value;
      var updated := p.(status := "inactive", blockchainDeactivateTx := TextIfTruthy(Field(body, "txId")),
        deactivatedAt := Some(now), updatedAt := now);
      && p.id < |old(payments.payments)|
      && payments.payments == old(payments.payments)[p.id := updated]
      && out == Reply(200, PaymentBody(Payments.SerializePayment(updated)))
    ensures seller.Some? && Owns(Payments.FindPaymentById(old(payments.payments), Param(params, "id")), seller.value) ==>
      out.Reply?
  {
    if seller.None? {
      return Fail(401, "Unauthorized");
    }
    var idText := Param(params, "id");
    var found := Payments.FindPaymentById(payments.payments, idText);
    if found.Failure? {
      return Throw(Crashed(found.error));
    }
    if found.value.None? || found.value.value.sellerId != seller.value.id {
      return Fail(404, "Payment not found");
    }
    ghost var k :| 0 <= k < |payments.payments| && payments.payments[k] == found.value.value;
    var updated := payments.DeactivatePaymentRecord(idText, TextIfTruthy(Field(body, "txId")), now);
    if updated.Failure? || updated.value.None? {
      return Throw(Crashed("Cannot read properties of null"));
    }
    out := Reply(200, PaymentBody(Payments.SerializePayment(updated.value.value)));
  }

  /**
   * POST /payments/:id/transactions: after the ownership check, both
   * `txId` and `kind` are required, and the record is filed under the
   * signed-in seller.
   */
  method RecordSellerTransaction(payments: seq<Payments.Payment>, transactions: Transactions.TransactionStore,
    seller: Option<Sellers.Seller>, params: map<string, string>, body: Body, now: int) returns (out: Outcome)
    requires transactions.Valid()
    modifies transactions
    ensures transactions.Valid()
    ensures seller.None? ==> out == Fail(401, "Unauthorized")
    ensures (seller.Some? && Payments.FindPaymentById(payments, Param(params, "id")).Ok?
      && !Owns(Payments.FindPaymentById(payments, Param(params, "id")), seller.value)) ==>
      out == Fail(404, "Payment not found")
    ensures (seller.Some? && Owns(Payments.FindPaymentById(payments, Param(params, "id")), seller.value)
      && (!Truthy(Field(body, "txId")) || !Truthy(Field(body, "kind")))) ==>
      out == Fail(400, "txId and kind are required")
    ensures !out.Reply? ==> transactions.transactions == old(transactions.transactions)
    ensures out.Reply? ==>
      && seller.Some? && Owns(Payments.FindPaymentById(payments, Param(params, "id")), seller.value)
      && var p := Payments.FindPaymentById(payments, Param(params, "id")).value.value;
      var record := Transactions.Transaction(|old(transactions.transactions)|, seller.value.id, p.id,
        JsString(Field(body, "txId")), JsString(Field(body, "kind")), TextIfTruthy(Field(body, "payerAddress")),
        None, None, now, None);
      && Truthy(Field(body, "txId")) && Truthy(Field(body, "kind"))
      && transactions.transactions == old(transactions.transactions) + [record]
      && out == Reply(201, TransactionBody(record))
  {
    if seller.None? {
      return Fail(401, "Unauthorized");
    }
    var found := Payments.FindPaymentById(payments, Param(params, "id"));
    if found.Failure? {
      return Throw(Crashed(found.error));
    }
    if found.value.None? || found.value.value.sellerId != seller.value.id {
      return Fail(404, "Payment not found");
    }
    if !Truthy(Field(body, "txId")) || !Truthy(Field(body, "kind")) {
      return Fail(400, "txId and kind are required");
    }
    var record := transactions.RecordTransaction(seller.value.id, found.value.value.id, JsString(Field(body, "txId")),
      JsString(Field(body, "kind")), TextIfTruthy(Field(body, "payerAddress")), None, None, now);
    out := Reply(201, TransactionBody(record));
  }

  /**
   * POST /public/payments/:id/transactions: no sign-in; the fields are
   * checked first, and the record is filed under the payment's own seller.
   */
  method RecordPublicTransaction(payments: seq<Payments.Payment>, transactions: Transactions.TransactionStore,
    params: map<string, string>, body: Body, now: int) returns (out: Outcome)
    requires transactions.Valid()
    modifies transactions
    ensures transactions.Valid()
    ensures !Truthy(Field(body, "txId")) || !Truthy(Field(body, "kind")) ==> out == Fail(400, "txId and kind are required")
    ensures (Truthy(Field(body, "txId")) && Truthy(Field(body, "kind"))
      && Payments.FindPaymentById(payments, Param(params, "id")) == Ok(None)) ==>
      out == Fail(404, "Payment not found")
    ensures !out.Reply? ==> transactions.transactions == old(transactions.transactions)
    ensures out.Reply? ==>
      && Payments.FindPaymentById(payments, Param(params, "id")).Ok?
      && Payments.FindPaymentById(payments, Param(params, "id")).value.Some?
      && var p := Payments.FindPaymentById(payments, Param(params, "id")).value.value;
      var record := Transactions.Transaction(|old(transactions.transactions)|, p.sellerId, p.id,
        JsString(Field(body, "txId")), JsString(Field(body, "kind")), TextIfTruthy(Field(body, "payerAddress")),
        None, None, now, None);
      && transactions.transactions == old(transactions.transactions) + [record]
      && out == Reply(201, TransactionBody(record))
  {
    if !Truthy(Field(body, "txId")) || !Truthy(Field(body, "kind")) {
      return Fail(400, "txId and kind are required");
    }
    var found := Payments.FindPaymentById(payments, Param(params, "id"));
    if found.Failure? {
      return Throw(Crashed(found.error));
    }
    if found.value.None? {
      return Fail(404, "Payment not found");
    }
    var p := found.value.value;
    var record := transactions.RecordTransaction(p.sellerId, p.id, JsString(Field(body, "txId")),
      JsString(Field(body, "kind")), TextIfTruthy(Field(body, "payerAddress")), None, None, now);
    out := Reply(201, TransactionBody(record));
  }

  /** GET /public/payments/:slug: only an active, non-deleted payment is shown. */
  function GetPublicPayment(payments: seq<Payments.Payment>, params: map<string, string>): (out: Outcome)
    ensures out.Reply? <==> Payments.FindPaymentBySlug(payments, Param(params, "slug")).Some?
    ensures !out.Reply? ==> out == Fail(404, "Payment not found")
    ensures out.Reply? ==>
      exists p :: p in payments && p.paymentLink == Param(params, "slug") && p.status == "active"
        && p.deletedAt.None? && out == Reply(200, PaymentBody(Payments.SerializePayment(p)))
  {
    match Payments.FindPaymentBySlug(payments, Param(params, "slug"))
    case None => Fail(404, "Payment not found")
    case Some(p) => Reply(200, PaymentBody(Payments.SerializePayment(p)))
  }
}
