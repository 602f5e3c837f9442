/**
 * backend/src/services/paymentService.js: payment links. Slugs are
 * normalised and kept unique; rows are found, listed and deactivated.
 * Monetary amounts (the fee, the total and the USD conversion) are not part
 * of this model; only whether a price was given is.
 */
module Payments {
  import opened Wrappers
  import opened Strings
  import opened Slugs
  import Ids
  import Seqs

  const MaxSlugLength: nat := 64
  const SlugAttempts: nat := 5
  const DefaultSuccessMessage: string := "Thank you for your purchase!"

  /** A number as `Number(…)` produced it for a price argument: null, NaN, or a value. */
  datatype Amount = NoAmount | NotANumber | Amount(value: int)

  /** JavaScript truthiness of a price argument. */
  predicate AmountGiven(a: Amount) {
    a.Amount? && a.value != 0
  }

  /** What the image host returned for an uploaded image. */
  datatype UploadedImage = UploadedImage(url: string, publicId: string)

  /** A row of the `payments` collection; `id` is its position in the table. */
  datatype Payment = Payment(
    id: nat,
    sellerId: nat,
    name: string,
    image: Option<string>,
    imagePublicId: Option<string>,
    description: Option<string>,
    customSuccessMessage: string,
    redirectUrl: Option<string>,
    priceUsdGiven: bool,
    paymentLink: string,
    status: string,
    createdAt: int,
    updatedAt: int,
    blockchainCreateTx: Option<string>,
    blockchainDeactivateTx: Option<string>,
    deactivatedAt: Option<int>,
    deletedAt: Option<int>)

  /**
   * `normalizeSlug(value)`: trimmed, lower-cased, every character outside
   * [a-z0-9-] made a dash, dash runs collapsed, one dash stripped at each
   * end, then cut to 64 characters.
   */
  function NormalizeSlug(value: string): (slug: string)
    ensures AllSlugChars(slug) && NoDoubleDash(slug) && |slug| <= MaxSlugLength
    ensures slug == [] || slug[0] != '-'
  {
    var replaced := ReplaceInvalid(ToLower(Trim(value)));
    var stripped := StripEdgeDash(CollapseDashes(replaced));
    var slug := SlicePrefix(stripped, MaxSlugLength as int);
    PrefixKeepsShape(stripped, |slug|);
    slug
  }

  /** Slug characters are not whitespace and have no upper case. */
  lemma SlugCharsAreFixed(s: string)
    requires AllSlugChars(s)
    ensures Trim(s) == s && ToLower(s) == s
  {
    assert IsTrimmed(s);
    forall i | 0 <= i < |s| ensures LowerChar(s[i]) == s[i] {
    }
  }

  /** A slug that is already clean is only cut to length. */
  lemma NormalizeCleanSlug(s: string)
    requires AllSlugChars(s) && NoDoubleDash(s) && NoEdgeDash(s)
    ensures NormalizeSlug(s) == SlicePrefix(s, MaxSlugLength as int)
  {
    SlugCharsAreFixed(s);
    CollapseDashesIdentity(s);
  }

  /** Normalising again changes nothing, unless the cut left a trailing dash. */
  lemma NormalizeIdempotent(value: string)
    requires NoEdgeDash(NormalizeSlug(value))
    ensures NormalizeSlug(NormalizeSlug(value)) == NormalizeSlug(value)
  {
    NormalizeCleanSlug(NormalizeSlug(value));
  }

  /**
   * The dash stripping runs before the cut, so a trailing dash can come back:
   * 63 letters followed by "-b" normalise to the 63 letters and a dash.
   */
  lemma TrailingDashAfterCut()
    ensures var value := seq(63, _ => 'a') + "-b";
      var slug := NormalizeSlug(value);
      |slug| == 64 && slug[63] == '-'
  {
    var value := seq(63, _ => 'a') + "-b";
    assert AllSlugChars(value) by {
      forall i | 0 <= i < |value| ensures IsSlugChar(value[i]) {
        if i < 63 { assert value[i] == 'a'; }
      }
    }
    assert NoDoubleDash(value) by {
      forall i | 0 <= i < |value| - 1 ensures !(value[i] == '-' && value[i + 1] == '-') {
        if i < 62 { assert value[i] == 'a'; }
      }
    }
    NormalizeCleanSlug(value);
    assert value[63] == '-';
  }

  /** `findOne({ paymentLink: link })` finds a row: any row, deleted or inactive. */
  predicate LinkUsed(payments: seq<Payment>, link: string) {
    exists i :: 0 <= i < |payments| && payments[i].paymentLink == link
  }

  /** Every row sits at its id, and no two rows share a payment link. */
  ghost predicate WellFormed(payments: seq<Payment>) {
    && (forall i :: 0 <= i < |payments| ==> payments[i].id == i)
    && (forall i, j :: 0 <= i < j < |payments| ==> payments[i].paymentLink != payments[j].paymentLink)
  }

  /** Appending a row at the next id whose link is unused keeps the store well formed. */
  lemma AppendKeepsWellFormed(payments: seq<Payment>, row: Payment)
    requires WellFormed(payments) && row.id == |payments| && !LinkUsed(payments, row.paymentLink)
    ensures WellFormed(payments + [row])
  {
    var p := payments + [row];
    assert forall i :: 0 <= i < |payments| ==> p[i] == payments[i];
  }

  /** `findPaymentById(idText)`: the non-deleted row with that id; Failure when the text is not an id. */
  function FindPaymentById(payments: seq<Payment>, idText: string): (r: Result<Option<Payment>>)
    ensures Ids.ParseId(idText).None? <==> r == Failure("Invalid payment identifier")
    ensures r.Ok? && r.value.Some? ==>
      r.value.value in payments && Ids.ParseId(idText) == Some(r.value.value.id) && r.value.value.deletedAt.None?
    ensures r.Ok? && r.value.None? ==>
      forall i :: 0 <= i < |payments| ==> !(payments[i].id == Ids.ParseId(idText).value && payments[i].deletedAt.None?)
  {
    match Ids.ParseId(idText)
    case None => Failure("Invalid payment identifier")
    case Some(id) =>
      match Seqs.Find(payments, (p: Payment) => p.id == id && p.deletedAt.None?)
      case None => Ok(None)
      case Some(i) => Ok(Some(payments[i]))
  }

  /** `findPaymentBySlug(slug)`: the first active, non-deleted row with that link. */
  function FindPaymentBySlug(payments: seq<Payment>, slug: string): (r: Option<Payment>)
    ensures r.Some? ==>
      r.value in payments && r.value.paymentLink == slug && r.value.status == "active" && r.value.deletedAt.None?
    ensures r.None? <==> forall i :: 0 <= i < |payments| ==>
      !(payments[i].paymentLink == slug && payments[i].deletedAt.None? && payments[i].status == "active")
  {
    match Seqs.Find(payments, (p: Payment) => p.paymentLink == slug && p.deletedAt.None? && p.status == "active")
    case None => None
    case Some(i) => Some(payments[i])
  }

  /** The `createdAt` the listings sort on. */
  function CreatedAt(p: Payment): int {
    p.createdAt
  }

  /**
   * `listPaymentsForSeller(sellerId, { limit, offset })`: the seller's
   * non-deleted rows, newest first, from `offset`, at most |limit| of them
   * (all when limit is 0). A negative offset makes the query fail.
   */
  function ListPaymentsForSeller(payments: seq<Payment>, sellerId: nat, limit: int, offset: int)
    : (r: Result<seq<Payment>>)
    ensures offset < 0 <==> r.Failure?
    ensures r.Ok? ==> forall i :: 0 <= i < |r.value| ==>
      r.value[i] in payments && r.value[i].sellerId == sellerId && r.value[i].deletedAt.None?
    ensures r.Ok? ==> forall i, j :: 0 <= i < j < |r.value| ==> r.value[i].createdAt >= r.value[j].createdAt
    ensures r.Ok? && limit != 0 ==> |r.value| <= if limit < 0 then -limit else limit
    ensures r.Ok? ==> exists ordered ::
      && Seqs.SortedDesc(ordered, CreatedAt)
      && multiset(ordered) == multiset(Seqs.Filter(payments, (p: Payment) => p.sellerId == sellerId && p.deletedAt.None?))
      && r.value == Seqs.Page(ordered, offset as nat, limit)
  {
    if offset < 0 then Failure("skip requires a non-negative number")
    else
      var key := CreatedAt;
      var rows := Seqs.Query(payments, (p: Payment) => p.sellerId == sellerId && p.deletedAt.None?, key, offset, limit);
      assert Seqs.SortedDesc(rows, key);
      Ok(rows)
  }

  /** The first candidate no row already uses. */
  function FirstUnused(payments: seq<Payment>, candidates: seq<string>): (k: Option<nat>)
    ensures k.Some? ==>
      k.value < |candidates| && !LinkUsed(payments, candidates[k.value])
      && forall j :: 0 <= j < k.value ==> LinkUsed(payments, candidates[j])
    ensures k.None? <==> forall j :: 0 <= j < |candidates| ==> LinkUsed(payments, candidates[j])
  {
    Seqs.Find(candidates, (c: string) => !LinkUsed(payments, c))
  }

  /**
   * The link `resolvePaymentSlug` settles on: a provided slug normalised,
   * refused when it normalises to nothing or is taken; otherwise the first
   * candidate no row uses, refused when all are taken.
   */
  function SlugResolution(payments: seq<Payment>, provided: Option<string>, candidates: seq<string>): (r: Result<string>)
    ensures r.Ok? ==> !LinkUsed(payments, r.value)
    ensures r.Ok? <==>
      if TextGiven(provided) then NormalizeSlug(provided.value) != "" && !LinkUsed(payments, NormalizeSlug(provided.value))
      else exists j :: 0 <= j < |candidates| && !LinkUsed(payments, candidates[j])
    ensures r.Ok? ==> if TextGiven(provided) then r.value == NormalizeSlug(provided.value) else r.value in candidates
  {
    if TextGiven(provided) then
      var normalized := NormalizeSlug(provided.value);
      if normalized == "" then Failure("Invalid payment link slug")
      else if LinkUsed(payments, normalized) then Failure("Payment link slug already in use")
      else Ok(normalized)
    else match FirstUnused(payments, candidates)
      case None => Failure("Unable to generate unique payment link")
      case Some(k) => Ok(candidates[k])
  }

  /** The price check `createPayment` makes before anything else: a FLOW price, or a USD price and a rate. */
  predicate PriceResolvable(priceFlow: Amount, priceUsd: Amount, usdRateSet: bool) {
    AmountGiven(priceFlow) || (AmountGiven(priceUsd) && usdRateSet)
  }

  /** What `serializePayment` exposes: neither the owner nor the deletion mark. */
  datatype PaymentView = PaymentView(
    id: string,
    name: string,
    image: Option<string>,
    description: Option<string>,
    customSuccessMessage: string,
    redirectUrl: Option<string>,
    paymentLink: string,
    status: string,
    createdAt: int,
    updatedAt: int,
    blockchainCreateTx: Option<string>,
    blockchainDeactivateTx: Option<string>,
    imagePublicId: Option<string>)

  /** `serializePayment(payment)`. */
  function SerializePayment(p: Payment): (v: PaymentView)
    ensures v.id == Ids.IdText(p.id) && v.paymentLink == p.paymentLink && v.status == p.status
    ensures v.name == p.name && v.image == p.image && v.description == p.description
    ensures v.customSuccessMessage == p.customSuccessMessage && v.redirectUrl == p.redirectUrl
    ensures v.createdAt == p.createdAt && v.updatedAt == p.updatedAt && v.imagePublicId == p.imagePublicId
    ensures v.blockchainCreateTx == p.blockchainCreateTx && v.blockchainDeactivateTx == p.blockchainDeactivateTx
  {
    PaymentView(Ids.IdText(p.id), p.name, p.image, p.description, p.customSuccessMessage, p.redirectUrl,
      p.paymentLink, p.status, p.createdAt, p.updatedAt, p.blockchainCreateTx, p.blockchainDeactivateTx,
      p.imagePublicId)
  }

  /** The public view does not depend on who owns the payment or whether it is deleted. */
  lemma SerializeHidesOwner(p: Payment, owner: nat, deletedAt: Option<int>)
    ensures SerializePayment(p.(sellerId := owner, deletedAt := deletedAt)) == SerializePayment(p)
  {
  }

  /**
   * The row `createPayment` inserts at position `id`: the uploaded image,
   * when the host returned one, wins over the given image URL; missing text
   * fields become null or the default success message.
   */
  function NewPaymentRow(id: nat, sellerId: nat, name: string, image: Option<string>, description: Option<string>,
    priceUsd: Amount, customSuccessMessage: Option<string>, redirectUrl: Option<string>, upload: Option<UploadedImage>,
    link: string, now: int): Payment
  {
    Payment(id, sellerId, name,
      if upload.Some? && upload.value.url != "" then Some(upload.value.url) else OrNull(image),
      if upload.Some? && upload.value.publicId != "" then Some(upload.value.publicId) else None,
      OrNull(description),
      if TextGiven(customSuccessMessage) then customSuccessMessage.value else DefaultSuccessMessage,
      OrNull(redirectUrl), AmountGiven(priceUsd), link, "active", now, now,
      None, None, None, None)
  }

  /** The `payments` collection. */
  class PaymentStore {
    var payments: seq<Payment>

    ghost predicate Valid()
      reads this
    {
      WellFormed(payments)
    }

    constructor ()
      ensures Valid() && payments == []
    {
      payments := [];
    }

    /**
     * `resolvePaymentSlug(db, providedSlug)`: `candidates` are the five
     * random 16-character slugs the source would draw.
     */
    method ResolvePaymentSlug(provided: Option<string>, candidates: seq<string>) returns (r: Result<string>)
      requires |candidates| == SlugAttempts
      ensures TextGiven(provided) && NormalizeSlug(provided.value) == "" ==> r == Failure("Invalid payment link slug")
      ensures TextGiven(provided) && NormalizeSlug(provided.value) != "" ==>
        if LinkUsed(payments, NormalizeSlug(provided.value)) then r == Failure("Payment link slug already in use")
        else r == Ok(NormalizeSlug(provided.value))
      ensures !TextGiven(provided) ==> match FirstUnused(payments, candidates)
        case None => r == Failure("Unable to generate unique payment link")
        case Some(k) => r == Ok(candidates[k])
      ensures r.Ok? ==> !LinkUsed(payments, r.value)
      ensures r == SlugResolution(payments, provided, candidates)
    {
      if TextGiven(provided) {
        var normalized := NormalizeSlug(provided.value);
        if normalized == "" {
          return Failure("Invalid payment link slug");
        }
        if LinkUsed(payments, normalized) {
          return Failure("Payment link slug already in use");
        }
        return Ok(normalized);
      }
      var attempt := 0;
      while attempt < SlugAttempts
        invariant 0 <= attempt <= SlugAttempts
        invariant forall j :: 0 <= j < attempt ==> LinkUsed(payments, candidates[j])
      {
        var candidate := candidates[attempt];
        if !LinkUsed(payments, candidate) {
          return Ok(candidate);
        }
        attempt := attempt + 1;
      }
      return Failure("Unable to generate unique payment link");
    }

    /**
     * `createPayment(…)` at `now`. `usdRateSet` says whether FLOW_USD_RATE
     * is configured and `upload` is the image host's answer when an image was
     * sent. On success exactly one row is appended, with a link no other row
     * uses.
     */
    method CreatePayment(sellerId: nat, name: string, image: Option<string>, description: Option<string>,
      priceFlow: Amount, priceUsd: Amount, usdRateSet: bool, customSuccessMessage: Option<string>,
      redirectUrl: Option<string>, upload: Option<UploadedImage>, slug: Option<string>, candidates: seq<string>,
      now: int)
      returns (r: Result<Payment>)
      requires Valid() && |candidates| == SlugAttempts
      modifies this
      ensures Valid()
      ensures !AmountGiven(priceFlow) && !AmountGiven(priceUsd) ==>
        r == Failure("Either priceFlow or priceUSD must be provided")
      ensures !AmountGiven(priceFlow) && AmountGiven(priceUsd) && !usdRateSet ==>
        r == Failure("Flow/USD rate not configured. Set FLOW_USD_RATE env or provide priceFlow.")
      ensures r.Failure? ==> payments == old(payments)
      ensures var link := SlugResolution(old(payments), slug, candidates);
        PriceResolvable(priceFlow, priceUsd, usdRateSet) ==>
          && (link.Failure? ==> r == Failure(link.error))
          && (link.Ok? ==> r.Ok? && r.value.paymentLink == link.value)
      ensures r.Ok? ==>
        && PriceResolvable(priceFlow, priceUsd, usdRateSet)
        && payments == old(payments) + [r.value]
        && !LinkUsed(old(payments), r.value.paymentLink)
        && r.value == NewPaymentRow(|old(payments)|, sellerId, name, image, description, priceUsd,
             customSuccessMessage, redirectUrl, upload, r.value.paymentLink, now)
    {
      if !AmountGiven(priceFlow) && !AmountGiven(priceUsd) {
        return Failure("Either priceFlow or priceUSD must be provided");
      }
      if !AmountGiven(priceFlow) && !usdRateSet {
        return Failure("Flow/USD rate not configured. Set FLOW_USD_RATE env or provide priceFlow.");
      }
      var link := ResolvePaymentSlug(slug, candidates);
      if link.Failure? {
        return Failure(link.error);
      }
      var row := NewPaymentRow(|payments|, sellerId, name, image, description, priceUsd,
        customSuccessMessage, redirectUrl, upload, link.value, now);
      AppendKeepsWellFormed(payments, row);
      payments := payments + [row];
      r := Ok(row);
    }

    /** `setPaymentBlockchainTx(id, txId)`: records the creation transaction, whatever the row's state. */
    method SetPaymentBlockchainTx(id: nat, txId: string, now: int)
      requires Valid()
      modifies this
      ensures Valid()
      ensures id < |old(payments)| ==>
        payments == old(payments)[id := old(payments)[id].(blockchainCreateTx := Some(txId), updatedAt := now)]
      ensures id >= |old(payments)| ==> payments == old(payments)
    {
      if id < |payments| {
        payments := payments[id := payments[id].(blockchainCreateTx := Some(txId), updatedAt := now)];
      }
    }

    /**
     * `deactivatePaymentRecord(idText, txId)`: marks the row inactive and
     * records the transaction (or null). It filters on the id alone.
     */
    method DeactivatePaymentRecord(idText: string, txId: Option<string>, now: int) returns (r: Result<Option<Payment>>)
      requires Valid()
      modifies this
      ensures Valid()
      ensures Ids.ParseId(idText).None? ==> r == Failure("Invalid payment identifier") && payments == old(payments)
      ensures Ids.ParseId(idText).Some? && Ids.ParseId(idText).value >= |old(payments)| ==>
        r == Ok(None) && payments == old(payments)
      ensures Ids.ParseId(idText).Some? && Ids.ParseId(idText).value < |old(payments)| ==>
        var id := Ids.ParseId(idText).value;
        var updated := old(payments)[id].(status := "inactive", blockchainDeactivateTx := OrNull(txId),
          deactivatedAt := Some(now), updatedAt := now);
        payments == old(payments)[id := updated] && r == Ok(Some(updated))
    {
      var id := Ids.ParseId(idText);
      if id.None? {
        return Failure("Invalid payment identifier");
      }
      if id.value >= |payments| {
        return Ok(None);
      }
      var updated := payments[id.value].(status := "inactive", blockchainDeactivateTx := OrNull(txId),
        deactivatedAt := Some(now), updatedAt := now);
      payments := payments[id.value := updated];
      r := Ok(Some(updated));
    }
  }

  /** Deactivation takes a payment off its public link. */
  lemma DeactivatedNotPublic(payments: seq<Payment>, id: nat, txId: Option<string>, now: int, slug: string)
    requires id < |payments|
    ensures var p := payments[id := payments[id].(status := "inactive", blockchainDeactivateTx := OrNull(txId),
        deactivatedAt := Some(now), updatedAt := now)];
      FindPaymentBySlug(p, slug).Some? ==> FindPaymentBySlug(p, slug).value != p[id]
  {
  }
}
