/**
 * backend/src/services/sellerService.js: seller accounts with soft
 * deletion, and the cascade that retires a seller's payments, transactions
 * and sessions. The password key derivation is a parameter of the store.
 */
module Sellers {
  import opened Wrappers
  import opened Strings
  import Crypto
  import Ids
  import Sessions
  import Payments
  import Transactions

  /** A row of the `sellers` collection; `id` is its position in the table. */
  datatype Seller = Seller(
    id: nat,
    email: string,
    passwordHash: string,
    businessName: string,
    country: string,
    address: Option<string>,
    joinedAt: int,
    verifiedAt: Option<int>,
    deletedAt: Option<int>,
    updatedAt: Option<int>)

  /** `findSellerByEmail(email)`: the first non-deleted row whose address is the lower-cased input. */
  function FindSellerByEmail(sellers: seq<Seller>, email: string): (r: Option<Seller>)
    ensures r.Some? ==> r.value in sellers && r.value.email == ToLower(email) && r.value.deletedAt.None?
    ensures r.None? <==> forall i :: 0 <= i < |sellers| ==>
      !(sellers[i].email == ToLower(email) && sellers[i].deletedAt.None?)
  {
    FindLive(sellers, (s: Seller) => s.email == ToLower(email))
  }

  /** `findOne({ _id: id, deletedAt: null })` on the sellers. */
  function FindLiveSellerById(sellers: seq<Seller>, id: nat): (r: Option<Seller>)
    ensures r.Some? ==> r.value in sellers && r.value.id == id && r.value.deletedAt.None?
    ensures r.None? <==> forall i :: 0 <= i < |sellers| ==> !(sellers[i].id == id && sellers[i].deletedAt.None?)
  {
    FindLive(sellers, (s: Seller) => s.id == id)
  }

  /** The first non-deleted row satisfying `p`. */
  function FindLive(sellers: seq<Seller>, p: Seller -> bool): (r: Option<Seller>)
    ensures r.Some? ==> r.value in sellers && p(r.value) && r.value.deletedAt.None?
    ensures r.None? <==> forall i :: 0 <= i < |sellers| ==> !(p(sellers[i]) && sellers[i].deletedAt.None?)
    decreases |sellers|
  {
    if sellers == [] then None
    else if p(sellers[0]) && sellers[0].deletedAt.None? then Some(sellers[0])
    else
      var r := FindLive(sellers[1..], p);
      assert forall i :: 1 <= i < |sellers| ==> sellers[i] == sellers[1..][i - 1];
      r
  }

  /** What `serializeSeller` exposes. */
  datatype SellerView = SellerView(
    id: string,
    email: string,
    businessName: string,
    country: string,
    address: Option<string>,
    joinedAt: int,
    verifiedAt: Option<int>)

  /** `serializeSeller(seller)`: the public fields, without the password hash. */
  function SerializeSeller(s: Seller): (v: SellerView)
    ensures v.id == Ids.IdText(s.id) && v.email == s.email && v.businessName == s.businessName
    ensures v.country == s.country && v.address == s.address && v.verifiedAt == s.verifiedAt
  {
    SellerView(Ids.IdText(s.id), s.email, s.businessName, s.country, s.address, s.joinedAt, s.verifiedAt)
  }

  /** The view never depends on the stored password hash, so no hash can leak through it. */
  lemma SerializeHidesPasswordHash(s: Seller, otherHash: string)
    ensures SerializeSeller(s.(passwordHash := otherHash)) == SerializeSeller(s)
  {
  }

  /** `verifySellerPassword(seller, password)`: `verifyPassword` against the stored hash. */
  method VerifySellerPassword(pbkdf2: Crypto.Pbkdf2, seller: Seller, password: string) returns (r: Option<bool>)
    ensures r == Crypto.PasswordMatches(pbkdf2, password, seller.passwordHash)
  {
    r := Crypto.VerifyPassword(pbkdf2, password, seller.passwordHash);
  }

  /** Every row sits at its id, and no two rows share an address (the unique index on `email`). */
  ghost predicate WellFormed(sellers: seq<Seller>) {
    && (forall i :: 0 <= i < |sellers| ==> sellers[i].id == i)
    && (forall i, j :: 0 <= i < j < |sellers| ==> sellers[i].email != sellers[j].email)
  }

  /** Whether any row, deleted or not, holds the address. */
  predicate EmailTaken(sellers: seq<Seller>, email: string) {
    exists i :: 0 <= i < |sellers| && sellers[i].email == email
  }

  const DuplicateKeyError: string := "E11000 duplicate key error collection: sellers index: email_1"

  /** The `sellers` collection, with the key derivation and the default country it is used under. */
  class SellerStore {
    const pbkdf2: Crypto.Pbkdf2
    const defaultCountry: string
    var sellers: seq<Seller>

    ghost predicate Valid()
      reads this
    {
      WellFormed(sellers)
    }

    constructor (pbkdf2: Crypto.Pbkdf2, defaultCountry: string)
      ensures Valid() && sellers == [] && this.pbkdf2 == pbkdf2 && this.defaultCountry == defaultCountry
    {
      this.pbkdf2 := pbkdf2;
      this.defaultCountry := defaultCountry;
      sellers := [];
    }

    /**
     * `createSeller({ email, password, businessName, country, address })` at
     * `now`, with `salt` the base64 text of the random salt. The unique index
     * rejects an address any row already holds, deleted rows included.
     */
    method CreateSeller(email: string, password: string, businessName: string, country: Option<string>,
      address: Option<string>, salt: string, now: int)
      returns (r: Result<Seller>)
      requires Valid() && Crypto.IsBase64(salt)
      modifies this
      ensures Valid()
      ensures EmailTaken(old(sellers), ToLower(email)) ==> r == Failure(DuplicateKeyError) && sellers == old(sellers)
      ensures !EmailTaken(old(sellers), ToLower(email)) ==>
        && r == Ok(Seller(|old(sellers)|, ToLower(email), Crypto.HashPassword(pbkdf2, password, salt), businessName,
             if TextGiven(country) then country.value else defaultCountry, OrNull(address), now, None, None, None))
        && sellers == old(sellers) + [r.value]
    {
      var lowered := ToLower(email);
      if EmailTaken(sellers, lowered) {
        return Failure(DuplicateKeyError);
      }
      var row := Seller(|sellers|, lowered, Crypto.HashPassword(pbkdf2, password, salt), businessName,
        if TextGiven(country) then country.value else defaultCountry, OrNull(address), now, None, None, None);
      sellers := sellers + [row];
      r := Ok(row);
    }

    /** `markSellerVerified(id)`: sets `verifiedAt` on a non-deleted row and returns it; None otherwise. */
    method MarkSellerVerified(id: nat, now: int) returns (r: Option<Seller>)
      requires Valid()
      modifies this
      ensures Valid()
      ensures id < |old(sellers)| && old(sellers)[id].deletedAt.None? ==>
        && r == Some(old(sellers)[id].(verifiedAt := Some(now)))
        && sellers == old(sellers)[id := r.value]
      ensures !(id < |old(sellers)| && old(sellers)[id].deletedAt.None?) ==> r.None? && sellers == old(sellers)
    {
      if id < |sellers| && sellers[id].deletedAt.None? {
        var updated := sellers[id].(verifiedAt := Some(now));
        sellers := sellers[id := updated];
        return Some(updated);
      }
      return None;
    }

    /** `updateSellerPassword(id, password)`: stores a fresh hash on a non-deleted row. */
    method UpdateSellerPassword(id: nat, password: string, salt: string, now: int) returns (r: Option<Seller>)
      requires Valid() && Crypto.IsBase64(salt)
      modifies this
      ensures Valid()
      ensures id < |old(sellers)| && old(sellers)[id].deletedAt.None? ==>
        && r == Some(old(sellers)[id].(passwordHash := Crypto.HashPassword(pbkdf2, password, salt), updatedAt := Some(now)))
        && sellers == old(sellers)[id := r.value]
      ensures !(id < |old(sellers)| && old(sellers)[id].deletedAt.None?) ==> r.None? && sellers == old(sellers)
    {
      if id < |sellers| && sellers[id].deletedAt.None? {
        var updated := sellers[id].(passwordHash := Crypto.HashPassword(pbkdf2, password, salt), updatedAt := Some(now));
        sellers := sellers[id := updated];
        return Some(updated);
      }
      return None;
    }

    /**
     * `updateSellerProfile(id, { businessName, country })`: only the fields
     * given non-empty are written. With neither given nothing is written and
     * the row is returned as it is, deleted or not.
     */
    method UpdateSellerProfile(id: nat, businessName: Option<string>, country: Option<string>, now: int)
      returns (r: Option<Seller>)
      requires Valid()
      modifies this
      ensures Valid()
      ensures !TextGiven(businessName) && !TextGiven(country) ==>
        sellers == old(sellers) && r == (if id < |sellers| then Some(sellers[id]) else None)
      ensures (TextGiven(businessName) || TextGiven(country)) ==>
        if id < |old(sellers)| && old(sellers)[id].deletedAt.None? then
          var s := old(sellers)[id];
          && r == Some(s.(businessName := if TextGiven(businessName) then businessName.value else s.businessName,
                          country := if TextGiven(country) then country.value else s.country,
                          updatedAt := Some(now)))
          && sellers == old(sellers)[id := r.value]
        else r.None? && sellers == old(sellers)
    {
      var nameGiven := TextGiven(businessName);
      var countryGiven := TextGiven(country);
      if !nameGiven && !countryGiven {
        return if id < |sellers| then Some(sellers[id]) else None;
      }
      if id >= |sellers| || sellers[id].deletedAt.Some? {
        return None;
      }
      var updated := sellers[id];
      if nameGiven {
        updated := updated.(businessName := businessName.value);
      }
      if countryGiven {
        updated := updated.(country := country.value);
      }
      updated := updated.(updatedAt := Some(now));
      sellers := sellers[id := updated];
      r := Some(updated);
    }
  }

  /** The sessions after `updateMany({ sellerId }, { $set: { revokedAt: now } })`. */
  function RevokeSellerSessions(sessions: seq<Sessions.Session>, sellerId: nat, now: int): (r: seq<Sessions.Session>)
    ensures |r| == |sessions|
    ensures forall i :: 0 <= i < |r| ==>
      r[i] == if sessions[i].sellerId == sellerId then sessions[i].(revokedAt := Some(now)) else sessions[i]
  {
    seq(|sessions|, i requires 0 <= i < |sessions| =>
      if sessions[i].sellerId == sellerId then sessions[i].(revokedAt := Some(now)) else sessions[i])
  }

  /** The payments after `updateMany({ sellerId }, { $set: { deletedAt: now } })`. */
  function DeleteSellerPayments(payments: seq<Payments.Payment>, sellerId: nat, now: int): (r: seq<Payments.Payment>)
    ensures |r| == |payments|
    ensures forall i :: 0 <= i < |r| ==>
      r[i] == if payments[i].sellerId == sellerId then payments[i].(deletedAt := Some(now)) else payments[i]
  {
    seq(|payments|, i requires 0 <= i < |payments| =>
      if payments[i].sellerId == sellerId then payments[i].(deletedAt := Some(now)) else payments[i])
  }

  /** The transactions after `updateMany({ sellerId }, { $set: { deletedAt: now } })`. */
  function DeleteSellerTransactions(transactions: seq<Transactions.Transaction>, sellerId: nat, now: int)
    : (r: seq<Transactions.Transaction>)
    ensures |r| == |transactions|
    ensures forall i :: 0 <= i < |r| ==>
      r[i] == if transactions[i].sellerId == sellerId then transactions[i].(deletedAt := Some(now)) else transactions[i]
  {
    seq(|transactions|, i requires 0 <= i < |transactions| =>
      if transactions[i].sellerId == sellerId then transactions[i].(deletedAt := Some(now)) else transactions[i])
  }

  /**
   * `deleteSellerAndData(id)` at `now`: the seller row is marked deleted
   * (whatever its state), then every payment and transaction of the seller,
   * then every session of the seller is revoked.
   */
  method DeleteSellerAndData(sellers: SellerStore, payments: Payments.PaymentStore,
    transactions: Transactions.TransactionStore, sessions: Sessions.SessionStore, id: nat, now: int)
    requires sellers.Valid() && payments.Valid() && transactions.Valid() && sessions.Valid()
    modifies sellers, payments, transactions, sessions
    ensures sellers.Valid() && payments.Valid() && transactions.Valid() && sessions.Valid()
    ensures sellers.sellers == if id < |old(sellers.sellers)| then
      old(sellers.sellers)[id := old(sellers.sellers)[id].(deletedAt := Some(now))] else old(sellers.sellers)
    ensures payments.payments == DeleteSellerPayments(old(payments.payments), id, now)
    ensures transactions.transactions == DeleteSellerTransactions(old(transactions.transactions), id, now)
    ensures sessions.sessions == RevokeSellerSessions(old(sessions.sessions), id, now)
  {
    if id < |sellers.sellers| {
      sellers.sellers := sellers.sellers[id := sellers.sellers[id].(deletedAt := Some(now))];
    }
    payments.payments := DeleteSellerPayments(payments.payments, id, now);
    transactions.transactions := DeleteSellerTransactions(transactions.transactions, id, now);
    sessions.sessions := RevokeSellerSessions(sessions.sessions, id, now);
  }

  /** Once deleted, a seller is found neither by address nor by id. */
  lemma DeletedSellerNotFound(sellers: seq<Seller>, id: nat, now: int, email: string)
    requires WellFormed(sellers) && id < |sellers|
    ensures var after := sellers[id := sellers[id].(deletedAt := Some(now))];
      && FindLiveSellerById(after, id).None?
      && (FindSellerByEmail(after, email).Some? ==> FindSellerByEmail(after, email).value.id != id)
  {
    var after := sellers[id := sellers[id].(deletedAt := Some(now))];
    forall i | 0 <= i < |after| ensures !(after[i].id == id && after[i].deletedAt.None?) {
      if i != id { assert after[i] == sellers[i]; }
    }
    var f := FindSellerByEmail(after, email);
    if f.Some? {
      var k :| 0 <= k < |after| && after[k] == f.value;
      if k != id { assert after[k] == sellers[k]; }
    }
  }

  /**
   * After the cascade no payment of the seller is reachable, by id or by
   * link, and the seller's payment listing is empty.
   */
  lemma DeletedSellerPaymentsHidden(payments: seq<Payments.Payment>, sellerId: nat, now: int, idText: string,
    slug: string, limit: int, offset: nat)
    ensures var after := DeleteSellerPayments(payments, sellerId, now);
      && (Payments.FindPaymentById(after, idText).Ok? && Payments.FindPaymentById(after, idText).value.Some? ==>
            Payments.FindPaymentById(after, idText).value.value.sellerId != sellerId)
      && (Payments.FindPaymentBySlug(after, slug).Some? ==> Payments.FindPaymentBySlug(after, slug).value.sellerId != sellerId)
      && Payments.ListPaymentsForSeller(after, sellerId, limit, offset) == Ok([])
  {
    var after := DeleteSellerPayments(payments, sellerId, now);
    assert forall i :: 0 <= i < |after| ==> !(after[i].sellerId == sellerId && after[i].deletedAt.None?);
  }

  /**
   * After the cascade none of the seller's sessions authenticates or
   * refreshes, under any token at any time.
   */
  lemma DeletedSellerSessionsDead(sessions: seq<Sessions.Session>, sellerId: nat, now: int,
    sha256: string -> string, token: string, hash: string, later: int)
    ensures var after := RevokeSellerSessions(sessions, sellerId, now);
      && (Sessions.AuthenticateAccessToken(after, sha256, token, later).Some? ==>
            Sessions.AuthenticateAccessToken(after, sha256, token, later).value.sellerId != sellerId)
      && (Sessions.FindRefreshable(after, hash, later).Some? ==>
            after[Sessions.FindRefreshable(after, hash, later).value].sellerId != sellerId)
  {
  }
}
