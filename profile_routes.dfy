/** The profile endpoints of backend/src/routes/profileRoutes.js, all behind the sign-in gate. */
module ProfileRoutes {
  import opened Wrappers
  import opened Strings
  import opened Requests
  import opened Responses
  import Crypto
  import Sellers
  import Sessions
  import Payments
  import Transactions

  /** GET /profile: the current seller's public view. */
  function GetProfile(seller: Option<Sellers.Seller>): (out: Outcome)
    ensures seller.None? <==> out == Fail(401, "Unauthorized")
    ensures seller.Some? ==>
      && out.Reply? && out.status == 200 && out.payload.ProfileBody?
      && out.payload.profile.id == Sellers.SerializeSeller(seller.value).id
      && out.payload.profile.email == seller.value.email
  {
    match seller
    case None => Fail(401, "Unauthorized")
    case Some(s) => Reply(200, ProfileBody(Sellers.SerializeSeller(s)))
  }

  /** The profile sent back is the same whatever the stored password hash is. */
  lemma ProfileHidesPasswordHash(seller: Sellers.Seller, otherHash: string)
    ensures GetProfile(Some(seller.(passwordHash := otherHash))) == GetProfile(Some(seller))
  {
    Sellers.SerializeHidesPasswordHash(seller, otherHash);
  }

  /**
   * PATCH /profile: only a truthy businessName or country is passed on,
   * and the reply falls back to the current seller when the update returns
   * nothing.
   */
  method UpdateProfile(sellers: Sellers.SellerStore, seller: Option<Sellers.Seller>, body: Body, now: int)
    returns (out: Outcome)
    requires sellers.Valid()
    modifies sellers
    ensures sellers.Valid()
    ensures seller.None? ==> out == Fail(401, "Unauthorized") && sellers.sellers == old(sellers.sellers)
    ensures seller.Some? ==>
      var id := seller.value.id;
      var name := TextIfTruthy(Field(body, "businessName"));
      var country := TextIfTruthy(Field(body, "country"));
      && (name.None? && country.None? ==>
            sellers.sellers == old(sellers.sellers)
            && out == Reply(200, ProfileBody(Sellers.SerializeSeller(
                 if id < |old(sellers.sellers)| then old(sellers.sellers)[id] else seller.value))))
      && ((name.Some? || country.Some?) && id < |old(sellers.sellers)| && old(sellers.sellers)[id].deletedAt.None? ==>
            var row := old(sellers.sellers)[id];
            var updated := row.(businessName := name.GetOr(row.businessName), country := country.GetOr(row.country),
                                updatedAt := Some(now));
            sellers.sellers == old(sellers.sellers)[id := updated]
            && out == Reply(200, ProfileBody(Sellers.SerializeSeller(updated))))
      && ((name.Some? || country.Some?) && !(id < |old(sellers.sellers)| && old(sellers.sellers)[id].deletedAt.None?) ==>
            sellers.sellers == old(sellers.sellers) && out == Reply(200, ProfileBody(Sellers.SerializeSeller(seller.value))))
  {
    if seller.None? {
      return Fail(401, "Unauthorized");
    }
    var updated := sellers.UpdateSellerProfile(seller.value.id, TextIfTruthy(Field(body, "businessName")),
      TextIfTruthy(Field(body, "country")), now);
    out := Reply(200, ProfileBody(Sellers.SerializeSeller(updated.GetOr(seller.value))));
  }

  /**
   * DELETE /profile: the cascade of `deleteSellerAndData`, then the
   * presented access token's session is revoked as well.
   */
  method DeleteProfile(sellers: Sellers.SellerStore, payments: Payments.PaymentStore,
    transactions: Transactions.TransactionStore, sessions: Sessions.SessionStore,
    seller: Option<Sellers.Seller>, authToken: Option<string>, now: int)
    returns (out: Outcome)
    requires sellers.Valid() && payments.Valid() && transactions.Valid() && sessions.Valid()
    modifies sellers, payments, transactions, sessions
    ensures sellers.Valid() && payments.Valid() && transactions.Valid() && sessions.Valid()
    ensures seller.None? ==>
      && out == Fail(401, "Unauthorized")
      && sellers.sellers == old(sellers.sellers) && payments.payments == old(payments.payments)
      && transactions.transactions == old(transactions.transactions) && sessions.sessions == old(sessions.sessions)
    ensures seller.Some? ==>
      var id := seller.value.id;
      var revoked := Sellers.RevokeSellerSessions(old(sessions.sessions), id, now);
      && out == Reply(200, MessageBody("Profile deleted"))
      && sellers.sellers == (if id < |old(sellers.sellers)| then
           old(sellers.sellers)[id := old(sellers.sellers)[id].(deletedAt := Some(now))] else old(sellers.sellers))
      && payments.payments == Sellers.DeleteSellerPayments(old(payments.payments), id, now)
      && transactions.transactions == Sellers.DeleteSellerTransactions(old(transactions.transactions), id, now)
      && sessions.sessions == (if TextGiven(authToken) then
           Sessions.RevokeByAccess(revoked, sessions.sha256(authToken.value), now) else revoked)
  {
    if seller.None? {
      return Fail(401, "Unauthorized");
    }
    Sellers.DeleteSellerAndData(sellers, payments, transactions, sessions, seller.value.id, now);
    if TextGiven(authToken) {
      sessions.RevokeSessionByAccessToken(authToken.value, now);
    }
    out := Reply(200, MessageBody("Profile deleted"));
  }

  /**
   * PATCH /profile/password: both passwords are required (400), the current
   * one must verify (403), and only then is the new one stored.
   */
  method ChangePassword(sellers: Sellers.SellerStore, seller: Option<Sellers.Seller>, body: Body, salt: string, now: int)
    returns (out: Outcome)
    requires sellers.Valid() && Crypto.IsBase64(salt)
    modifies sellers
    ensures sellers.Valid()
    ensures match seller
      case None => out == Fail(401, "Unauthorized")
      case Some(s) =>
        if !Truthy(Field(body, "currentPassword")) || !Truthy(Field(body, "newPassword")) then
          out == Fail(400, "Current and new passwords are required")
        else match Crypto.PasswordMatches(sellers.pbkdf2, JsString(Field(body, "currentPassword")), s.passwordHash)
          case None => out.Throw? && out.thrown.Crashed?
          case Some(false) => out == Fail(403, "Current password is incorrect")
          case Some(true) => out == Reply(200, MessageBody("Password updated"))
    ensures !out.Reply? ==> sellers.sellers == old(sellers.sellers)
    ensures out.Reply? ==>
      var id := seller.value.id;
      && (id < |old(sellers.sellers)| && old(sellers.sellers)[id].deletedAt.None? ==>
            sellers.sellers == old(sellers.sellers)[id := old(sellers.sellers)[id].(
              passwordHash := Crypto.HashPassword(sellers.pbkdf2, JsString(Field(body, "newPassword")), salt),
              updatedAt := Some(now))])
      && (!(id < |old(sellers.sellers)| && old(sellers.sellers)[id].deletedAt.None?) ==>
            sellers.sellers == old(sellers.sellers))
  {
    if seller.None? {
      return Fail(401, "Unauthorized");
    }
    var current := Field(body, "currentPassword");
    var next := Field(body, "newPassword");
    if !Truthy(current) || !Truthy(next) {
      return Fail(400, "Current and new passwords are required");
    }
    var valid := Sellers.VerifySellerPassword(sellers.pbkdf2, seller.value, JsString(current));
    if valid.None? {
      return Throw(Crashed("Invalid iteration count"));
    }
    if !valid.value {
      return Fail(403, "Current password is incorrect");
    }
    var _ := sellers.UpdateSellerPassword(seller.value.id, JsString(next), salt, now);
    out := Reply(200, MessageBody("Password updated"));
  }
}
