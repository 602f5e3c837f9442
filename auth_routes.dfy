/**
 * The authentication endpoints of backend/src/routes/authRoutes.js. Each
 * handler is a method over the stores it reads and writes; `d` carries the
 * clock and the values the request draws from outside.
 */
module AuthRoutes {
  import opened Wrappers
  import opened Strings
  import opened Requests
  import opened Responses
  import Time
  import Config
  import Crypto
  import Sellers
  import Otps
  import Sessions

  const SignupFields: seq<string> := ["email", "password", "businessName"]
  const VerifyFields: seq<string> := ["email", "code"]
  const ResendFields: seq<string> := ["email", "purpose"]
  const LoginFields: seq<string> := ["email", "password"]
  const EmailField: seq<string> := ["email"]
  const ResetFields: seq<string> := ["email", "code", "newPassword"]
  const RefreshFields: seq<string> := ["refreshToken"]

  /** The error the mail service throws when a code cannot be delivered. */
  const MailFailure := Crashed("OTP email could not be sent")

  /** `String(body[name])`. */
  function Text(body: Body, name: string): string {
    JsString(Field(body, name))
  }

  /** `String(body.email).toLowerCase()`. */
  function EmailOf(body: Body): string {
    ToLower(Text(body, "email"))
  }

  /** `throw new HttpError(400, result.reason || "OTP invalid")`. */
  function OtpRejection(reason: string): Outcome {
    Fail(400, if reason == "" then "OTP invalid" else reason)
  }

  /** The token quadruple of a session created at `now`. */
  function IssuedTokens(d: Draws, settings: Config.Settings): Tokens {
    Tokens(d.accessToken, Time.MinutesFromNow(d.now, settings.accessTokenTtlMinutes),
      d.refreshToken, Time.DaysFromNow(d.now, settings.refreshTokenTtlDays))
  }

  function TokensOf(issued: Sessions.IssuedSession): Tokens {
    Tokens(issued.accessToken, issued.accessExpiresAt, issued.refreshToken, issued.refreshExpiresAt)
  }

  /** The draws fit the stores: the salt is base64 text and there is one byte per OTP digit. */
  predicate DrawsFit(d: Draws, otpLength: nat) {
    Crypto.IsBase64(d.salt) && |d.otpBytes| == otpLength
  }

  /** The challenge most recently appended to the OTP table. */
  function LastChallenge(otps: seq<Otps.OtpChallenge>): Otps.OtpChallenge
    requires |otps| > 0
  {
    otps[|otps| - 1]
  }

  /**
   * `after` is `before` with one challenge appended for `email`, `sellerId`
   * and `purpose`, created at `now` and expiring after the configured
   * lifetime; only the digest of its random code is left open.
   */
  predicate ChallengeAppended(before: seq<Otps.OtpChallenge>, after: seq<Otps.OtpChallenge>, email: string,
    sellerId: nat, purpose: string, now: int, settings: Config.Settings)
  {
    && |after| == |before| + 1 && after[..|before|] == before
    && after[|before|] == Otps.OtpChallenge(|before|, email, sellerId, purpose, after[|before|].codeHash, now,
         Time.MinutesFromNow(now, settings.otpTtlMinutes), None)
  }

  /** The row `createSeller` stores for a signup body, at position `id`. */
  function SignupSeller(id: nat, body: Body, d: Draws, pbkdf2: Crypto.Pbkdf2, defaultCountry: string): Sellers.Seller
    requires Crypto.IsBase64(d.salt)
  {
    Sellers.Seller(id, EmailOf(body), Crypto.HashPassword(pbkdf2, Text(body, "password"), d.salt),
      Text(body, "businessName"), if Truthy(Field(body, "country")) then Text(body, "country") else defaultCountry,
      TextIfTruthy(Field(body, "address")), d.now, None, None, None)
  }

  /**
   * POST /auth/signup. A verified holder of the address gets 409; an
   * unverified one is reused rather than duplicated; otherwise a seller is
   * created. Then a signup code is issued and only its expiry is returned.
   */
  method Signup(sellers: Sellers.SellerStore, otps: Otps.OtpStore, body: Body, d: Draws) returns (out: Outcome)
    requires sellers.Valid() && otps.Valid() && DrawsFit(d, otps.settings.otpLength)
    modifies sellers, otps
    ensures sellers.Valid() && otps.Valid()
    ensures RequireFields(SignupFields, body).Some? ==>
      out == Throw(Raised(RequireFields(SignupFields, body).value))
      && sellers.sellers == old(sellers.sellers) && otps.otps == old(otps.otps)
    ensures var found := Sellers.FindSellerByEmail(old(sellers.sellers), EmailOf(body));
      RequireFields(SignupFields, body).None? && found.Some? && found.value.verifiedAt.Some? ==>
        out == Fail(409, "Seller already exists") && sellers.sellers == old(sellers.sellers) && otps.otps == old(otps.otps)
    ensures Sellers.FindSellerByEmail(old(sellers.sellers), EmailOf(body)).Some? ==> sellers.sellers == old(sellers.sellers)
    ensures
      && RequireFields(SignupFields, body).None?
      && Sellers.FindSellerByEmail(old(sellers.sellers), EmailOf(body)).None?
      && Sellers.EmailTaken(old(sellers.sellers), EmailOf(body)) ==>
        out == Throw(Crashed(Sellers.DuplicateKeyError)) && otps.otps == old(otps.otps)
    ensures var found := Sellers.FindSellerByEmail(old(sellers.sellers), EmailOf(body));
      && RequireFields(SignupFields, body).None?
      && (found.Some? ==> found.value.verifiedAt.None?)
      && (found.None? ==> !Sellers.EmailTaken(old(sellers.sellers), EmailOf(body)))
      && !d.mailDelivered ==>
        out == Throw(MailFailure)
    ensures var found := Sellers.FindSellerByEmail(old(sellers.sellers), EmailOf(body));
      out.Reply? <==>
        && RequireFields(SignupFields, body).None?
        && (found.Some? ==> found.value.verifiedAt.None?)
        && (found.None? ==> !Sellers.EmailTaken(old(sellers.sellers), EmailOf(body)))
        && d.mailDelivered
    ensures var found := Sellers.FindSellerByEmail(old(sellers.sellers), EmailOf(body));
      out.Reply? ==>
        && |otps.otps| == |old(otps.otps)| + 1
        && LastChallenge(otps.otps).email == EmailOf(body)
        && LastChallenge(otps.otps).purpose == "signup"
        && LastChallenge(otps.otps).sellerId == (if found.Some? then found.value.id else |old(sellers.sellers)|)
        && out == Reply(201, OtpSent("Signup initiated. OTP sent.", LastChallenge(otps.otps).expiresAt))
    ensures var found := Sellers.FindSellerByEmail(old(sellers.sellers), EmailOf(body));
      sellers.sellers ==
        if RequireFields(SignupFields, body).None? && found.None? && !Sellers.EmailTaken(old(sellers.sellers), EmailOf(body))
        then old(sellers.sellers) + [SignupSeller(|old(sellers.sellers)|, body, d, sellers.pbkdf2, sellers.defaultCountry)]
        else old(sellers.sellers)
    ensures var found := Sellers.FindSellerByEmail(old(sellers.sellers), EmailOf(body));
      if && RequireFields(SignupFields, body).None?
         && (found.Some? ==> found.value.verifiedAt.None?)
         && (found.None? ==> !Sellers.EmailTaken(old(sellers.sellers), EmailOf(body)))
      then ChallengeAppended(old(otps.otps), otps.otps, EmailOf(body),
        if found.Some? then found.value.id else |old(sellers.sellers)|, "signup", d.now, otps.settings)
      else otps.otps == old(otps.otps)
  {
    var missing := RequireFields(SignupFields, body);
    if missing.Some? {
      return Throw(Raised(missing.value));
    }
    var email := EmailOf(body);
    LowerIdempotent(Text(body, "email"));
    var existing := Sellers.FindSellerByEmail(sellers.sellers, email);
    if existing.Some? && existing.value.verifiedAt.Some? {
      return Fail(409, "Seller already exists");
    }
    var seller: Sellers.Seller;
    if existing.None? {
      var country := if Truthy(Field(body, "country")) then Text(body, "country") else sellers.defaultCountry;
      var created := sellers.CreateSeller(email, Text(body, "password"), Text(body, "businessName"), Some(country),
        TextIfTruthy(Field(body, "address")), d.salt, d.now);
      if created.Failure? {
        return Throw(Crashed(created.error));
      }
      seller := created.value;
    } else {
      seller := existing.value;
    }
    var otp := otps.CreateOtp(email, seller.id, "signup", d.otpBytes, d.now, d.mailDelivered);
    if otp.None? {
      return Throw(MailFailure);
    }
    out := Reply(201, OtpSent("Signup initiated. OTP sent.", otp.value.expiresAt));
  }

  /** A row found in a well-formed seller table sits at its id. */
  lemma FoundAtId(sellers: seq<Sellers.Seller>, seller: Sellers.Seller)
    requires Sellers.WellFormed(sellers) && seller in sellers
    ensures seller.id < |sellers| && sellers[seller.id] == seller
  {
    var k :| 0 <= k < |sellers| && sellers[k] == seller;
  }

  /**
   * POST /auth/signup/verify. Unknown address 404, rejected code 400; on
   * success the seller is marked verified if it was not, and a session is
   * created for it.
   */
  method SignupVerify(sellers: Sellers.SellerStore, otps: Otps.OtpStore, sessions: Sessions.SessionStore,
    body: Body, d: Draws) returns (out: Outcome)
    requires sellers.Valid() && otps.Valid() && sessions.Valid()
    modifies sellers, otps, sessions
    ensures sellers.Valid() && otps.Valid() && sessions.Valid()
    ensures RequireFields(VerifyFields, body).Some? ==>
      out == Throw(Raised(RequireFields(VerifyFields, body).value))
      && sellers.sellers == old(sellers.sellers) && otps.otps == old(otps.otps) && sessions.sessions == old(sessions.sessions)
    ensures RequireFields(VerifyFields, body).None? && Sellers.FindSellerByEmail(old(sellers.sellers), EmailOf(body)).None? ==>
      out == Fail(404, "Seller not found")
      && sellers.sellers == old(sellers.sellers) && otps.otps == old(otps.otps) && sessions.sessions == old(sessions.sessions)
    ensures var verdict := Otps.VerifyOutcome(old(otps.otps), otps.sha256, EmailOf(body), Text(body, "code"), "signup", d.now);
      RequireFields(VerifyFields, body).None? && Sellers.FindSellerByEmail(old(sellers.sellers), EmailOf(body)).Some?
        && verdict.Rejected? ==>
      out == OtpRejection(verdict.reason) && sellers.sellers == old(sellers.sellers) && sessions.sessions == old(sessions.sessions)
    ensures out.Reply? <==>
      && RequireFields(VerifyFields, body).None?
      && Sellers.FindSellerByEmail(old(sellers.sellers), EmailOf(body)).Some?
      && Otps.VerifyOutcome(old(otps.otps), otps.sha256, EmailOf(body), Text(body, "code"), "signup", d.now).Verified?
    ensures out.Reply? ==>
      var seller := Sellers.FindSellerByEmail(old(sellers.sellers), EmailOf(body)).value;
      && seller.id < |sellers.sellers| && sellers.sellers[seller.id].verifiedAt.Some?
      && sessions.sessions == old(sessions.sessions) + [Sessions.NewSession(|old(sessions.sessions)|, seller.id,
           sessions.sha256(d.accessToken), sessions.sha256(d.refreshToken), d.now, sessions.settings)]
      && out.status == 200 && out.payload.SellerSession? && out.payload.message == "Signup verified"
      && out.payload.seller.id == Sellers.SerializeSeller(seller).id && out.payload.seller.verifiedAt.Some?
      && out.payload.seller == Sellers.SerializeSeller(sellers.sellers[seller.id])
      && out.payload.tokens == IssuedTokens(d, sessions.settings)
    ensures otps.otps ==
      if RequireFields(VerifyFields, body).None? && Sellers.FindSellerByEmail(old(sellers.sellers), EmailOf(body)).Some?
      then Otps.AfterVerify(old(otps.otps), otps.sha256, EmailOf(body), Text(body, "code"), "signup", d.now)
      else old(otps.otps)
    ensures var seller := Sellers.FindSellerByEmail(old(sellers.sellers), EmailOf(body));
      sellers.sellers ==
        if out.Reply? && seller.value.verifiedAt.None?
        then old(sellers.sellers)[seller.value.id := seller.value.(verifiedAt := Some(d.now))]
        else old(sellers.sellers)
  {
    var missing := RequireFields(VerifyFields, body);
    if missing.Some? {
      return Throw(Raised(missing.value));
    }
    var email := EmailOf(body);
    var found := Sellers.FindSellerByEmail(sellers.sellers, email);
    if found.None? {
      return Fail(404, "Seller not found");
    }
    var seller := found.value;
    FoundAtId(sellers.sellers, seller);
    var result := otps.VerifyOtp(email, Text(body, "code"), "signup", d.now);
    if result.Rejected? {
      return OtpRejection(result.reason);
    }
    var verifiedSeller := seller;
    if seller.verifiedAt.None? {
      var updated := sellers.MarkSellerVerified(seller.id, d.now);
      verifiedSeller := if updated.Some? then updated.value else seller.(verifiedAt := Some(d.now));
    }
    var issued := sessions.CreateSession(seller.id, d.accessToken, d.refreshToken, d.now);
    out := Reply(200, SellerSession("Signup verified", Sellers.SerializeSeller(verifiedSeller), TokensOf(issued)));
  }

  /** How issuing a code for an address ends: with the challenge's expiry, or with the handler's outcome. */
  datatype Issue = Issued(expiresAt: int) | Refused(outcome: Outcome)

  /**
   * Issues a code for a known seller: the shared tail of the resend, OTP
   * login and reset-request endpoints. Unknown address 404; otherwise one
   * challenge for the seller is appended.
   */
  method IssueFor(sellers: Sellers.SellerStore, otps: Otps.OtpStore, email: string, purpose: string, d: Draws)
    returns (r: Issue)
    requires otps.Valid() && |d.otpBytes| == otps.settings.otpLength
    modifies otps
    ensures otps.Valid()
    ensures Sellers.FindSellerByEmail(sellers.sellers, email).None? ==>
      r == Refused(Fail(404, "Seller not found")) && otps.otps == old(otps.otps)
    ensures r.Issued? <==> Sellers.FindSellerByEmail(sellers.sellers, email).Some? && d.mailDelivered
    ensures r.Refused? ==> !r.outcome.Reply?
    ensures Sellers.FindSellerByEmail(sellers.sellers, email).Some? && !d.mailDelivered ==> r == Refused(Throw(MailFailure))
    ensures r.Issued? ==>
      && |otps.otps| == |old(otps.otps)| + 1
      && LastChallenge(otps.otps).email == email && LastChallenge(otps.otps).purpose == purpose
      && LastChallenge(otps.otps).sellerId == Sellers.FindSellerByEmail(sellers.sellers, email).value.id
      && r.expiresAt == LastChallenge(otps.otps).expiresAt
    ensures var found := Sellers.FindSellerByEmail(sellers.sellers, email);
      found.Some? ==> ChallengeAppended(old(otps.otps), otps.otps, email, found.value.id, purpose, d.now, otps.settings)
  {
    var found := Sellers.FindSellerByEmail(sellers.sellers, email);
    if found.None? {
      return Refused(Fail(404, "Seller not found"));
    }
    var otp := otps.CreateOtp(email, found.value.id, purpose, d.otpBytes, d.now, d.mailDelivered);
    if otp.None? {
      return Refused(Throw(MailFailure));
    }
    r := Issued(otp.value.expiresAt);
  }

  /** POST /auth/otp/resend: a purpose other than the three names is refused with 400 before any lookup. */
  method ResendOtp(sellers: Sellers.SellerStore, otps: Otps.OtpStore, body: Body, d: Draws) returns (out: Outcome)
    requires otps.Valid() && |d.otpBytes| == otps.settings.otpLength
    modifies otps
    ensures otps.Valid()
    ensures RequireFields(ResendFields, body).Some? ==>
      out == Throw(Raised(RequireFields(ResendFields, body).value)) && otps.otps == old(otps.otps)
    ensures RequireFields(ResendFields, body).None? && Otps.ParsePurpose(Text(body, "purpose")).None? ==>
      out == Fail(400, "Invalid OTP purpose") && otps.otps == old(otps.otps)
    ensures var found := Sellers.FindSellerByEmail(sellers.sellers, EmailOf(body));
      RequireFields(ResendFields, body).None? && Otps.ParsePurpose(Text(body, "purpose")).Some? ==>
        && (found.None? ==> out == Fail(404, "Seller not found"))
        && (found.Some? && !d.mailDelivered ==> out == Throw(MailFailure))
    ensures out.Reply? <==>
      && RequireFields(ResendFields, body).None? && Otps.ParsePurpose(Text(body, "purpose")).Some?
      && Sellers.FindSellerByEmail(sellers.sellers, EmailOf(body)).Some? && d.mailDelivered
    ensures out.Reply? ==>
      && |otps.otps| == |old(otps.otps)| + 1
      && LastChallenge(otps.otps).purpose == Text(body, "purpose")
      && out == Reply(200, OtpSent("OTP resent", LastChallenge(otps.otps).expiresAt))
    ensures var found := Sellers.FindSellerByEmail(sellers.sellers, EmailOf(body));
      if RequireFields(ResendFields, body).None? && Otps.ParsePurpose(Text(body, "purpose")).Some? && found.Some?
      then ChallengeAppended(old(otps.otps), otps.otps, EmailOf(body), found.value.id, Text(body, "purpose"), d.now,
        otps.settings)
      else otps.otps == old(otps.otps)
  {
    var missing := RequireFields(ResendFields, body);
    if missing.Some? {
      return Throw(Raised(missing.value));
    }
    var purpose := Text(body, "purpose");
    if Otps.ParsePurpose(purpose).None? {
      return Fail(400, "Invalid OTP purpose");
    }
    var issued := IssueFor(sellers, otps, EmailOf(body), purpose, d);
    out := if issued.Issued? then Reply(200, OtpSent("OTP resent", issued.expiresAt)) else issued.outcome;
  }

  /**
   * POST /auth/login: unknown address 404, unverified 403, wrong password
   * 401, and a session only once all three checks pass.
   */
  method Login(sellers: Sellers.SellerStore, sessions: Sessions.SessionStore, body: Body, d: Draws) returns (out: Outcome)
    requires sessions.Valid()
    modifies sessions
    ensures sessions.Valid()
    ensures var found := Sellers.FindSellerByEmail(sellers.sellers, EmailOf(body));
      match RequireFields(LoginFields, body)
      case Some(e) => out == Throw(Raised(e))
      case None =>
        if found.None? then out == Fail(404, "Seller not found")
        else if found.value.verifiedAt.None? then out == Fail(403, "Seller email not verified")
        else match Crypto.PasswordMatches(sellers.pbkdf2, Text(body, "password"), found.value.passwordHash)
          case None => out.Throw? && out.thrown.Crashed?
          case Some(false) => out == Fail(401, "Invalid credentials")
          case Some(true) => out == Reply(200, SellerSession("Login successful", Sellers.SerializeSeller(found.value),
            IssuedTokens(d, sessions.settings)))
    ensures !out.Reply? ==> sessions.sessions == old(sessions.sessions)
    ensures out.Reply? ==>
      sessions.sessions == old(sessions.sessions) + [Sessions.NewSession(|old(sessions.sessions)|,
        Sellers.FindSellerByEmail(sellers.sellers, EmailOf(body)).value.id,
        sessions.sha256(d.accessToken), sessions.sha256(d.refreshToken), d.now, sessions.settings)]
  {
    var missing := RequireFields(LoginFields, body);
    if missing.Some? {
      return Throw(Raised(missing.value));
    }
    var found := Sellers.FindSellerByEmail(sellers.sellers, EmailOf(body));
    if found.None? {
      return Fail(404, "Seller not found");
    }
    if found.value.verifiedAt.None? {
      return Fail(403, "Seller email not verified");
    }
    var ok := Sellers.VerifySellerPassword(sellers.pbkdf2, found.value, Text(body, "password"));
    if ok.None? {
      return Throw(Crashed("Invalid iteration count"));
    }
    if !ok.value {
      return Fail(401, "Invalid credentials");
    }
    var issued := sessions.CreateSession(found.value.id, d.accessToken, d.refreshToken, d.now);
    out := Reply(200, SellerSession("Login successful", Sellers.SerializeSeller(found.value), TokensOf(issued)));
  }

  /** POST /auth/login/otp/request. */
  method RequestLoginOtp(sellers: Sellers.SellerStore, otps: Otps.OtpStore, body: Body, d: Draws) returns (out: Outcome)
    requires otps.Valid() && |d.otpBytes| == otps.settings.otpLength
    modifies otps
    ensures otps.Valid()
    ensures RequireFields(EmailField, body).Some? ==>
      out == Throw(Raised(RequireFields(EmailField, body).value)) && otps.otps == old(otps.otps)
    ensures var found := Sellers.FindSellerByEmail(sellers.sellers, EmailOf(body));
      RequireFields(EmailField, body).None? ==>
        && (found.None? ==> out == Fail(404, "Seller not found"))
        && (found.Some? && !d.mailDelivered ==> out == Throw(MailFailure))
    ensures out.Reply? <==>
      RequireFields(EmailField, body).None? && Sellers.FindSellerByEmail(sellers.sellers, EmailOf(body)).Some? && d.mailDelivered
    ensures out.Reply? ==>
      |otps.otps| == |old(otps.otps)| + 1 && LastChallenge(otps.otps).purpose == "login" && out == Reply(200, MessageBody("Login OTP sent"))
    ensures var found := Sellers.FindSellerByEmail(sellers.sellers, EmailOf(body));
      if RequireFields(EmailField, body).None? && found.Some?
      then ChallengeAppended(old(otps.otps), otps.otps, EmailOf(body), found.value.id, "login", d.now, otps.settings)
      else otps.otps == old(otps.otps)
  {
    var missing := RequireFields(EmailField, body);
    if missing.Some? {
      return Throw(Raised(missing.value));
    }
    var issued := IssueFor(sellers, otps, EmailOf(body), "login", d);
    out := if issued.Issued? then Reply(200, MessageBody("Login OTP sent")) else issued.outcome;
  }

  /**
   * POST /auth/login/otp/verify: unknown address 404, rejected code 400,
   * otherwise a session. Unlike the password login it does not ask for a
   * verified address.
   */
  method VerifyLoginOtp(sellers: Sellers.SellerStore, otps: Otps.OtpStore, sessions: Sessions.SessionStore,
    body: Body, d: Draws) returns (out: Outcome)
    requires otps.Valid() && sessions.Valid()
    modifies otps, sessions
    ensures otps.Valid() && sessions.Valid()
    ensures var found := Sellers.FindSellerByEmail(sellers.sellers, EmailOf(body));
      var verdict := Otps.VerifyOutcome(old(otps.otps), otps.sha256, EmailOf(body), Text(body, "code"), "login", d.now);
      match RequireFields(VerifyFields, body)
      case Some(e) => out == Throw(Raised(e))
      case None =>
        if found.None? then out == Fail(404, "Seller not found")
        else if verdict.Rejected? then out == OtpRejection(verdict.reason)
        else out == Reply(200, SellerSession("Login successful", Sellers.SerializeSeller(found.value),
          IssuedTokens(d, sessions.settings)))
    ensures !out.Reply? ==> sessions.sessions == old(sessions.sessions)
    ensures out.Reply? ==>
      sessions.sessions == old(sessions.sessions) + [Sessions.NewSession(|old(sessions.sessions)|,
        Sellers.FindSellerByEmail(sellers.sellers, EmailOf(body)).value.id,
        sessions.sha256(d.accessToken), sessions.sha256(d.refreshToken), d.now, sessions.settings)]
    ensures otps.otps ==
      if RequireFields(VerifyFields, body).None? && Sellers.FindSellerByEmail(sellers.sellers, EmailOf(body)).Some?
      then Otps.AfterVerify(old(otps.otps), otps.sha256, EmailOf(body), Text(body, "code"), "login", d.now)
      else old(otps.otps)
  {
    var missing := RequireFields(VerifyFields, body);
    if missing.Some? {
      return Throw(Raised(missing.value));
    }
    var email := EmailOf(body);
    var found := Sellers.FindSellerByEmail(sellers.sellers, email);
    if found.None? {
      return Fail(404, "Seller not found");
    }
    var result := otps.VerifyOtp(email, Text(body, "code"), "login", d.now);
    if result.Rejected? {
      return OtpRejection(result.reason);
    }
    var issued := sessions.CreateSession(found.value.id, d.accessToken, d.refreshToken, d.now);
    out := Reply(200, SellerSession("Login successful", Sellers.SerializeSeller(found.value), TokensOf(issued)));
  }

  /** POST /auth/password/request. */
  method RequestPasswordReset(sellers: Sellers.SellerStore, otps: Otps.OtpStore, body: Body, d: Draws) returns (out: Outcome)
    requires otps.Valid() && |d.otpBytes| == otps.settings.otpLength
    modifies otps
    ensures otps.Valid()
    ensures RequireFields(EmailField, body).Some? ==>
      out == Throw(Raised(RequireFields(EmailField, body).value)) && otps.otps == old(otps.otps)
    ensures var found := Sellers.FindSellerByEmail(sellers.sellers, EmailOf(body));
      RequireFields(EmailField, body).None? ==>
        && (found.None? ==> out == Fail(404, "Seller not found"))
        && (found.Some? && !d.mailDelivered ==> out == Throw(MailFailure))
    ensures out.Reply? <==>
      RequireFields(EmailField, body).None? && Sellers.FindSellerByEmail(sellers.sellers, EmailOf(body)).Some? && d.mailDelivered
    ensures out.Reply? ==>
      && |otps.otps| == |old(otps.otps)| + 1
      && LastChallenge(otps.otps).purpose == "reset"
      && out == Reply(200, OtpSent("Password reset OTP sent", LastChallenge(otps.otps).expiresAt))
    ensures var found := Sellers.FindSellerByEmail(sellers.sellers, EmailOf(body));
      if RequireFields(EmailField, body).None? && found.Some?
      then ChallengeAppended(old(otps.otps), otps.otps, EmailOf(body), found.value.id, "reset", d.now, otps.settings)
      else otps.otps == old(otps.otps)
  {
    var missing := RequireFields(EmailField, body);
    if missing.Some? {
      return Throw(Raised(missing.value));
    }
    var issued := IssueFor(sellers, otps, EmailOf(body), "reset", d);
    out := if issued.Issued? then Reply(200, OtpSent("Password reset OTP sent", issued.expiresAt)) else issued.outcome;
  }

  /** POST /auth/password/reset: the password changes only after a reset code verifies. */
  method ResetPassword(sellers: Sellers.SellerStore, otps: Otps.OtpStore, body: Body, d: Draws) returns (out: Outcome)
    requires sellers.Valid() && otps.Valid() && Crypto.IsBase64(d.salt)
    modifies sellers, otps
    ensures sellers.Valid() && otps.Valid()
    ensures var found := Sellers.FindSellerByEmail(old(sellers.sellers), EmailOf(body));
      var verdict := Otps.VerifyOutcome(old(otps.otps), otps.sha256, EmailOf(body), Text(body, "code"), "reset", d.now);
      match RequireFields(ResetFields, body)
      case Some(e) => out == Throw(Raised(e))
      case None =>
        if found.None? then out == Fail(404, "Seller not found")
        else if verdict.Rejected? then out == OtpRejection(verdict.reason)
        else out == Reply(200, MessageBody("Password reset successful"))
    ensures !out.Reply? ==> sellers.sellers == old(sellers.sellers)
    ensures out.Reply? ==>
      var seller := Sellers.FindSellerByEmail(old(sellers.sellers), EmailOf(body)).value;
      && seller.id < |old(sellers.sellers)|
      && sellers.sellers == old(sellers.sellers)[seller.id := seller.(
           passwordHash := Crypto.HashPassword(sellers.pbkdf2, Text(body, "newPassword"), d.salt), updatedAt := Some(d.now))]
    ensures otps.otps ==
      if RequireFields(ResetFields, body).None? && Sellers.FindSellerByEmail(old(sellers.sellers), EmailOf(body)).Some?
      then Otps.AfterVerify(old(otps.otps), otps.sha256, EmailOf(body), Text(body, "code"), "reset", d.now)
      else old(otps.otps)
  {
    var missing := RequireFields(ResetFields, body);
    if missing.Some? {
      return Throw(Raised(missing.value));
    }
    var email := EmailOf(body);
    var found := Sellers.FindSellerByEmail(sellers.sellers, email);
    if found.None? {
      return Fail(404, "Seller not found");
    }
    FoundAtId(sellers.sellers, found.value);
    var result := otps.VerifyOtp(email, Text(body, "code"), "reset", d.now);
    if result.Rejected? {
      return OtpRejection(result.reason);
    }
    var _ := sellers.UpdateSellerPassword(found.value.id, Text(body, "newPassword"), d.salt, d.now);
    out := Reply(200, MessageBody("Password reset successful"));
  }

  /** POST /auth/logout: without a session 401; otherwise the presented access token's session is revoked. */
  method Logout(sessions: Sessions.SessionStore, session: Option<Sessions.Session>, authToken: Option<string>, now: int)
    returns (out: Outcome)
    requires sessions.Valid()
    modifies sessions
    ensures sessions.Valid()
    ensures session.None? ==> out == Fail(401, "Unauthorized") && sessions.sessions == old(sessions.sessions)
    ensures session.Some? ==> out == Reply(200, MessageBody("Logged out"))
    ensures session.Some? && TextGiven(authToken) ==>
      sessions.sessions == Sessions.RevokeByAccess(old(sessions.sessions), sessions.sha256(authToken.value), now)
    ensures !TextGiven(authToken) ==> sessions.sessions == old(sessions.sessions)
  {
    if session.None? {
      return Fail(401, "Unauthorized");
    }
    if TextGiven(authToken) {
      sessions.RevokeSessionByAccessToken(authToken.value, now);
    }
    out := Reply(200, MessageBody("Logged out"));
  }

  /** POST /auth/refresh: a token that redeems nothing gives 401; otherwise the rotated pair. */
  method Refresh(sessions: Sessions.SessionStore, body: Body, d: Draws) returns (out: Outcome)
    requires sessions.Valid()
    modifies sessions
    ensures sessions.Valid()
    ensures RequireFields(RefreshFields, body).Some? ==>
      out == Throw(Raised(RequireFields(RefreshFields, body).value)) && sessions.sessions == old(sessions.sessions)
    ensures var found := Sessions.FindRefreshable(old(sessions.sessions), sessions.sha256(Text(body, "refreshToken")), d.now);
      RequireFields(RefreshFields, body).None? ==>
        if found.None? then out == Fail(401, "Invalid refresh token") && sessions.sessions == old(sessions.sessions)
        else
          var rotated := Sessions.Rotated(old(sessions.sessions)[found.value], sessions.sha256(d.accessToken),
            sessions.sha256(d.refreshToken), d.now, sessions.settings);
          && sessions.sessions == old(sessions.sessions)[found.value := rotated]
          && out == Reply(200, TokensBody("Token refreshed",
               Tokens(d.accessToken, rotated.accessExpiresAt, d.refreshToken, rotated.refreshExpiresAt)))
  {
    var missing := RequireFields(RefreshFields, body);
    if missing.Some? {
      return Throw(Raised(missing.value));
    }
    var refreshed := sessions.RefreshSession(Text(body, "refreshToken"), d.accessToken, d.refreshToken, d.now);
    if refreshed.None? {
      return Fail(401, "Invalid refresh token");
    }
    var r := refreshed.value;
    out := Reply(200, TokensBody("Token refreshed",
      Tokens(r.accessToken, r.session.accessExpiresAt, r.refreshToken, r.session.refreshExpiresAt)));
  }
}
