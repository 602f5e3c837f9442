/**
 * backend/src/services/otpService.js: one-time codes bound to an email
 * address and a purpose. Only the SHA-256 digest of a code is stored; the
 * digest function, the random bytes, the clock reading and the outcome of
 * the mail delivery are parameters.
 */
module Otps {
  import opened Wrappers
  import opened Time
  import opened Config
  import Crypto

  /** The three purposes a code can be issued for. */
  datatype Purpose = Signup | Login | Reset

  /** The stored spelling of a purpose. */
  function PurposeName(p: Purpose): string {
    match p
    case Signup => "signup"
    case Login => "login"
    case Reset => "reset"
  }

  /** The purpose a request names, if it names one of the three. */
  function ParsePurpose(s: string): (p: Option<Purpose>)
    ensures p.Some? ==> PurposeName(p.value) == s
  {
    if s == "signup" then Some(Signup)
    else if s == "login" then Some(Login)
    else if s == "reset" then Some(Reset)
    else None
  }

  /** A purpose name is accepted exactly when it is one of the three spellings. */
  lemma ParsePurposeExact(s: string, p: Purpose)
    ensures ParsePurpose(s) == Some(p) <==> PurposeName(p) == s
  {
  }

  /** A row of the `otps` collection; `id` is its position in the table. */
  datatype OtpChallenge = OtpChallenge(
    id: nat,
    email: string,
    sellerId: nat,
    purpose: string,
    codeHash: string,
    createdAt: int,
    expiresAt: int,
    consumedAt: Option<int>)

  /** The filter of `verifyOtp`: same address, same purpose, not yet consumed. */
  predicate Candidate(o: OtpChallenge, email: string, purpose: string) {
    o.email == email && o.purpose == purpose && o.consumedAt.None?
  }

  /**
   * The row `findOne(…, { sort: { createdAt: -1 } })` selects: a candidate
   * with the latest creation time, the later-inserted one on a tie.
   */
  function Newest(otps: seq<OtpChallenge>, email: string, purpose: string): (r: Option<nat>)
    ensures r.None? <==> forall j :: 0 <= j < |otps| ==> !Candidate(otps[j], email, purpose)
    ensures r.Some? ==> r.value < |otps| && Candidate(otps[r.value], email, purpose)
    ensures r.Some? ==> forall j :: 0 <= j < |otps| && Candidate(otps[j], email, purpose) ==>
      otps[j].createdAt <= otps[r.value].createdAt
    ensures r.Some? ==> forall j :: r.value < j < |otps| && Candidate(otps[j], email, purpose) ==>
      otps[j].createdAt < otps[r.value].createdAt
    decreases |otps|
  {
    if otps == [] then None
    else
      var last := |otps| - 1;
      var earlier := Newest(otps[..last], email, purpose);
      assert forall j :: 0 <= j < last ==> otps[..last][j] == otps[j];
      if Candidate(otps[last], email, purpose)
        && (earlier.None? || otps[earlier.value].createdAt <= otps[last].createdAt)
      then Some(last)
      else earlier
  }

  /** The answer of `verifyOtp`. */
  datatype VerifyResult = Verified(otp: OtpChallenge) | Rejected(reason: string)

  /** `verifyOtp({ email, code, purpose })` read at `now`: the checks in the order the service makes them. */
  function VerifyOutcome(otps: seq<OtpChallenge>, sha256: string -> string, email: string, code: string,
    purpose: string, now: int): (r: VerifyResult)
    ensures Newest(otps, email, purpose).None? ==> r == Rejected("OTP not found")
    ensures Newest(otps, email, purpose).Some? ==>
      var o := otps[Newest(otps, email, purpose).value];
      && (o.codeHash != sha256(code) ==> r == Rejected("Invalid OTP"))
      && (o.codeHash == sha256(code) && o.expiresAt < now ==> r == Rejected("OTP expired"))
    ensures r.Verified? <==>
      Newest(otps, email, purpose).Some?
      && otps[Newest(otps, email, purpose).value].codeHash == sha256(code)
      && now <= otps[Newest(otps, email, purpose).value].expiresAt
    ensures r.Verified? ==> r.otp == otps[Newest(otps, email, purpose).value]
  {
    match Newest(otps, email, purpose)
    case None => Rejected("OTP not found")
    case Some(i) =>
      if otps[i].codeHash != sha256(code) then Rejected("Invalid OTP")
      else if otps[i].expiresAt < now then Rejected("OTP expired")
      else Verified(otps[i])
  }

  /** The table after `verifyOtp`: a verified challenge is marked consumed, nothing else changes. */
  function AfterVerify(otps: seq<OtpChallenge>, sha256: string -> string, email: string, code: string,
    purpose: string, now: int): (r: seq<OtpChallenge>)
    ensures |r| == |otps|
    ensures !VerifyOutcome(otps, sha256, email, code, purpose, now).Verified? ==> r == otps
    ensures VerifyOutcome(otps, sha256, email, code, purpose, now).Verified? ==>
      var i := Newest(otps, email, purpose).value;
      r == otps[i := otps[i].(consumedAt := Some(now))]
  {
    if VerifyOutcome(otps, sha256, email, code, purpose, now).Verified? then
      var i := Newest(otps, email, purpose).value;
      otps[i := otps[i].(consumedAt := Some(now))]
    else otps
  }

  /** What `createOtp` hands back. */
  datatype IssuedOtp = IssuedOtp(code: string, expiresAt: int)

  /** Every row sits at the position its id names. */
  ghost predicate IdsArePositions(otps: seq<OtpChallenge>) {
    forall i :: 0 <= i < |otps| ==> otps[i].id == i
  }

  /** The `otps` collection, with the digest function and the settings it is used under. */
  class OtpStore {
    const sha256: string -> string
    const settings: Settings
    var otps: seq<OtpChallenge>

    ghost predicate Valid()
      reads this
    {
      IdsArePositions(otps)
    }

    constructor (sha256: string -> string, settings: Settings)
      ensures Valid() && otps == [] && this.sha256 == sha256 && this.settings == settings
    {
      this.sha256 := sha256;
      this.settings := settings;
      otps := [];
    }

    /**
     * `createOtp({ email, sellerId, purpose })`: `random` holds the bytes
     * drawn for the digits and `delivered` whether the mail went out. The
     * row is inserted before the mail is sent, so a failed delivery (None,
     * the service throws) leaves the challenge stored.
     */
    method CreateOtp(email: string, sellerId: nat, purpose: string, random: seq<Crypto.Byte>, now: int, delivered: bool)
      returns (r: Option<IssuedOtp>)
      requires Valid()
      requires |random| == settings.otpLength
      modifies this
      ensures Valid()
      ensures |otps| == |old(otps)| + 1 && otps[..|old(otps)|] == old(otps)
      ensures var row := otps[|old(otps)|];
        && row == OtpChallenge(|old(otps)|, email, sellerId, purpose, row.codeHash, now,
             MinutesFromNow(now, settings.otpTtlMinutes), None)
        && (r.Some? <==> delivered)
        && (r.Some? ==>
              (row.codeHash == sha256(r.value.code) && r.value.expiresAt == row.expiresAt
               && Crypto.IsOtpCode(r.value.code, settings.otpLength)))
      ensures exists code :: Crypto.IsOtpCode(code, settings.otpLength) && otps[|old(otps)|].codeHash == sha256(code)
      ensures otps[|old(otps)|].codeHash == sha256(Crypto.OtpDigitsOf(random))
    {
      var code := Crypto.GenerateOtpCode(settings.otpLength, random);
      var expiresAt := MinutesFromNow(now, settings.otpTtlMinutes);
      otps := otps + [OtpChallenge(|otps|, email, sellerId, purpose, sha256(code), now, expiresAt, None)];
      if !delivered {
        return None;
      }
      r := Some(IssuedOtp(code, expiresAt));
    }

    /** `verifyOtp({ email, code, purpose })` at `now`. */
    method VerifyOtp(email: string, code: string, purpose: string, now: int) returns (r: VerifyResult)
      requires Valid()
      modifies this
      ensures Valid()
      ensures r == VerifyOutcome(old(otps), sha256, email, code, purpose, now)
      ensures otps == AfterVerify(old(otps), sha256, email, code, purpose, now)
    {
      r := VerifyOutcome(otps, sha256, email, code, purpose, now);
      if r.Verified? {
        var i := Newest(otps, email, purpose).value;
        otps := otps[i := otps[i].(consumedAt := Some(now))];
      }
    }
  }

  /**
   * A code just issued verifies until it expires, provided the clock has not
   * gone backwards since the address's earlier challenges for that purpose.
   */
  lemma {:induction false} IssuedCodeVerifies(otps: seq<OtpChallenge>, sha256: string -> string, email: string,
    sellerId: nat, purpose: string, code: string, created: int, ttlMinutes: int, now: int)
    requires forall j :: 0 <= j < |otps| && Candidate(otps[j], email, purpose) ==> otps[j].createdAt <= created
    requires now <= MinutesFromNow(created, ttlMinutes)
    ensures var row := OtpChallenge(|otps|, email, sellerId, purpose, sha256(code), created, MinutesFromNow(created, ttlMinutes), None);
      VerifyOutcome(otps + [row], sha256, email, code, purpose, now) == Verified(row)
  {
    var row := OtpChallenge(|otps|, email, sellerId, purpose, sha256(code), created, MinutesFromNow(created, ttlMinutes), None);
    var table := otps + [row];
    assert table[..|otps|] == otps;
    var earlier := Newest(otps, email, purpose);
    assert earlier.Some? ==> otps[earlier.value].createdAt <= created;
    assert Newest(table, email, purpose) == Some(|otps|);
  }

  /** Issuing a new code supersedes the older ones: only the newest challenge is ever compared. */
  lemma {:induction false} NewCodeSupersedesOld(otps: seq<OtpChallenge>, sha256: string -> string, email: string,
    sellerId: nat, purpose: string, code: string, oldCode: string, created: int, ttlMinutes: int, now: int)
    requires forall j :: 0 <= j < |otps| && Candidate(otps[j], email, purpose) ==> otps[j].createdAt <= created
    requires sha256(oldCode) != sha256(code)
    ensures var row := OtpChallenge(|otps|, email, sellerId, purpose, sha256(code), created, MinutesFromNow(created, ttlMinutes), None);
      VerifyOutcome(otps + [row], sha256, email, oldCode, purpose, now) == Rejected("Invalid OTP")
  {
    var row := OtpChallenge(|otps|, email, sellerId, purpose, sha256(code), created, MinutesFromNow(created, ttlMinutes), None);
    var table := otps + [row];
    assert table[..|otps|] == otps;
    var earlier := Newest(otps, email, purpose);
    assert earlier.Some? ==> otps[earlier.value].createdAt <= created;
    assert Newest(table, email, purpose) == Some(|otps|);
  }

  /** A challenge that verified is consumed: no later verification selects it again. */
  lemma ConsumedChallengeNotReselected(otps: seq<OtpChallenge>, sha256: string -> string, email: string,
    code: string, purpose: string, now: int, email2: string, purpose2: string)
    requires VerifyOutcome(otps, sha256, email, code, purpose, now).Verified?
    ensures var after := AfterVerify(otps, sha256, email, code, purpose, now);
      Newest(after, email2, purpose2) != Newest(otps, email, purpose)
  {
    var i := Newest(otps, email, purpose).value;
    var after := AfterVerify(otps, sha256, email, code, purpose, now);
    assert !Candidate(after[i], email2, purpose2);
  }

  /**
   * A code works once: when the verified challenge was the address's only
   * open one for the purpose, the same code is then answered "OTP not found".
   */
  lemma SingleUse(otps: seq<OtpChallenge>, sha256: string -> string, email: string, code: string,
    purpose: string, now: int, later: int)
    requires VerifyOutcome(otps, sha256, email, code, purpose, now).Verified?
    requires forall j :: 0 <= j < |otps| && Candidate(otps[j], email, purpose) ==> j == Newest(otps, email, purpose).value
    ensures var after := AfterVerify(otps, sha256, email, code, purpose, now);
      VerifyOutcome(after, sha256, email, code, purpose, later) == Rejected("OTP not found")
  {
    var i := Newest(otps, email, purpose).value;
    var after := AfterVerify(otps, sha256, email, code, purpose, now);
    forall j | 0 <= j < |after| ensures !Candidate(after[j], email, purpose) {
      if j != i { assert after[j] == otps[j]; }
    }
  }

  /** A code is still good at the very instant it expires and refused one millisecond later. */
  lemma ExpiryBoundaryInclusive(o: OtpChallenge, sha256: string -> string, code: string)
    requires Candidate(o, o.email, o.purpose) && o.codeHash == sha256(code)
    ensures VerifyOutcome([o], sha256, o.email, code, o.purpose, o.expiresAt) == Verified(o)
    ensures VerifyOutcome([o], sha256, o.email, code, o.purpose, o.expiresAt + 1) == Rejected("OTP expired")
  {
    assert Newest([o], o.email, o.purpose) == Some(0);
  }
}
