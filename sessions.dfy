/**
 * backend/src/services/sessionService.js: opaque access/refresh token
 * sessions. Tokens are stored only as their SHA-256 hex digests; the digest
 * function, the random tokens and the clock reading are parameters.
 */
module Sessions {
  import opened Wrappers
  import opened Time
  import opened Config
  import Seqs

  /** A row of the `sessions` collection; `id` is its position in the table. */
  datatype Session = Session(
    id: nat,
    sellerId: nat,
    accessTokenHash: string,
    refreshTokenHash: string,
    accessExpiresAt: int,
    refreshExpiresAt: int,
    sessionExpiresAt: int,
    createdAt: int,
    updatedAt: int,
    revokedAt: Option<int>,
    rotationCount: nat)

  /** What `createSession` hands back: the plain tokens, shown to the client once. */
  datatype IssuedSession = IssuedSession(
    sessionId: nat, accessToken: string, refreshToken: string, accessExpiresAt: int, refreshExpiresAt: int)

  /** What a successful `refreshSession` hands back. */
  datatype Refreshed = Refreshed(session: Session, accessToken: string, refreshToken: string)

  /** The filter of `authenticateAccessToken`. */
  predicate AccessMatch(s: Session, hash: string, now: int) {
    s.accessTokenHash == hash && s.revokedAt.None? && s.accessExpiresAt > now
  }

  /** The filter of `refreshSession`: both the refresh window and the absolute lifetime must be open. */
  predicate RefreshMatch(s: Session, hash: string, now: int) {
    s.refreshTokenHash == hash && s.revokedAt.None? && s.refreshExpiresAt > now && s.sessionExpiresAt > now
  }

  /** Every row sits at the position its id names. */
  ghost predicate IdsArePositions(sessions: seq<Session>) {
    forall i :: 0 <= i < |sessions| ==> sessions[i].id == i
  }

  /** Ids are positions, and each row's absolute lifetime is fixed by its creation time. */
  ghost predicate WellFormed(sessions: seq<Session>, maxLifeDays: int) {
    && IdsArePositions(sessions)
    && forall i :: 0 <= i < |sessions| ==>
      sessions[i].sessionExpiresAt == DaysFromNow(sessions[i].createdAt, maxLifeDays)
  }

  /** No two rows share an access-token digest. */
  ghost predicate DistinctAccessHashes(sessions: seq<Session>) {
    forall i, j :: 0 <= i < j < |sessions| ==> sessions[i].accessTokenHash != sessions[j].accessTokenHash
  }

  /** `authenticateAccessToken(token)`: the first unrevoked row whose access token matches and has not expired. */
  function AuthenticateAccessToken(sessions: seq<Session>, sha256: string -> string, token: string, now: int)
    : (r: Option<Session>)
    ensures r.Some? <==> exists i :: 0 <= i < |sessions| && AccessMatch(sessions[i], sha256(token), now)
    ensures r.Some? ==> r.value in sessions && AccessMatch(r.value, sha256(token), now)
    ensures r.Some? ==> r.value.revokedAt.None? && r.value.accessExpiresAt > now
  {
    match Seqs.Find(sessions, (s: Session) => AccessMatch(s, sha256(token), now))
    case None => None
    case Some(i) => Some(sessions[i])
  }

  /** The position of the row `refreshSession` would rotate for the refresh-token digest `hash`. */
  function FindRefreshable(sessions: seq<Session>, hash: string, now: int): (r: Option<nat>)
    ensures r.Some? ==> r.value < |sessions| && RefreshMatch(sessions[r.value], hash, now)
    ensures r.Some? ==> forall j :: 0 <= j < r.value ==> !RefreshMatch(sessions[j], hash, now)
    ensures r.None? <==> forall j :: 0 <= j < |sessions| ==> !RefreshMatch(sessions[j], hash, now)
  {
    Seqs.Find(sessions, (s: Session) => RefreshMatch(s, hash, now))
  }

  /** The row `createSession` inserts at `now`. */
  function NewSession(id: nat, sellerId: nat, accessHash: string, refreshHash: string, now: int, settings: Settings)
    : (s: Session)
    ensures s.revokedAt.None? && s.rotationCount == 0 && s.createdAt == now && s.updatedAt == now
    ensures s.accessExpiresAt == MinutesFromNow(now, settings.accessTokenTtlMinutes)
    ensures s.refreshExpiresAt == DaysFromNow(now, settings.refreshTokenTtlDays)
    ensures s.sessionExpiresAt == DaysFromNow(now, settings.sessionMaxLifeDays)
  {
    Session(id, sellerId, accessHash, refreshHash,
      MinutesFromNow(now, settings.accessTokenTtlMinutes),
      DaysFromNow(now, settings.refreshTokenTtlDays),
      DaysFromNow(now, settings.sessionMaxLifeDays),
      now, now, None, 0)
  }

  /**
   * The row after one rotation at `now`: new digests and new windows, one
   * more rotation; the absolute lifetime and everything else is kept.
   */
  function Rotated(s: Session, accessHash: string, refreshHash: string, now: int, settings: Settings): (t: Session)
    ensures t.id == s.id && t.sellerId == s.sellerId && t.createdAt == s.createdAt
    ensures t.sessionExpiresAt == s.sessionExpiresAt && t.revokedAt == s.revokedAt
    ensures t.accessTokenHash == accessHash && t.refreshTokenHash == refreshHash
    ensures t.accessExpiresAt == MinutesFromNow(now, settings.accessTokenTtlMinutes)
    ensures t.refreshExpiresAt == DaysFromNow(now, settings.refreshTokenTtlDays)
    ensures t.updatedAt == now && t.rotationCount == s.rotationCount + 1
  {
    s.(accessTokenHash := accessHash, refreshTokenHash := refreshHash,
       accessExpiresAt := MinutesFromNow(now, settings.accessTokenTtlMinutes),
       refreshExpiresAt := DaysFromNow(now, settings.refreshTokenTtlDays),
       updatedAt := now, rotationCount := s.rotationCount + 1)
  }

  /** The table after `revokeSessionById(id)` at `now`; an unknown id changes nothing. */
  function RevokeById(sessions: seq<Session>, id: nat, now: int): (r: seq<Session>)
    ensures |r| == |sessions|
    ensures forall j :: 0 <= j < |r| && j != id ==> r[j] == sessions[j]
    ensures id < |r| ==> r[id] == sessions[id].(revokedAt := Some(now), updatedAt := now)
  {
    if id < |sessions| then sessions[id := sessions[id].(revokedAt := Some(now), updatedAt := now)] else sessions
  }

  /** The first unrevoked row holding the access-token digest `hash`, whatever its expiry. */
  function FindUnrevokedAccess(sessions: seq<Session>, hash: string): (r: Option<nat>)
    ensures r.Some? ==> r.value < |sessions| && sessions[r.value].accessTokenHash == hash && sessions[r.value].revokedAt.None?
    ensures r.None? <==> forall j :: 0 <= j < |sessions| ==> !(sessions[j].accessTokenHash == hash && sessions[j].revokedAt.None?)
  {
    Seqs.Find(sessions, (s: Session) => s.accessTokenHash == hash && s.revokedAt.None?)
  }

  /** The table after `revokeSessionByAccessToken(token)` at `now`: only `revokedAt` is set, not `updatedAt`. */
  function RevokeByAccess(sessions: seq<Session>, hash: string, now: int): (r: seq<Session>)
    ensures |r| == |sessions|
    ensures FindUnrevokedAccess(sessions, hash).None? ==> r == sessions
    ensures FindUnrevokedAccess(sessions, hash).Some? ==>
      var i := FindUnrevokedAccess(sessions, hash).value;
      r == sessions[i := sessions[i].(revokedAt := Some(now))]
  {
    match FindUnrevokedAccess(sessions, hash)
    case None => sessions
    case Some(i) => sessions[i := sessions[i].(revokedAt := Some(now))]
  }

  /** The `sessions` collection, with the digest function and the settings it is used under. */
  class SessionStore {
    const sha256: string -> string
    const settings: Settings
    var sessions: seq<Session>

    ghost predicate Valid()
      reads this
    {
      WellFormed(sessions, settings.sessionMaxLifeDays)
    }

    constructor (sha256: string -> string, settings: Settings)
      ensures Valid() && sessions == [] && this.sha256 == sha256 && this.settings == settings
    {
      this.sha256 := sha256;
      this.settings := settings;
      sessions := [];
    }

    /** `createSession(sellerId)` with the two random tokens given. */
    method CreateSession(sellerId: nat, accessToken: string, refreshToken: string, now: int)
      returns (issued: IssuedSession)
      requires Valid()
      modifies this
      ensures Valid()
      ensures sessions == old(sessions) + [NewSession(|old(sessions)|, sellerId, sha256(accessToken), sha256(refreshToken), now, settings)]
      ensures issued == IssuedSession(|old(sessions)|, accessToken, refreshToken,
        MinutesFromNow(now, settings.accessTokenTtlMinutes), DaysFromNow(now, settings.refreshTokenTtlDays))
    {
      var row := NewSession(|sessions|, sellerId, sha256(accessToken), sha256(refreshToken), now, settings);
      sessions := sessions + [row];
      issued := IssuedSession(row.id, accessToken, refreshToken, row.accessExpiresAt, row.refreshExpiresAt);
    }

    /** `refreshSession(refreshToken)` with the two new random tokens given; None when no row qualifies. */
    method RefreshSession(refreshToken: string, newAccessToken: string, newRefreshToken: string, now: int)
      returns (r: Option<Refreshed>)
      requires Valid()
      modifies this
      ensures Valid()
      ensures FindRefreshable(old(sessions), sha256(refreshToken), now).None? ==> r.None? && sessions == old(sessions)
      ensures FindRefreshable(old(sessions), sha256(refreshToken), now).Some? ==>
        var i := FindRefreshable(old(sessions), sha256(refreshToken), now).value;
        && sessions == old(sessions)[i := Rotated(old(sessions)[i], sha256(newAccessToken), sha256(newRefreshToken), now, settings)]
        && r == Some(Refreshed(sessions[i], newAccessToken, newRefreshToken))
    {
      var found := FindRefreshable(sessions, sha256(refreshToken), now);
      if found.None? {
        return None;
      }
      var i := found.value;
      var updated := Rotated(sessions[i], sha256(newAccessToken), sha256(newRefreshToken), now, settings);
      sessions := sessions[i := updated];
      r := Some(Refreshed(updated, newAccessToken, newRefreshToken));
    }

    /** `revokeSessionById(id)`. */
    method RevokeSessionById(id: nat, now: int)
      requires Valid()
      modifies this
      ensures Valid()
      ensures sessions == RevokeById(old(sessions), id, now)
    {
      sessions := RevokeById(sessions, id, now);
    }

    /** `revokeSessionByAccessToken(token)`. */
    method RevokeSessionByAccessToken(token: string, now: int)
      requires Valid()
      modifies this
      ensures Valid()
      ensures sessions == RevokeByAccess(old(sessions), sha256(token), now)
    {
      sessions := RevokeByAccess(sessions, sha256(token), now);
    }
  }

  /**
   * A freshly issued access token opens the new session until it expires,
   * provided no older row carries the same digest.
   */
  lemma IssuedAccessTokenAuthenticates(
    sessions: seq<Session>, sha256: string -> string, sellerId: nat, accessToken: string, refreshHash: string,
    created: int, settings: Settings, now: int)
    requires forall i :: 0 <= i < |sessions| ==> sessions[i].accessTokenHash != sha256(accessToken)
    requires created <= now < MinutesFromNow(created, settings.accessTokenTtlMinutes)
    ensures var row := NewSession(|sessions|, sellerId, sha256(accessToken), refreshHash, created, settings);
      AuthenticateAccessToken(sessions + [row], sha256, accessToken, now) == Some(row)
  {
    var row := NewSession(|sessions|, sellerId, sha256(accessToken), refreshHash, created, settings);
    var table := sessions + [row];
    assert AccessMatch(table[|sessions|], sha256(accessToken), now);
    forall j | 0 <= j < |sessions| ensures !AccessMatch(table[j], sha256(accessToken), now) {
      assert table[j] == sessions[j];
    }
  }

  /** A freshly issued refresh token can be redeemed within both of its windows. */
  lemma IssuedRefreshTokenRedeemable(
    sessions: seq<Session>, sellerId: nat, accessHash: string, refreshHash: string,
    created: int, settings: Settings, now: int)
    requires forall i :: 0 <= i < |sessions| ==> sessions[i].refreshTokenHash != refreshHash
    requires now < DaysFromNow(created, settings.refreshTokenTtlDays)
    requires now < DaysFromNow(created, settings.sessionMaxLifeDays)
    ensures var row := NewSession(|sessions|, sellerId, accessHash, refreshHash, created, settings);
      FindRefreshable(sessions + [row], refreshHash, now) == Some(|sessions|)
  {
    var row := NewSession(|sessions|, sellerId, accessHash, refreshHash, created, settings);
    var table := sessions + [row];
    assert RefreshMatch(table[|sessions|], refreshHash, now);
    forall j | 0 <= j < |sessions| ensures !RefreshMatch(table[j], refreshHash, now) {
      assert table[j] == sessions[j];
    }
  }

  /**
   * Rotation retires the presented refresh token: once row `i` is rotated,
   * its old refresh-token digest no longer matches any row, at any time,
   * provided it was held by that row alone and the new digest differs.
   */
  lemma RotationRetiresOldRefreshToken(
    sessions: seq<Session>, i: nat, newAccessHash: string, newRefreshHash: string, now: int, settings: Settings, later: int)
    requires i < |sessions|
    requires forall j :: 0 <= j < |sessions| && j != i ==> sessions[j].refreshTokenHash != sessions[i].refreshTokenHash
    requires newRefreshHash != sessions[i].refreshTokenHash
    ensures var rotated := sessions[i := Rotated(sessions[i], newAccessHash, newRefreshHash, now, settings)];
      FindRefreshable(rotated, sessions[i].refreshTokenHash, later).None?
  {
    var retired := sessions[i].refreshTokenHash;
    var rotated := sessions[i := Rotated(sessions[i], newAccessHash, newRefreshHash, now, settings)];
    forall j | 0 <= j < |rotated| ensures !RefreshMatch(rotated[j], retired, later) {
      if j != i { assert rotated[j] == sessions[j]; }
    }
  }

  /** Rotation also retires the old access token, under the same uniqueness conditions. */
  lemma RotationRetiresOldAccessToken(
    sessions: seq<Session>, sha256: string -> string, oldAccessToken: string, i: nat,
    newAccessHash: string, newRefreshHash: string, now: int, settings: Settings, later: int)
    requires i < |sessions| && sessions[i].accessTokenHash == sha256(oldAccessToken)
    requires forall j :: 0 <= j < |sessions| && j != i ==> sessions[j].accessTokenHash != sha256(oldAccessToken)
    requires newAccessHash != sha256(oldAccessToken)
    ensures var rotated := sessions[i := Rotated(sessions[i], newAccessHash, newRefreshHash, now, settings)];
      AuthenticateAccessToken(rotated, sha256, oldAccessToken, later).None?
  {
    var rotated := sessions[i := Rotated(sessions[i], newAccessHash, newRefreshHash, now, settings)];
    forall j | 0 <= j < |rotated| ensures !AccessMatch(rotated[j], sha256(oldAccessToken), later) {
      if j != i { assert rotated[j] == sessions[j]; }
    }
  }

  /**
   * After a rotation at `now` the new refresh token redeems the same row
   * until its new refresh window or the unchanged absolute lifetime closes.
   */
  lemma RotatedRefreshTokenRedeemable(
    sessions: seq<Session>, i: nat, newAccessHash: string, newRefreshHash: string, now: int, settings: Settings, later: int)
    requires i < |sessions| && sessions[i].revokedAt.None?
    requires forall j :: 0 <= j < |sessions| && j != i ==> sessions[j].refreshTokenHash != newRefreshHash
    requires later < DaysFromNow(now, settings.refreshTokenTtlDays) && later < sessions[i].sessionExpiresAt
    ensures var rotated := sessions[i := Rotated(sessions[i], newAccessHash, newRefreshHash, now, settings)];
      FindRefreshable(rotated, newRefreshHash, later) == Some(i)
  {
    var rotated := sessions[i := Rotated(sessions[i], newAccessHash, newRefreshHash, now, settings)];
    assert RefreshMatch(rotated[i], newRefreshHash, later);
    forall j | 0 <= j < |rotated| && j != i ensures !RefreshMatch(rotated[j], newRefreshHash, later) {
      assert rotated[j] == sessions[j];
    }
  }

  /**
   * Rotation never extends a session: whatever chain of refreshes follows,
   * a refresh succeeds only before the creation time plus the maximum life.
   */
  lemma {:induction false} RefreshBoundedByMaxLife(sessions: seq<Session>, maxLifeDays: int, hash: string, now: int)
    requires WellFormed(sessions, maxLifeDays)
    requires FindRefreshable(sessions, hash, now).Some?
    ensures var i := FindRefreshable(sessions, hash, now).value;
      now < DaysFromNow(sessions[i].createdAt, maxLifeDays)
  {
    var i := FindRefreshable(sessions, hash, now).value;
    assert sessions[i].sessionExpiresAt == DaysFromNow(sessions[i].createdAt, maxLifeDays);
  }

  /** Rotating a row keeps the table well formed. */
  lemma RotationKeepsWellFormed(
    sessions: seq<Session>, i: nat, accessHash: string, refreshHash: string, now: int, settings: Settings)
    requires WellFormed(sessions, settings.sessionMaxLifeDays) && i < |sessions|
    ensures WellFormed(sessions[i := Rotated(sessions[i], accessHash, refreshHash, now, settings)], settings.sessionMaxLifeDays)
  {
  }

  /** A session revoked by id can never again be authenticated or refreshed, under any token at any time. */
  lemma RevokedByIdIsDead(sessions: seq<Session>, id: nat, now: int, sha256: string -> string, token: string, hash: string, later: int)
    requires id < |sessions|
    requires IdsArePositions(sessions)
    ensures var r := RevokeById(sessions, id, now);
      && (AuthenticateAccessToken(r, sha256, token, later).Some? ==> AuthenticateAccessToken(r, sha256, token, later).value.id != id)
      && (FindRefreshable(r, hash, later).Some? ==> FindRefreshable(r, hash, later).value != id)
  {
    var r := RevokeById(sessions, id, now);
    var a := AuthenticateAccessToken(r, sha256, token, later);
    if a.Some? {
      var k :| 0 <= k < |r| && r[k] == a.value;
      assert k != id;
    }
  }

  /**
   * Logging out with an access token leaves no row that token opens, when
   * access digests are unique.
   */
  lemma LogoutEndsAccess(sessions: seq<Session>, sha256: string -> string, token: string, now: int, later: int)
    requires DistinctAccessHashes(sessions)
    ensures AuthenticateAccessToken(RevokeByAccess(sessions, sha256(token), now), sha256, token, later).None?
  {
    var hash := sha256(token);
    var r := RevokeByAccess(sessions, hash, now);
    forall j | 0 <= j < |r| ensures !AccessMatch(r[j], hash, later) {
      var f := FindUnrevokedAccess(sessions, hash);
      if f.Some? && j != f.value {
        var i := f.value;
        assert r[j] == sessions[j];
        if j < i {
          assert sessions[j].accessTokenHash != sessions[i].accessTokenHash;
        } else {
          assert sessions[i].accessTokenHash != sessions[j].accessTokenHash;
        }
      }
    }
  }

  /** The row a logout revokes can no longer be refreshed, under any refresh token at any time. */
  lemma LogoutEndsRefresh(sessions: seq<Session>, hash: string, now: int, refreshHash: string, later: int)
    requires FindUnrevokedAccess(sessions, hash).Some?
    ensures var i := FindUnrevokedAccess(sessions, hash).value;
      var found := FindRefreshable(RevokeByAccess(sessions, hash, now), refreshHash, later);
      found.Some? ==> found.value != i
  {
    var i := FindUnrevokedAccess(sessions, hash).value;
    var r := RevokeByAccess(sessions, hash, now);
    assert r[i].revokedAt == Some(now);
  }
}
