/** The revocation denylist (packages/auth/src/session-revocation.ts) and what it covers over time. */
module SessionRevocation {
  import opened Common
  import opened Redis

  const ACCESS_TOKEN_TTL_SECONDS := 15 * 60
  const CLOCK_SKEW_MARGIN_SECONDS := 60
  const REVOCATION_TTL_SECONDS: nat := ACCESS_TOKEN_TTL_SECONDS + CLOCK_SKEW_MARGIN_SECONDS

  datatype Claims = Claims(sub: UserId, sid: Sid, iat: Option<int>)

  datatype Reason = SessionRevoked | SessionsSuperseded

  /** Seconds since the epoch. */
  function Seconds(ms: int): int {
    ms / 1000
  }

  /** What the read path answers when Redis answers it. */
  function Revocation(k: Keyspace, claims: Claims): Option<Reason> {
    if claims.sid in k.revokedSids then Some(SessionRevoked)
    else if claims.sub in k.revokedBefore && claims.iat.Some? && claims.iat.value < k.revokedBefore[claims.sub].value
    then Some(SessionsSuperseded)
    else None
  }

  class SessionRevocationStore {
    const redis: Server
    const ttlSeconds: nat

    constructor (redis: Server, ttlSeconds: nat)
      ensures this.redis == redis && this.ttlSeconds == ttlSeconds
    {
      this.redis := redis;
      this.ttlSeconds := ttlSeconds;
    }

    method RevokeSession(sid: Sid)
      modifies redis
      ensures redis.State() == AfterRevokeSid(old(redis.State()), sid, ttlSeconds)
    {
      redis.SetRevokedSid(sid, ttlSeconds);
    }

    method RevokeAllForUser(user: UserId)
      modifies redis
      ensures redis.State() == AfterSetBefore(old(redis.State()), user, Seconds(old(redis.now)), ttlSeconds)
    {
      var nowSec := redis.now / 1000;
      redis.SetRevokedBefore(user, nowSec, ttlSeconds);
    }

    method SealRevokedBefore(user: UserId, atEpochSeconds: int) returns (raised: bool)
      modifies redis
      ensures redis.State() == AfterSeal(old(redis.State()), user, atEpochSeconds, ttlSeconds)
      ensures raised == SealRaises(old(redis.State()), user, atEpochSeconds)
    {
      raised := redis.EvalSeal(user, atEpochSeconds, ttlSeconds);
    }

    /** `answered` is false when Redis fails or is too slow: the check then lets the token through. */
    method IsRevoked(claims: Claims, answered: bool) returns (reason: Option<Reason>)
      ensures reason == if answered then Revocation(redis.State(), claims) else None
      ensures reason == Some(SessionRevoked) <==> answered && claims.sid in redis.revokedSids
      ensures reason == Some(SessionsSuperseded) <==>
                answered && claims.sid !in redis.revokedSids && claims.sub in redis.revokedBefore &&
                claims.iat.Some? && claims.iat.value < redis.revokedBefore[claims.sub].value
    {
      if !answered {
        return None;
      }
      if claims.sid in redis.revokedSids {
        return Some(SessionRevoked);
      }
      if claims.sub in redis.revokedBefore && claims.iat.Some? {
        var revokedBefore := redis.revokedBefore[claims.sub].value;
        if claims.iat.value < revokedBefore {
          return Some(SessionsSuperseded);
        }
      }
      return None;
    }
  }

  // ---------------------------------------------------------------- histories of the denylist

  datatype Write =
    | Elapse(to: int)
    | RevokeSession(sid: Sid)
    | RevokeAll(user: UserId)
    | Seal(user: UserId, at: int)

  function After(k: Keyspace, w: Write): Keyspace {
    match w
    case Elapse(to) => AfterElapse(k, to)
    case RevokeSession(sid) => AfterRevokeSid(k, sid, REVOCATION_TTL_SECONDS)
    case RevokeAll(user) => AfterSetBefore(k, user, Seconds(k.now), REVOCATION_TTL_SECONDS)
    case Seal(user, at) => AfterSeal(k, user, at, REVOCATION_TTL_SECONDS)
  }

  /** Time does not run backwards. */
  predicate Possible(k: Keyspace, w: Write) {
    w.Elapse? ==> k.now <= w.to
  }

  function AfterAll(k: Keyspace, ws: seq<Write>): Keyspace
    decreases |ws|
  {
    if ws == [] then k else AfterAll(After(k, ws[0]), ws[1..])
  }

  predicate AllPossible(k: Keyspace, ws: seq<Write>)
    decreases |ws|
  {
    ws == [] || (Possible(k, ws[0]) && AllPossible(After(k, ws[0]), ws[1..]))
  }

  /** An access token is accepted by its signature check until 900 seconds after its issue. */
  predicate Unexpired(k: Keyspace, iat: int) {
    Seconds(k.now) < iat + ACCESS_TOKEN_TTL_SECONDS
  }

  /** A token of this user issued before `v` gets through neither check. */
  predicate Shut(k: Keyspace, claims: Claims)
    requires claims.iat.Some?
  {
    !Unexpired(k, claims.iat.value) || Revocation(k, claims).Some?
  }

  /** No later history of the denylist lets through a token of `user` issued before second `v`. */
  ghost predicate CoveredForever(k: Keyspace, user: UserId, v: int) {
    forall ws, claims: Claims ::
      AllPossible(k, ws) && claims.sub == user && claims.iat.Some? && claims.iat.value < v ==>
        Shut(AfterAll(k, ws), claims)
  }

  /** The millisecond at which the last token issued before second `v` is past its life. */
  function LastExpiry(v: int): int {
    (v - 1 + ACCESS_TOKEN_TTL_SECONDS) * 1000
  }

  /** A seal at `v` or above that outlives every token issued before `v`, or no such token left alive. */
  predicate Guarded(k: Keyspace, user: UserId, v: int) {
    && v <= Seconds(k.now)
    && (k.now >= LastExpiry(v) ||
        (user in k.revokedBefore && k.revokedBefore[user].value >= v &&
          k.revokedBefore[user].expiresAt + 1 >= LastExpiry(v)))
  }

  lemma {:induction false} GuardKept(k: Keyspace, w: Write, user: UserId, v: int)
    requires Guarded(k, user, v) && Possible(k, w)
    ensures Guarded(After(k, w), user, v)
  {
  }

  lemma {:induction false} GuardKeptAll(k: Keyspace, ws: seq<Write>, user: UserId, v: int)
    requires Guarded(k, user, v) && AllPossible(k, ws)
    ensures Guarded(AfterAll(k, ws), user, v)
    decreases |ws|
  {
    if ws != [] {
      GuardKept(k, ws[0], user, v);
      GuardKeptAll(After(k, ws[0]), ws[1..], user, v);
    }
  }

  lemma {:induction false} GuardedIsCovered(k: Keyspace, user: UserId, v: int)
    requires Guarded(k, user, v)
    ensures CoveredForever(k, user, v)
  {
    forall ws, claims: Claims |
      AllPossible(k, ws) && claims.sub == user && claims.iat.Some? && claims.iat.value < v
      ensures Shut(AfterAll(k, ws), claims)
    {
      GuardKeptAll(k, ws, user, v);
    }
  }

  /**
    A seal `v` not in the future covers every token issued before it, for ever and whatever is written next, exactly
    when the call does not find a higher seal that is about to expire.
   */
  lemma {:induction false} SealCoverage(k: Keyspace, user: UserId, v: int)
    requires v <= Seconds(k.now)
    requires user in k.revokedBefore ==> k.revokedBefore[user].expiresAt >= k.now
    ensures CoveredForever(AfterSeal(k, user, v, REVOCATION_TTL_SECONDS), user, v) <==>
            (user !in k.revokedBefore || k.revokedBefore[user].value < v ||
              k.revokedBefore[user].expiresAt + 1 >= LastExpiry(v))
    ensures SealRaises(k, user, v) <==> user !in k.revokedBefore || k.revokedBefore[user].value < v
    ensures !SealRaises(k, user, v) ==> AfterSeal(k, user, v, REVOCATION_TTL_SECONDS) == k
  {
    var k' := AfterSeal(k, user, v, REVOCATION_TTL_SECONDS);
    if SealRaises(k, user, v) || k.revokedBefore[user].expiresAt + 1 >= LastExpiry(v) {
      GuardedIsCovered(k', user, v);
    } else {
      // The old seal expires; a token issued in the last second before `v` is still alive then.
      var ws := [Elapse(k.revokedBefore[user].expiresAt + 1)];
      assert AfterAll(k', ws) == After(k', ws[0]) by {
        assert ws[1..] == [];
      }
      assert AllPossible(k', ws);
      var sid := Unused(AfterAll(k', ws).revokedSids.Keys);
      var claims := Claims(user, sid, Some(v - 1));
      assert !Shut(AfterAll(k', ws), claims);
    }
  }

  /** Sealing "now", as `revokeAllForUser` does, covers without any condition. */
  lemma {:induction false} RevokeAllCovers(k: Keyspace, user: UserId)
    ensures CoveredForever(After(k, RevokeAll(user)), user, Seconds(k.now))
  {
    GuardedIsCovered(After(k, RevokeAll(user)), user, Seconds(k.now));
  }

  /** Every seal in the history is dated no later than the second it is written in. */
  predicate SealsInThePast(k: Keyspace, ws: seq<Write>)
    decreases |ws|
  {
    ws == [] || ((ws[0].Seal? ==> ws[0].at <= Seconds(k.now)) && SealsInThePast(After(k, ws[0]), ws[1..]))
  }

  /** Each seal outlives, with the skew margin to spare, the last token it revokes. */
  predicate SealsOutlive(k: Keyspace) {
    forall user :: user in k.revokedBefore ==>
      k.revokedBefore[user].expiresAt >= (k.revokedBefore[user].value + REVOCATION_TTL_SECONDS) * 1000
  }

  lemma {:induction false} SealsOutliveKept(k: Keyspace, ws: seq<Write>)
    requires SealsOutlive(k) && AllPossible(k, ws) && SealsInThePast(k, ws)
    ensures SealsOutlive(AfterAll(k, ws))
    decreases |ws|
  {
    if ws != [] {
      SealsOutliveKept(After(k, ws[0]), ws[1..]);
    }
  }

  /** With no future-dated seal in the history, a seal always covers. */
  lemma {:induction false} PastSealsAlwaysCover(ws: seq<Write>, user: UserId, v: int)
    requires AllPossible(EMPTY, ws) && SealsInThePast(EMPTY, ws)
    requires v <= Seconds(AfterAll(EMPTY, ws).now)
    ensures CoveredForever(AfterSeal(AfterAll(EMPTY, ws), user, v, REVOCATION_TTL_SECONDS), user, v)
  {
    SealsOutliveKept(EMPTY, ws);
    GuardedIsCovered(AfterSeal(AfterAll(EMPTY, ws), user, v, REVOCATION_TTL_SECONDS), user, v);
  }

  /**
    Without that restriction it does not: after a seal dated 1000 written at 0, one dated 900 written at 900 s covers
    nothing.
   */
  lemma {:induction false} FutureSealLeavesGap()
    ensures var k := AfterAll(EMPTY, [Seal(7, 1000), Elapse(900 * 1000)]);
            !CoveredForever(AfterSeal(k, 7, 900, REVOCATION_TTL_SECONDS), 7, 900)
  {
    var ws := [Seal(7, 1000), Elapse(900 * 1000)];
    var k1 := After(EMPTY, ws[0]);
    var k := After(k1, ws[1]);
    assert ws[1..] == [ws[1]] && ws[1..][1..] == [];
    assert AfterAll(EMPTY, ws) == AfterAll(k1, ws[1..]) == AfterAll(k, []) == k;
    assert k.revokedBefore[7] == Stored(1000, 960 * 1000);
    SealCoverage(k, 7, 900);
  }

  // ---------------------------------------------------------------- one session

  /** Neither revoking the sid again nor any other write: only these tokens matter. */
  ghost predicate SidCoveredForever(k: Keyspace, sid: Sid, latest: int) {
    forall ws, claims: Claims ::
      AllPossible(k, ws) && claims.sid == sid && claims.iat.Some? && claims.iat.value <= latest ==>
        Shut(AfterAll(k, ws), claims)
  }

  predicate SidGuarded(k: Keyspace, sid: Sid, latest: int) {
    k.now >= LastExpiry(latest + 1) || (sid in k.revokedSids && k.revokedSids[sid] + 1 >= LastExpiry(latest + 1))
  }

  lemma {:induction false} SidGuardKept(k: Keyspace, ws: seq<Write>, sid: Sid, latest: int, since: int)
    requires SidGuarded(k, sid, latest) && AllPossible(k, ws)
    requires since <= k.now && LastExpiry(latest + 1) <= since + REVOCATION_TTL_SECONDS * 1000 + 1
    ensures SidGuarded(AfterAll(k, ws), sid, latest)
    decreases |ws|
  {
    if ws != [] {
      SidGuardKept(After(k, ws[0]), ws[1..], sid, latest, since);
    }
  }

  /**
    A revoked sid stays shut for every token issued up to `latest` exactly when that is at most 60 seconds (the skew
    margin) after the second of the first millisecond past the revocation.
   */
  lemma {:induction false} RevokedSidCoverage(k: Keyspace, sid: Sid, latest: int)
    ensures SidCoveredForever(After(k, RevokeSession(sid)), sid, latest) <==>
            latest <= Seconds(k.now + 1) + CLOCK_SKEW_MARGIN_SECONDS
  {
    var k' := After(k, RevokeSession(sid));
    if latest <= Seconds(k.now + 1) + CLOCK_SKEW_MARGIN_SECONDS {
      forall ws, claims: Claims |
        AllPossible(k', ws) && claims.sid == sid && claims.iat.Some? && claims.iat.value <= latest
        ensures Shut(AfterAll(k', ws), claims)
      {
        SidGuardKept(k', ws, sid, latest, k.now);
      }
    } else {
      var ws := [Elapse(k.now + REVOCATION_TTL_SECONDS * 1000 + 1)];
      assert ws[1..] == [];
      assert AfterAll(k', ws) == After(k', ws[0]);
      var user := Unused(AfterAll(k', ws).revokedBefore.Keys);
      assert AllPossible(k', ws);
      assert !Shut(AfterAll(k', ws), Claims(user, sid, Some(latest)));
    }
  }
}
