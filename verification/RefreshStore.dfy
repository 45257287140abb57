/** The refresh-token store (packages/auth/src/refresh-store.ts), one uninterrupted call at a time. */
module RefreshStore {
  import opened Common
  import opened Redis
  import R = SessionRevocation

  datatype RefreshError = SessionRevoked | TokenReuseDetected

  datatype Result<T> = Ok(value: T) | Err(error: RefreshError)

  datatype RotationResult = RotationResult(sessionId: Sid, newJti: Jti)

  /** One line of the session list: the sid and its last activity in milliseconds. */
  datatype Listed = Listed(id: Sid, lastActiveAt: int)

  /** Time to live and grace window; `denyTtlSeconds` is absent when no denylist is wired. */
  datatype Config = Config(ttlSeconds: nat, graceMs: int, denyTtlSeconds: Option<nat>)

  function AfterDeny(c: Config, k: Keyspace, sid: Sid): Keyspace {
    if c.denyTtlSeconds.Some? then AfterRevokeSid(k, sid, c.denyTtlSeconds.value) else k
  }

  /** GET, DEL, SREM from the index of the user the record names, denylist. */
  function AfterRevoke(c: Config, k: Keyspace, sid: Sid): Keyspace {
    var k1 := AfterDelSessions(k, {sid});
    AfterDeny(c, if sid in k.sessions then AfterSrem(k1, k.sessions[sid].value.userId, sid) else k1, sid)
  }

  function AfterRotateCall(c: Config, k: Keyspace, sid: Sid, presented: Jti, newJti: Jti): Keyspace {
    if RotateVerdict(k, sid, presented, newJti, c.graceMs) == Reuse then AfterRevoke(c, k, sid)
    else AfterRotate(k, sid, presented, newJti, c.ttlSeconds)
  }

  /** SMEMBERS, DEL of those records, DEL of the index, seal at this second. */
  function AfterRevokeAll(c: Config, k: Keyspace, user: UserId): Keyspace {
    var k1 := AfterDelIndex(AfterDelSessions(k, Members(k, user)), user);
    if c.denyTtlSeconds.Some? then AfterSetBefore(k1, user, R.Seconds(k.now), c.denyTtlSeconds.value) else k1
  }

  /** The sids of the user's index whose record exists. */
  function IndexedSessions(k: Keyspace, user: UserId): set<Sid> {
    Members(k, user) * k.sessions.Keys
  }

  function LastActivity(record: SessionRecord): int {
    if record.rotatedAt.Some? then record.rotatedAt.value else record.createdAt
  }

  /** The listed lines of these sids: one for each whose record exists, in order. */
  function ListedOf(k: Keyspace, sids: seq<Sid>): seq<Listed> {
    if sids == [] then []
    else
      var sid := sids[|sids| - 1];
      ListedOf(k, sids[..|sids| - 1]) +
      (if sid in k.sessions then [Listed(sid, LastActivity(k.sessions[sid].value))] else [])
  }

  lemma {:induction false} ListedOneMore(k: Keyspace, sids: seq<Sid>, sid: Sid)
    ensures ListedOf(k, sids + [sid]) ==
            ListedOf(k, sids) + (if sid in k.sessions then [Listed(sid, LastActivity(k.sessions[sid].value))] else [])
  {
    assert (sids + [sid])[..|sids|] == sids;
  }

  lemma {:induction false} ListedIsLive(k: Keyspace, sids: seq<Sid>)
    requires forall i, j :: 0 <= i < j < |sids| ==> sids[i] != sids[j]
    ensures forall i, j :: 0 <= i < j < |ListedOf(k, sids)| ==> ListedOf(k, sids)[i].id != ListedOf(k, sids)[j].id
    ensures forall l :: l in ListedOf(k, sids) <==>
              l.id in sids && l.id in k.sessions && l.lastActiveAt == LastActivity(k.sessions[l.id].value)
  {
    if sids != [] {
      var front, sid := sids[..|sids| - 1], sids[|sids| - 1];
      ListedIsLive(k, front);
      assert sids == front + [sid];
      assert sid !in front;
      ListedOneMore(k, front, sid);
      assert forall i :: 0 <= i < |ListedOf(k, front)| ==> ListedOf(k, front)[i] in ListedOf(k, front);
    }
  }

  class RedisRefreshTokenStore {
    const redis: Server
    const ttlSeconds: nat
    const revocation: R.SessionRevocationStore?
    const graceWindowMs: int

    ghost predicate Valid() {
      revocation != null ==> revocation.redis == redis
    }

    function Settings(): Config {
      Config(ttlSeconds, graceWindowMs, if revocation == null then None else Some(revocation.ttlSeconds))
    }

    constructor (redis: Server, ttlSeconds: nat, revocation: R.SessionRevocationStore?, graceWindowMs: int)
      requires revocation != null ==> revocation.redis == redis
      ensures Valid() && this.redis == redis
      ensures Settings() ==
              Config(ttlSeconds, graceWindowMs, if revocation == null then None else Some(revocation.ttlSeconds))
    {
      this.redis := redis;
      this.ttlSeconds := ttlSeconds;
      this.revocation := revocation;
      this.graceWindowMs := graceWindowMs;
    }

    /** `sessionId` and `newJti` are the two generated identifiers. */
    method CreateSession(user: UserId, sessionId: Sid, newJti: Jti) returns (r: RotationResult)
      requires Valid()
      modifies redis
      ensures redis.State() == AfterCreate(old(redis.State()), user, sessionId, newJti, ttlSeconds)
      ensures r == RotationResult(sessionId, newJti)
    {
      redis.Create(user, sessionId, newJti, ttlSeconds);
      r := RotationResult(sessionId, newJti);
    }

    method Rotate(sessionId: Sid, presentedJti: Jti, newJti: Jti) returns (r: Result<RotationResult>)
      requires Valid()
      modifies redis
      ensures redis.State() == AfterRotateCall(Settings(), old(redis.State()), sessionId, presentedJti, newJti)
      ensures match RotateVerdict(old(redis.State()), sessionId, presentedJti, newJti, graceWindowMs)
              case Missing => r == Err(SessionRevoked)
              case Reuse => r == Err(TokenReuseDetected) && sessionId !in redis.sessions
              case Rotated(jti) => r == Ok(RotationResult(sessionId, jti)) &&
                redis.sessions[sessionId].value.currentJti == jti
              case Grace(jti) => r == Ok(RotationResult(sessionId, jti)) && redis.State() == old(redis.State())
    {
      var verdict := redis.EvalRotate(sessionId, presentedJti, newJti, ttlSeconds, graceWindowMs);
      match verdict {
        case Missing =>
          return Err(SessionRevoked);
        case Reuse =>
          Revoke(sessionId);
          return Err(TokenReuseDetected);
        case Rotated(jti) =>
          return Ok(RotationResult(sessionId, jti));
        case Grace(jti) =>
          return Ok(RotationResult(sessionId, jti));
      }
    }

    method Revoke(sessionId: Sid)
      requires Valid()
      modifies redis
      ensures redis.State() == AfterRevoke(Settings(), old(redis.State()), sessionId)
    {
      var raw := redis.Get(sessionId);
      var _ := redis.DelSessions({sessionId});
      if raw.Some? {
        redis.Srem(raw.value.userId, sessionId);
      }
      if revocation != null {
        revocation.RevokeSession(sessionId);
      }
    }

    method RevokeAllForUser(user: UserId) returns (revoked: nat)
      requires Valid()
      modifies redis
      ensures redis.State() == AfterRevokeAll(Settings(), old(redis.State()), user)
      ensures revoked == |IndexedSessions(old(redis.State()), user)|
    {
      var sids := redis.Smembers(user);
      ghost var members := Members(redis.State(), user);
      revoked := 0;
      if |sids| > 0 {
        var keys := set sid | sid in sids;
        assert keys == members;
        assert old(redis.sessions).Keys * keys == IndexedSessions(old(redis.State()), user);
        revoked := redis.DelSessions(keys);
      } else {
        assert members == {} by {
          if sid :| sid in members {
            assert sid in sids;
          }
        }
        assert AfterDelSessions(old(redis.State()), {}) == old(redis.State()) by {
          assert (map sid | sid in redis.sessions && sid !in {} :: redis.sessions[sid]) == redis.sessions;
        }
        assert IndexedSessions(old(redis.State()), user) == {};
      }
      redis.DelIndex(user);
      if revocation != null {
        revocation.RevokeAllForUser(user);
      }
    }

    method ResealRevokedBefore(user: UserId, atEpochSeconds: int) returns (raised: bool)
      requires Valid()
      modifies redis
      ensures redis.State() == if revocation == null then old(redis.State())
                               else AfterSeal(old(redis.State()), user, atEpochSeconds, revocation.ttlSeconds)
      ensures raised == (revocation != null && SealRaises(old(redis.State()), user, atEpochSeconds))
    {
      raised := false;
      if revocation != null {
        raised := revocation.SealRevokedBefore(user, atEpochSeconds);
      }
    }

    method ListSessionsForUser(user: UserId) returns (sessions: seq<Listed>)
      requires Valid()
      ensures forall i, j :: 0 <= i < j < |sessions| ==> sessions[i].id != sessions[j].id
      ensures forall l :: l in sessions <==>
                l.id in IndexedSessions(redis.State(), user) &&
                  l.lastActiveAt == LastActivity(redis.sessions[l.id].value)
    {
      var sids := redis.Smembers(user);
      sessions := [];
      for i := 0 to |sids|
        invariant sessions == ListedOf(redis.State(), sids[..i])
      {
        assert sids[..i + 1] == sids[..i] + [sids[i]];
        ListedOneMore(redis.State(), sids[..i], sids[i]);
        var raw := redis.Get(sids[i]);
        if raw.Some? {
          sessions := sessions + [Listed(sids[i], LastActivity(raw.value))];
        }
      }
      assert sids[..|sids|] == sids;
      ListedIsLive(redis.State(), sids);
    }

    method IsValid(sessionId: Sid) returns (valid: bool)
      ensures valid == (sessionId in redis.sessions)
    {
      valid := sessionId in redis.sessions;
    }
  }

  // ---------------------------------------------------------------- what a completed call shuts out

  /**
    With a denylist of the default time to live, a revoked session is shut for ever, for every token issued up to 60 s
    after the second one millisecond past the call, and for no later one.
   */
  lemma {:induction false} RevokeDenies(c: Config, k: Keyspace, sid: Sid, latest: int)
    requires c.denyTtlSeconds == Some(R.REVOCATION_TTL_SECONDS)
    ensures R.SidCoveredForever(AfterRevoke(c, k, sid), sid, latest) <==> latest <= R.Seconds(k.now + 1) + 60
  {
    var k1 := AfterRevoke(c.(denyTtlSeconds := None), k, sid);
    assert AfterRevoke(c, k, sid) == R.After(k1, R.RevokeSession(sid)) && k1.now == k.now;
    R.RevokedSidCoverage(k1, sid, latest);
  }

  /** The record of a revoked session is gone, and its entry in its user's index; nothing of another session is. */
  lemma {:induction false} RevokeForgets(c: Config, k: Keyspace, sid: Sid)
    ensures AfterRevoke(c, k, sid).sessions == k.sessions - {sid}
    ensures forall user :: Members(AfterRevoke(c, k, sid), user) ==
              Members(k, user) - if sid in k.sessions && user == k.sessions[sid].value.userId then {sid} else {}
  {
  }

  /** So is the session of a `rotate` that found a reused token. */
  lemma {:induction false} ReuseDenies(
    c: Config, k: Keyspace, sid: Sid, presented: Jti, newJti: Jti, latest: int)
    requires c.denyTtlSeconds == Some(R.REVOCATION_TTL_SECONDS)
    requires RotateVerdict(k, sid, presented, newJti, c.graceMs) == Reuse
    ensures sid !in AfterRotateCall(c, k, sid, presented, newJti).sessions
    ensures R.SidCoveredForever(AfterRotateCall(c, k, sid, presented, newJti), sid, latest) <==>
            latest <= R.Seconds(k.now + 1) + 60
  {
    RevokeDenies(c, k, sid, latest);
    hide R.SidCoveredForever;
  }

  /** After `revokeAllForUser` the user's tokens issued before second `v` are shut for ever, up to this second. */
  lemma {:induction false} RevokeAllSeals(c: Config, k: Keyspace, user: UserId, v: int)
    requires c.denyTtlSeconds == Some(R.REVOCATION_TTL_SECONDS)
    ensures R.CoveredForever(AfterRevokeAll(c, k, user), user, v) <==> v <= R.Seconds(k.now)
  {
    var k1 := AfterRevokeAll(c.(denyTtlSeconds := None), k, user);
    var k' := AfterRevokeAll(c, k, user);
    assert k' == R.After(k1, R.RevokeAll(user)) && k1.now == k.now;
    R.RevokeAllCovers(k1, user);
    if v > R.Seconds(k.now) {
      var sid := Unused(k'.revokedSids.Keys);
      assert R.AfterAll(k', []) == k' && R.AllPossible(k', []);
      assert !R.Shut(k', R.Claims(user, sid, Some(R.Seconds(k.now))));
    }
  }

  // ---------------------------------------------------------------- index agreement over completed calls

  datatype Call =
    | Elapse(to: int)
    | Create(user: UserId, sid: Sid, jti: Jti)
    | Rotate(sid: Sid, presented: Jti, newJti: Jti)
    | Revoke(sid: Sid)
    | RevokeAll(user: UserId)

  /**
    The keys together with two history variables: the sids handed out so far, and the sessions that were alive when
    the index key of their user expired.
   */
  datatype History = History(k: Keyspace, born: set<Sid>, orphaned: set<Sid>)

  const START := History(EMPTY, {}, {})

  function Orphans(k: Keyspace, to: int): set<Sid> {
    set sid | sid in AfterElapse(k, to).sessions &&
              k.sessions[sid].value.userId in k.index && k.sessions[sid].value.userId !in AfterElapse(k, to).index
  }

  function After(c: Config, h: History, call: Call): History {
    match call
    case Elapse(to) => History(AfterElapse(h.k, to), h.born, h.orphaned + Orphans(h.k, to))
    case Create(user, sid, jti) => History(AfterCreate(h.k, user, sid, jti, c.ttlSeconds), h.born + {sid}, h.orphaned)
    case Rotate(sid, presented, newJti) => h.(k := AfterRotateCall(c, h.k, sid, presented, newJti))
    case Revoke(sid) => h.(k := AfterRevoke(c, h.k, sid))
    case RevokeAll(user) => h.(k := AfterRevokeAll(c, h.k, user))
  }

  /** Time does not run backwards, and a new session gets a sid never used before. */
  predicate Possible(h: History, call: Call) {
    match call
    case Elapse(to) => h.k.now <= to
    case Create(_, sid, _) => sid !in h.born
    case _ => true
  }

  function AfterAll(c: Config, h: History, calls: seq<Call>): History
    decreases |calls|
  {
    if calls == [] then h else AfterAll(c, After(c, h, calls[0]), calls[1..])
  }

  predicate AllPossible(c: Config, h: History, calls: seq<Call>)
    decreases |calls|
  {
    calls == [] || (Possible(h, calls[0]) && AllPossible(c, After(c, h, calls[0]), calls[1..]))
  }

  /** A live session is in the index of its own user, unless that index expired under it. */
  predicate Indexed(h: History, sid: Sid)
    requires sid in h.k.sessions
  {
    sid in h.born && (sid in Members(h.k, h.k.sessions[sid].value.userId) <==> sid !in h.orphaned)
  }

  /** What a user's index holds is old sids and live sessions of that user. */
  predicate OwnMember(h: History, user: UserId, sid: Sid) {
    sid in h.born && (sid in h.k.sessions ==> h.k.sessions[sid].value.userId == user)
  }

  ghost predicate Agrees(h: History) {
    && h.orphaned <= h.born
    && (forall sid :: sid in h.k.sessions ==> Indexed(h, sid))
    && (forall user, sid :: sid in Members(h.k, user) ==> OwnMember(h, user, sid))
  }

  /** A session never rotated expires no later than its user's index. */
  predicate Outlived(k: Keyspace, sid: Sid)
    requires sid in k.sessions
  {
    var user := k.sessions[sid].value.userId;
    k.sessions[sid].value.rotatedAt.None? ==> user in k.index && k.sessions[sid].expiresAt <= k.index[user].expiresAt
  }

  /** Only rotated sessions are orphaned, and no record outlives a time to live counted from now. */
  predicate OnlyRotatedOrphans(c: Config, h: History) {
    && (forall sid :: sid in h.k.sessions ==> Outlived(h.k, sid))
    && (forall sid :: sid in h.k.sessions && sid in h.orphaned ==> h.k.sessions[sid].value.rotatedAt.Some?)
    && (forall sid :: sid in h.k.sessions ==> h.k.sessions[sid].expiresAt <= Expiry(h.k, c.ttlSeconds))
  }

  lemma {:induction false} RevokeAgrees(c: Config, h: History, sid: Sid)
    requires Agrees(h)
    ensures Agrees(h.(k := AfterRevoke(c, h.k, sid)))
  {
    var h' := h.(k := AfterRevoke(c, h.k, sid));
    forall user, s | s in Members(h'.k, user) ensures OwnMember(h', user, s) {
      assert s in Members(h.k, user);
    }
  }

  lemma {:induction false} ElapseAgrees(c: Config, h: History, to: int)
    requires Agrees(h)
    ensures Agrees(After(c, h, Elapse(to)))
  {
    var h' := After(c, h, Elapse(to));
    forall u, s | s in Members(h'.k, u) ensures OwnMember(h', u, s) {
      assert s in Members(h.k, u);
    }
  }

  lemma {:induction false} CreateAgrees(c: Config, h: History, user: UserId, sid: Sid, jti: Jti)
    requires Agrees(h) && sid !in h.born
    ensures Agrees(After(c, h, Create(user, sid, jti)))
  {
    var h' := After(c, h, Create(user, sid, jti));
    forall u, s | s in Members(h'.k, u) ensures OwnMember(h', u, s) {
      assert s in Members(h.k, u) || (u == user && s == sid);
    }
  }

  lemma {:induction false} RevokeAllAgrees(c: Config, h: History, user: UserId)
    requires Agrees(h)
    ensures Agrees(After(c, h, RevokeAll(user)))
  {
    var h' := After(c, h, RevokeAll(user));
    forall u, s | s in Members(h'.k, u) ensures OwnMember(h', u, s) {
      assert s in Members(h.k, u);
    }
  }

  lemma {:induction false} RotateAgrees(c: Config, h: History, sid: Sid, presented: Jti, newJti: Jti)
    requires Agrees(h)
    ensures Agrees(After(c, h, Rotate(sid, presented, newJti)))
  {
    var h' := After(c, h, Rotate(sid, presented, newJti));
    if RotateVerdict(h.k, sid, presented, newJti, c.graceMs) == Reuse {
      RevokeAgrees(c, h, sid);
    } else {
      forall u, s | s in Members(h'.k, u) ensures OwnMember(h', u, s) {
        assert s in Members(h.k, u);
      }
    }
  }

  lemma {:induction false} CallAgrees(c: Config, h: History, call: Call)
    requires Agrees(h) && Possible(h, call)
    ensures Agrees(After(c, h, call))
  {
    hide Agrees;
    match call {
      case Elapse(to) => ElapseAgrees(c, h, to);
      case Create(user, sid, jti) => CreateAgrees(c, h, user, sid, jti);
      case Rotate(sid, presented, newJti) => RotateAgrees(c, h, sid, presented, newJti);
      case Revoke(sid) => RevokeAgrees(c, h, sid);
      case RevokeAll(user) => RevokeAllAgrees(c, h, user);
    }
  }

  lemma {:induction false} CallsAgree(c: Config, h: History, calls: seq<Call>)
    requires Agrees(h) && AllPossible(c, h, calls)
    ensures Agrees(AfterAll(c, h, calls))
    decreases |calls|
  {
    if calls != [] {
      CallAgrees(c, h, calls[0]);
      CallsAgree(c, After(c, h, calls[0]), calls[1..]);
    }
  }

  lemma {:induction false} IndexedIsLive(h: History, user: UserId)
    requires Agrees(h)
    ensures IndexedSessions(h.k, user) == LiveSessions(h.k, user) - h.orphaned
  {
    forall sid | sid in IndexedSessions(h.k, user) ensures sid in LiveSessions(h.k, user) - h.orphaned {
    }
  }

  lemma {:induction false} RevokeAllLeaves(c: Config, h: History, user: UserId)
    requires Agrees(h)
    ensures var k' := AfterRevokeAll(c, h.k, user);
            && LiveSessions(k', user) == LiveSessions(h.k, user) - IndexedSessions(h.k, user)
            && (forall other :: other != user ==> LiveSessions(k', other) == LiveSessions(h.k, other))
  {
    var k' := AfterRevokeAll(c, h.k, user);
    assert k'.sessions == AfterDelSessions(h.k, Members(h.k, user)).sessions;
    forall other | other != user ensures LiveSessions(k', other) == LiveSessions(h.k, other) {
      forall sid | sid in LiveSessions(h.k, other) ensures sid !in Members(h.k, user) {
      }
    }
  }

  /**
    After any history of completed calls, `revokeAllForUser` counts exactly the live sessions of the user that were
    not orphaned, deletes those and no other session; so it counts them all, and leaves none, exactly when
    none was orphaned.
   */
  lemma {:induction false} RevokeAllIsExact(c: Config, calls: seq<Call>, user: UserId)
    requires AllPossible(c, START, calls)
    ensures var h := AfterAll(c, START, calls);
            var k' := AfterRevokeAll(c, h.k, user);
            && IndexedSessions(h.k, user) == LiveSessions(h.k, user) - h.orphaned
            && (|IndexedSessions(h.k, user)| == |LiveSessions(h.k, user)| <==> LiveSessions(h.k, user) !! h.orphaned)
            && (LiveSessions(k', user) == {} <==> LiveSessions(h.k, user) !! h.orphaned)
            && (forall other :: other != user ==> LiveSessions(k', other) == LiveSessions(h.k, other))
  {
    CallsAgree(c, START, calls);
    var h := AfterAll(c, START, calls);
    IndexedIsLive(h, user);
    RevokeAllLeaves(c, h, user);
    Missed(LiveSessions(h.k, user), IndexedSessions(h.k, user), h.orphaned);
  }

  lemma {:induction false} Missed<T>(live: set<T>, found: set<T>, orphaned: set<T>)
    requires found == live - orphaned
    ensures |found| == |live| <==> live !! orphaned
    ensures live - found == {} <==> live !! orphaned
  {
    if |found| == |live| {
      SubsetSize(found, live);
    }
    assert live - found == live * orphaned;
  }

  lemma {:induction false} ElapseKeepsOrphansRotated(c: Config, h: History, to: int)
    requires Agrees(h) && OnlyRotatedOrphans(c, h) && h.k.now <= to
    ensures OnlyRotatedOrphans(c, After(c, h, Elapse(to)))
  {
    var h' := After(c, h, Elapse(to));
    forall sid | sid in h'.k.sessions
      ensures Outlived(h'.k, sid) && (sid in h'.orphaned ==> h'.k.sessions[sid].value.rotatedAt.Some?)
    {
      assert Outlived(h.k, sid);
    }
  }

  lemma {:induction false} CreateKeepsOrphansRotated(c: Config, h: History, user: UserId, sid: Sid, jti: Jti)
    requires Agrees(h) && OnlyRotatedOrphans(c, h) && sid !in h.born
    ensures OnlyRotatedOrphans(c, After(c, h, Create(user, sid, jti)))
  {
    var h' := After(c, h, Create(user, sid, jti));
    forall s | s in h'.k.sessions
      ensures Outlived(h'.k, s)
    {
      if s != sid {
        assert Outlived(h.k, s);
      }
    }
  }

  lemma {:induction false} RevokeKeepsOrphansRotated(c: Config, h: History, sid: Sid)
    requires Agrees(h) && OnlyRotatedOrphans(c, h)
    ensures OnlyRotatedOrphans(c, h.(k := AfterRevoke(c, h.k, sid)))
  {
    var k' := AfterRevoke(c, h.k, sid);
    forall s | s in k'.sessions
      ensures Outlived(k', s)
    {
      assert Outlived(h.k, s) && Indexed(h, s);
    }
  }

  lemma {:induction false} RevokeAllKeepsOrphansRotated(c: Config, h: History, user: UserId)
    requires Agrees(h) && OnlyRotatedOrphans(c, h)
    ensures OnlyRotatedOrphans(c, After(c, h, RevokeAll(user)))
  {
    var k' := AfterRevokeAll(c, h.k, user);
    forall s | s in k'.sessions
      ensures Outlived(k', s)
    {
      assert Outlived(h.k, s) && Indexed(h, s);
    }
  }

  lemma {:induction false} RotateKeepsOrphansRotated(c: Config, h: History, sid: Sid, presented: Jti, newJti: Jti)
    requires Agrees(h) && OnlyRotatedOrphans(c, h)
    ensures OnlyRotatedOrphans(c, After(c, h, Rotate(sid, presented, newJti)))
  {
    if RotateVerdict(h.k, sid, presented, newJti, c.graceMs) == Reuse {
      RevokeKeepsOrphansRotated(c, h, sid);
    } else {
      var k' := AfterRotate(h.k, sid, presented, newJti, c.ttlSeconds);
      forall s | s in k'.sessions
        ensures Outlived(k', s)
      {
        assert Outlived(h.k, s);
      }
    }
  }

  lemma {:induction false} CallsKeepOrphansRotated(c: Config, h: History, calls: seq<Call>)
    requires Agrees(h) && OnlyRotatedOrphans(c, h) && AllPossible(c, h, calls)
    ensures OnlyRotatedOrphans(c, AfterAll(c, h, calls))
    decreases |calls|
  {
    if calls != [] {
      CallAgrees(c, h, calls[0]);
      match calls[0] {
        case Elapse(to) => ElapseKeepsOrphansRotated(c, h, to);
        case Create(user, sid, jti) => CreateKeepsOrphansRotated(c, h, user, sid, jti);
        case Rotate(sid, presented, newJti) => RotateKeepsOrphansRotated(c, h, sid, presented, newJti);
        case Revoke(sid) => RevokeKeepsOrphansRotated(c, h, sid);
        case RevokeAll(user) => RevokeAllKeepsOrphansRotated(c, h, user);
      }
      CallsKeepOrphansRotated(c, After(c, h, calls[0]), calls[1..]);
    }
  }

  /** A session that was never rotated is always in its user's index while it lives. */
  lemma {:induction false} UnrotatedIsIndexed(c: Config, calls: seq<Call>, sid: Sid)
    requires AllPossible(c, START, calls)
    ensures var k := AfterAll(c, START, calls).k;
            sid in k.sessions && k.sessions[sid].value.rotatedAt.None? ==>
              sid in Members(k, k.sessions[sid].value.userId)
  {
    CallsAgree(c, START, calls);
    CallsKeepOrphansRotated(c, START, calls);
  }

  lemma {:induction false} LoginAndRotation(c: Config) returns (h1: History, h2: History, h3: History)
    requires c.ttlSeconds == 100
    ensures h1 == After(c, START, Create(1, 1, 1)) && h2 == After(c, h1, Elapse(60000)) &&
            h3 == After(c, h2, Rotate(1, 1, 2))
    ensures h3.k.now == h2.k.now == 60000 && h1.k.now == 0
    ensures h3.k.sessions.Keys == {1} && h3.k.sessions[1].value.userId == 1 && h3.k.sessions[1].expiresAt == 160000
    ensures 1 in h3.k.index && h3.k.index[1].expiresAt == 100000
  {
    h1 := After(c, START, Create(1, 1, 1));
    assert h1.k.sessions == map[1 := Stored(SessionRecord(1, 1, None, None, 0), 100000)];
    assert Members(EMPTY, 1) + {1} == {1};
    assert h1.k.index == map[1 := Stored({1}, 100000)];
    h2 := After(c, h1, Elapse(60000));
    assert h2.k.sessions == h1.k.sessions && h2.k.index == h1.k.index;
    h3 := After(c, h2, Rotate(1, 1, 2));
  }

  /**
    Rotation renews the record and not the index: a rotated session can outlive the index and escape
    `revokeAllForUser`.
   */
  lemma {:induction false} RotatedSessionEscapes(c: Config)
    requires c.ttlSeconds == 100
    ensures var calls := [Create(1, 1, 1), Elapse(60000), Rotate(1, 1, 2), Elapse(100001)];
            var k := AfterAll(c, START, calls).k;
            && AllPossible(c, START, calls)
            && LiveSessions(k, 1) == {1} && IndexedSessions(k, 1) == {}
            && LiveSessions(AfterRevokeAll(c, k, 1), 1) == {1}
  {
    var calls := [Create(1, 1, 1), Elapse(60000), Rotate(1, 1, 2), Elapse(100001)];
    var h1, h2, h3 := LoginAndRotation(c);
    var h4 := After(c, h3, calls[3]);
    assert h4.k.sessions == h3.k.sessions && 1 !in h4.k.index;
    CallOnce(c, START, calls, h1);
    CallOnce(c, h1, calls[1..], h2);
    CallOnce(c, h2, calls[2..], h3);
    CallOnce(c, h3, calls[3..], h4);
    assert calls[1..][1..] == calls[2..] && calls[2..][1..] == calls[3..] && calls[3..][1..] == [];
  }

  lemma {:induction false} CallOnce(c: Config, h: History, calls: seq<Call>, h': History)
    requires calls != [] && Possible(h, calls[0]) && h' == After(c, h, calls[0])
    ensures AfterAll(c, h, calls) == AfterAll(c, h', calls[1..])
    ensures AllPossible(c, h, calls) <==> AllPossible(c, h', calls[1..])
  {
  }
}
