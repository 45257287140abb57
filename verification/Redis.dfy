/**
  The Redis keys the auth package uses, one atomic command (or one Lua evaluation, or one MULTI block) at a time.
  Times are milliseconds of one clock; a key with a time to live is gone as soon as the clock is past its expiry.
 */
module Redis {
  import opened Common

  type UserId = nat
  type Sid = nat
  type Jti = nat

  datatype SessionRecord = SessionRecord(
    userId: UserId, currentJti: Jti, previousJti: Option<Jti>, rotatedAt: Option<int>, createdAt: int)

  /** A value with its expiry. */
  datatype Stored<T> = Stored(value: T, expiresAt: int)

  /** Everything Redis holds: sessions, the per-user index of sids, the two revocation axes. */
  datatype Keyspace = Keyspace(
    now: int,
    sessions: map<Sid, Stored<SessionRecord>>,
    index: map<UserId, Stored<set<Sid>>>,
    revokedSids: map<Sid, int>,
    revokedBefore: map<UserId, Stored<int>>)

  /** The four verdicts of the rotation script. */
  datatype Verdict = Missing | Reuse | Rotated(newJti: Jti) | Grace(currentJti: Jti)

  const EMPTY := Keyspace(0, map[], map[], map[], map[])

  function Expiry(k: Keyspace, ttlSeconds: nat): int {
    k.now + ttlSeconds * 1000
  }

  /** The clock moves on and expired keys disappear. */
  function AfterElapse(k: Keyspace, to: int): Keyspace {
    Keyspace(
      to,
      map sid | sid in k.sessions && k.sessions[sid].expiresAt >= to :: k.sessions[sid],
      map user | user in k.index && k.index[user].expiresAt >= to :: k.index[user],
      map sid | sid in k.revokedSids && k.revokedSids[sid] >= to :: k.revokedSids[sid],
      map user | user in k.revokedBefore && k.revokedBefore[user].expiresAt >= to :: k.revokedBefore[user])
  }

  function Members(k: Keyspace, user: UserId): set<Sid> {
    if user in k.index then k.index[user].value else {}
  }

  /** SET of the record, SADD to the user's index and EXPIRE of the index, in one MULTI block. */
  function AfterCreate(k: Keyspace, user: UserId, sid: Sid, jti: Jti, ttlSeconds: nat): Keyspace {
    k.(sessions := k.sessions[sid := Stored(SessionRecord(user, jti, None, None, k.now), Expiry(k, ttlSeconds))],
       index := k.index[user := Stored(Members(k, user) + {sid}, Expiry(k, ttlSeconds))])
  }

  /** The compare-and-swap script of `rotate`: what it answers. */
  function RotateVerdict(k: Keyspace, sid: Sid, presented: Jti, newJti: Jti, graceMs: int): Verdict {
    if sid !in k.sessions then Missing
    else
      var rec := k.sessions[sid].value;
      if rec.currentJti == presented then Rotated(newJti)
      else if graceMs > 0 && rec.previousJti == Some(presented) && rec.rotatedAt.Some? &&
              k.now - rec.rotatedAt.value <= graceMs then Grace(rec.currentJti)
      else Reuse
  }

  /** The compare-and-swap script of `rotate`: what it leaves. */
  function AfterRotate(k: Keyspace, sid: Sid, presented: Jti, newJti: Jti, ttlSeconds: nat): Keyspace {
    if sid in k.sessions && k.sessions[sid].value.currentJti == presented then
      var rec := k.sessions[sid].value.(previousJti := Some(presented), currentJti := newJti, rotatedAt := Some(k.now));
      k.(sessions := k.sessions[sid := Stored(rec, Expiry(k, ttlSeconds))])
    else k
  }

  function AfterDelSessions(k: Keyspace, sids: set<Sid>): Keyspace {
    k.(sessions := map sid | sid in k.sessions && sid !in sids :: k.sessions[sid])
  }

  /** SREM; a set that becomes empty is deleted with its key. */
  function AfterSrem(k: Keyspace, user: UserId, sid: Sid): Keyspace {
    if user !in k.index then k
    else if k.index[user].value - {sid} == {} then k.(index := k.index - {user})
    else k.(index := k.index[user := Stored(k.index[user].value - {sid}, k.index[user].expiresAt)])
  }

  function AfterDelIndex(k: Keyspace, user: UserId): Keyspace {
    k.(index := k.index - {user})
  }

  function AfterRevokeSid(k: Keyspace, sid: Sid, ttlSeconds: nat): Keyspace {
    k.(revokedSids := k.revokedSids[sid := Expiry(k, ttlSeconds)])
  }

  /** SET of the seal, whatever was there. */
  function AfterSetBefore(k: Keyspace, user: UserId, at: int, ttlSeconds: nat): Keyspace {
    k.(revokedBefore := k.revokedBefore[user := Stored(at, Expiry(k, ttlSeconds))])
  }

  /** The monotone seal script raises the seal only when none is there or the one there is lower. */
  predicate SealRaises(k: Keyspace, user: UserId, at: int) {
    user !in k.revokedBefore || k.revokedBefore[user].value < at
  }

  function AfterSeal(k: Keyspace, user: UserId, at: int, ttlSeconds: nat): Keyspace {
    if SealRaises(k, user, at) then AfterSetBefore(k, user, at, ttlSeconds) else k
  }

  /** Sessions of `user` that exist. */
  function LiveSessions(k: Keyspace, user: UserId): set<Sid> {
    set sid | sid in k.sessions && k.sessions[sid].value.userId == user
  }

  class Server {
    var now: int
    var sessions: map<Sid, Stored<SessionRecord>>
    var index: map<UserId, Stored<set<Sid>>>
    var revokedSids: map<Sid, int>
    var revokedBefore: map<UserId, Stored<int>>

    function State(): Keyspace
      reads this
    {
      Keyspace(now, sessions, index, revokedSids, revokedBefore)
    }

    constructor ()
      ensures State() == EMPTY
    {
      now := 0;
      sessions := map[];
      index := map[];
      revokedSids := map[];
      revokedBefore := map[];
    }

    method Create(user: UserId, sid: Sid, jti: Jti, ttlSeconds: nat)
      modifies this
      ensures State() == AfterCreate(old(State()), user, sid, jti, ttlSeconds)
    {
      var record := SessionRecord(user, jti, None, None, now);
      var indexed := Members(State(), user) + {sid};
      sessions := sessions[sid := Stored(record, now + ttlSeconds * 1000)];
      index := index[user := Stored(indexed, now + ttlSeconds * 1000)];
    }

    method EvalRotate(sid: Sid, presented: Jti, newJti: Jti, ttlSeconds: nat, graceMs: int) returns (v: Verdict)
      modifies this
      ensures State() == AfterRotate(old(State()), sid, presented, newJti, ttlSeconds)
      ensures v == RotateVerdict(old(State()), sid, presented, newJti, graceMs)
    {
      if sid !in sessions {
        return Missing;
      }
      var rec := sessions[sid].value;
      if rec.currentJti == presented {
        rec := rec.(previousJti := Some(rec.currentJti));
        rec := rec.(currentJti := newJti);
        rec := rec.(rotatedAt := Some(now));
        sessions := sessions[sid := Stored(rec, now + ttlSeconds * 1000)];
        return Rotated(newJti);
      }
      if graceMs > 0 && rec.previousJti == Some(presented) && rec.rotatedAt.Some? &&
        now - rec.rotatedAt.value <= graceMs {
        return Grace(rec.currentJti);
      }
      return Reuse;
    }

    method Get(sid: Sid) returns (r: Option<SessionRecord>)
      ensures r == if sid in sessions then Some(sessions[sid].value) else None
    {
      r := if sid in sessions then Some(sessions[sid].value) else None;
    }

    /** DEL answers how many of the keys existed. */
    method DelSessions(sids: set<Sid>) returns (count: nat)
      modifies this
      ensures State() == AfterDelSessions(old(State()), sids)
      ensures count == |old(sessions).Keys * sids|
    {
      count := |sessions.Keys * sids|;
      sessions := map sid | sid in sessions && sid !in sids :: sessions[sid];
    }

    method Srem(user: UserId, sid: Sid)
      modifies this
      ensures State() == AfterSrem(old(State()), user, sid)
    {
      if user in index {
        var rest := index[user].value - {sid};
        index := if rest == {} then index - {user} else index[user := Stored(rest, index[user].expiresAt)];
      }
    }

    /** SMEMBERS answers each member once, in no particular order. */
    method Smembers(user: UserId) returns (sids: seq<Sid>)
      ensures forall sid :: sid in sids <==> sid in Members(State(), user)
      ensures forall i, j :: 0 <= i < j < |sids| ==> sids[i] != sids[j]
    {
      sids := [];
      var rest := Members(State(), user);
      while rest != {}
        invariant forall sid :: sid in Members(State(), user) <==> sid in sids || sid in rest
        invariant forall i, j :: 0 <= i < j < |sids| ==> sids[i] != sids[j]
        invariant forall sid :: sid in sids ==> sid !in rest
        decreases rest
      {
        var sid :| sid in rest;
        sids := sids + [sid];
        rest := rest - {sid};
      }
    }

    method DelIndex(user: UserId)
      modifies this
      ensures State() == AfterDelIndex(old(State()), user)
    {
      index := index - {user};
    }

    method SetRevokedSid(sid: Sid, ttlSeconds: nat)
      modifies this
      ensures State() == AfterRevokeSid(old(State()), sid, ttlSeconds)
    {
      revokedSids := revokedSids[sid := now + ttlSeconds * 1000];
    }

    method SetRevokedBefore(user: UserId, at: int, ttlSeconds: nat)
      modifies this
      ensures State() == AfterSetBefore(old(State()), user, at, ttlSeconds)
    {
      revokedBefore := revokedBefore[user := Stored(at, now + ttlSeconds * 1000)];
    }

    method EvalSeal(user: UserId, at: int, ttlSeconds: nat) returns (raised: bool)
      modifies this
      ensures State() == AfterSeal(old(State()), user, at, ttlSeconds)
      ensures raised == SealRaises(old(State()), user, at)
    {
      if user in revokedBefore && revokedBefore[user].value >= at {
        return false;
      }
      revokedBefore := revokedBefore[user := Stored(at, now + ttlSeconds * 1000)];
      return true;
    }
  }
}
