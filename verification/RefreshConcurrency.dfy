/**
  Concurrent calls of the refresh-token store: each Redis command, Lua evaluation or MULTI block is one step, and the
  steps of any number of `rotate`, `revoke`, `revokeAllForUser` and `createSession` calls interleave freely.
 */
module RefreshConcurrency {
  import opened Common
  import opened Redis
  import S = RefreshStore
  import R = SessionRevocation

  type Pid = nat

  /** The commands `revoke` still has to send, from the next one on. */
  datatype RevokePc = AtGet | AtDel(found: Option<UserId>) | AtSrem(user: UserId) | AtDeny

  /** The commands `revokeAllForUser` still has to send. */
  datatype ClearPc =
    | AtSmembers
    | AtDelKeys(sids: set<Sid>)
    | AtDelIndex(sids: set<Sid>, count: nat)
    | AtSeal(sids: set<Sid>, count: nat)

  datatype Process =
    | Rotating(sid: Sid, presented: Jti)
    | Killing(sid: Sid, presented: Jti, revoke: RevokePc)
    | RotateDone(sid: Sid, presented: Jti, verdict: Verdict)
    | Revoking(sid: Sid, revoke: RevokePc)
    | RevokeDone(sid: Sid)
    | Clearing(user: UserId, clear: ClearPc)
    | ClearDone(user: UserId, sids: set<Sid>, count: nat)

  /** A rotation that was granted: the call, the session and the token it spent. */
  datatype Win = Win(pid: Pid, sid: Sid, jti: Jti)

  /**
    The keys, the calls, and three history variables: the tokens each session was given in order, the times it was
    given them, and the granted rotations.
   */
  datatype State = State(
    k: Keyspace, calls: map<Pid, Process>, chains: map<Sid, seq<Jti>>, given: map<Sid, seq<int>>, wins: set<Win>)

  const INITIAL := State(EMPTY, map[], map[], map[], {})

  /** When the session was given its tokens, the first at its login, the others by its rotations. */
  function Given(s: State, sid: Sid): seq<int> {
    if sid in s.given then s.given[sid] else []
  }

  datatype Step =
    | Elapse(to: int)
    | Create(user: UserId, sid: Sid, jti: Jti)
    | StartRotate(pid: Pid, sid: Sid, presented: Jti)
    | StartRevoke(pid: Pid, sid: Sid)
    | StartClear(pid: Pid, user: UserId)
    | Advance(pid: Pid, newJti: Jti)

  /** No session was ever given this token. */
  predicate FreshJti(s: State, jti: Jti) {
    forall sid :: sid in s.chains ==> jti !in s.chains[sid]
  }

  /** The call is about this session. */
  predicate Names(p: Process, sid: Sid) {
    !p.Clearing? && !p.ClearDone? && p.sid == sid
  }

  /** A sid never handed out and never mentioned by any caller. */
  predicate FreshSid(s: State, sid: Sid) {
    sid !in s.chains && forall pid :: pid in s.calls ==> !Names(s.calls[pid], sid)
  }

  predicate Enabled(s: State, step: Step) {
    match step
    case Elapse(to) => s.k.now <= to
    case Create(_, sid, jti) => FreshSid(s, sid) && FreshJti(s, jti)
    case StartRotate(pid, _, _) => pid !in s.calls
    case StartRevoke(pid, _) => pid !in s.calls
    case StartClear(pid, _) => pid !in s.calls
    case Advance(pid, newJti) =>
      pid in s.calls && !s.calls[pid].RotateDone? && !s.calls[pid].RevokeDone? && !s.calls[pid].ClearDone? &&
        FreshJti(s, newJti)
  }

  /** One command of `revoke`: the keys after it, and the next command (none after the last). */
  function RevokeCommand(c: S.Config, k: Keyspace, sid: Sid, pc: RevokePc): (Keyspace, Option<RevokePc>) {
    match pc
    case AtGet => (k, Some(AtDel(if sid in k.sessions then Some(k.sessions[sid].value.userId) else None)))
    case AtDel(found) => (AfterDelSessions(k, {sid}), Some(if found.Some? then AtSrem(found.value) else AtDeny))
    case AtSrem(user) => (AfterSrem(k, user, sid), Some(AtDeny))
    case AtDeny => (S.AfterDeny(c, k, sid), None)
  }

  function Put(s: State, k: Keyspace, pid: Pid, p: Process): State {
    s.(k := k, calls := s.calls[pid := p])
  }

  /** The script of `rotate`, with the history it makes. */
  function EvalStep(c: S.Config, s: State, pid: Pid, sid: Sid, presented: Jti, newJti: Jti): State {
    var verdict := RotateVerdict(s.k, sid, presented, newJti, c.graceMs);
    var s1 := Put(s, AfterRotate(s.k, sid, presented, newJti, c.ttlSeconds), pid,
                  if verdict == Reuse then Killing(sid, presented, AtGet) else RotateDone(sid, presented, verdict));
    if verdict.Rotated? && sid in s.chains then
      s1.(chains := s.chains[sid := s.chains[sid] + [newJti]], given := s.given[sid := Given(s, sid) + [s.k.now]],
          wins := s.wins + {Win(pid, sid, presented)})
    else s1
  }

  /** The seal at this second, where a denylist is wired. */
  function Sealed(c: S.Config, k: Keyspace, user: UserId): Keyspace {
    if c.denyTtlSeconds.Some? then AfterSetBefore(k, user, R.Seconds(k.now), c.denyTtlSeconds.value) else k
  }

  function ClearCommand(c: S.Config, s: State, pid: Pid, user: UserId, pc: ClearPc): State {
    match pc
    case AtSmembers =>
      var sids := Members(s.k, user);
      Put(s, s.k, pid, Clearing(user, if sids == {} then AtDelIndex({}, 0) else AtDelKeys(sids)))
    case AtDelKeys(sids) =>
      Put(s, AfterDelSessions(s.k, sids), pid, Clearing(user, AtDelIndex(sids, |s.k.sessions.Keys * sids|)))
    case AtDelIndex(sids, count) => Put(s, AfterDelIndex(s.k, user), pid, Clearing(user, AtSeal(sids, count)))
    case AtSeal(sids, count) =>
      Put(s, Sealed(c, s.k, user), pid, ClearDone(user, sids, count))
  }

  function AdvanceCall(c: S.Config, s: State, pid: Pid, newJti: Jti): State
    requires pid in s.calls
  {
    match s.calls[pid]
    case Rotating(sid, presented) => EvalStep(c, s, pid, sid, presented, newJti)
    case Killing(sid, presented, pc) =>
      var (k, next) := RevokeCommand(c, s.k, sid, pc);
      Put(s, k, pid, if next.Some? then Killing(sid, presented, next.value) else RotateDone(sid, presented, Reuse))
    case Revoking(sid, pc) =>
      var (k, next) := RevokeCommand(c, s.k, sid, pc);
      Put(s, k, pid, if next.Some? then Revoking(sid, next.value) else RevokeDone(sid))
    case Clearing(user, pc) => ClearCommand(c, s, pid, user, pc)
    case _ => s
  }

  /** A call writes its own entry, and only a clear goes on as a clear. */
  lemma {:induction false} AdvancesItself(c: S.Config, s: State, pid: Pid, newJti: Jti)
    requires pid in s.calls
    ensures var calls' := AdvanceCall(c, s, pid, newJti).calls;
            && pid in calls' && calls' == s.calls[pid := calls'[pid]]
            && (calls'[pid].Clearing? ==> s.calls[pid].Clearing?)
  {
    hide RevokeCommand;
    hide RotateVerdict;
  }

  function Apply(c: S.Config, s: State, step: Step): State
    requires Enabled(s, step)
  {
    match step
    case Elapse(to) => s.(k := AfterElapse(s.k, to))
    case Create(user, sid, jti) => s.(k := AfterCreate(s.k, user, sid, jti, c.ttlSeconds),
      chains := s.chains[sid := [jti]], given := s.given[sid := [s.k.now]])
    case StartRotate(pid, sid, presented) => s.(calls := s.calls[pid := Rotating(sid, presented)])
    case StartRevoke(pid, sid) => s.(calls := s.calls[pid := Revoking(sid, AtGet)])
    case StartClear(pid, user) => s.(calls := s.calls[pid := Clearing(user, AtSmembers)])
    case Advance(pid, newJti) => AdvanceCall(c, s, pid, newJti)
  }

  predicate Legal(c: S.Config, s: State, steps: seq<Step>)
    decreases |steps|
  {
    steps == [] || (Enabled(s, steps[0]) && Legal(c, Apply(c, s, steps[0]), steps[1..]))
  }

  function Run(c: S.Config, s: State, steps: seq<Step>): State
    requires Legal(c, s, steps)
    decreases |steps|
  {
    if steps == [] then s else Run(c, Apply(c, s, steps[0]), steps[1..])
  }

  // ---------------------------------------------------------------- calls nobody interrupts

  /** The commands a call still has to send, at most. */
  function Remaining(p: Process): nat {
    match p
    case Rotating(_, _) => 5
    case Killing(_, _, pc) => RevokeRemaining(pc)
    case Revoking(_, pc) => RevokeRemaining(pc)
    case Clearing(_, AtSmembers) => 4
    case Clearing(_, AtDelKeys(_)) => 3
    case Clearing(_, AtDelIndex(_, _)) => 2
    case Clearing(_, AtSeal(_, _)) => 1
    case _ => 0
  }

  function RevokeRemaining(pc: RevokePc): nat {
    match pc
    case AtGet => 4
    case AtDel(_) => 3
    case AtSrem(_) => 2
    case AtDeny => 1
  }

  /** The call sends all its commands with nothing in between. */
  function Finished(c: S.Config, s: State, pid: Pid, newJti: Jti): (s': State)
    requires pid in s.calls
    ensures pid in s'.calls
    decreases Remaining(s.calls[pid])
  {
    if Remaining(s.calls[pid]) == 0 then s else Finished(c, AdvanceCall(c, s, pid, newJti), pid, newJti)
  }

  lemma {:induction false} NothingDeleted(k: Keyspace)
    ensures AfterDelSessions(k, {}) == k
  {
    assert AfterDelSessions(k, {}).sessions == k.sessions;
  }

  /** `revoke` in one piece, called for itself or by `rotate` after a reuse verdict, is the store's `Revoke`. */
  lemma {:induction false} RevokeAlone(c: S.Config, s: State, pid: Pid, sid: Sid, killed: Option<Jti>, newJti: Jti)
    requires pid in s.calls
    requires s.calls[pid] == if killed.Some? then Killing(sid, killed.value, AtGet) else Revoking(sid, AtGet)
    ensures Finished(c, s, pid, newJti).k == S.AfterRevoke(c, s.k, sid)
    ensures Finished(c, s, pid, newJti).calls[pid] ==
            if killed.Some? then RotateDone(sid, killed.value, Reuse) else RevokeDone(sid)
  {
    var s1 := AdvanceCall(c, s, pid, newJti);
    var s2 := AdvanceCall(c, s1, pid, newJti);
    var s3 := AdvanceCall(c, s2, pid, newJti);
    assert Finished(c, s, pid, newJti) == Finished(c, s2, pid, newJti) == Finished(c, s3, pid, newJti);
    if sid in s.k.sessions {
      var s4 := AdvanceCall(c, s3, pid, newJti);
      assert Finished(c, s3, pid, newJti) == s4;
    }
  }

  lemma {:induction false} ClearedKeys(c: S.Config, k: Keyspace, user: UserId)
    ensures S.AfterRevokeAll(c, k, user) == Sealed(c, AfterDelIndex(AfterDelSessions(k, Members(k, user)), user), user)
  {
  }

  lemma {:induction false} ClearTail(
    c: S.Config, s: State, pid: Pid, user: UserId, sids: set<Sid>, count: nat, newJti: Jti)
    requires pid in s.calls && s.calls[pid] == Clearing(user, AtDelIndex(sids, count))
    ensures Finished(c, s, pid, newJti).k == Sealed(c, AfterDelIndex(s.k, user), user)
    ensures Finished(c, s, pid, newJti).calls[pid] == ClearDone(user, sids, count)
  {
    var s1 := AdvanceCall(c, s, pid, newJti);
    var s2 := AdvanceCall(c, s1, pid, newJti);
    assert Finished(c, s, pid, newJti) == Finished(c, s1, pid, newJti) == s2;
  }

  /** `revokeAllForUser` in one piece is the store's, with its count. */
  lemma {:induction false} ClearAlone(c: S.Config, s: State, pid: Pid, user: UserId, newJti: Jti)
    requires pid in s.calls && s.calls[pid] == Clearing(user, AtSmembers)
    ensures Finished(c, s, pid, newJti).k == S.AfterRevokeAll(c, s.k, user)
    ensures Finished(c, s, pid, newJti).calls[pid] ==
            ClearDone(user, Members(s.k, user), |S.IndexedSessions(s.k, user)|)
  {
    var s1 := AdvanceCall(c, s, pid, newJti);
    assert Finished(c, s, pid, newJti) == Finished(c, s1, pid, newJti);
    assert S.IndexedSessions(s.k, user) == s.k.sessions.Keys * Members(s.k, user);
    hide S.AfterRevokeAll;
    if Members(s.k, user) == {} {
      NothingDeleted(s.k);
      ClearTail(c, s1, pid, user, {}, 0, newJti);
      ClearedKeys(c, s.k, user);
    } else {
      var s2 := AdvanceCall(c, s1, pid, newJti);
      assert Finished(c, s1, pid, newJti) == Finished(c, s2, pid, newJti);
      ClearTail(c, s2, pid, user, Members(s.k, user), |S.IndexedSessions(s.k, user)|, newJti);
      ClearedKeys(c, s.k, user);
    }
  }

  /** `rotate` in one piece is the store's, with its verdict. */
  lemma {:induction false} RotateAlone(c: S.Config, s: State, pid: Pid, sid: Sid, presented: Jti, newJti: Jti)
    requires pid in s.calls && s.calls[pid] == Rotating(sid, presented)
    ensures Finished(c, s, pid, newJti).k == S.AfterRotateCall(c, s.k, sid, presented, newJti)
    ensures Finished(c, s, pid, newJti).calls[pid] ==
            RotateDone(sid, presented, RotateVerdict(s.k, sid, presented, newJti, c.graceMs))
  {
    var s1 := AdvanceCall(c, s, pid, newJti);
    if s1.calls[pid].Killing? {
      RevokeAlone(c, s1, pid, sid, Some(presented), newJti);
    }
  }

  // ---------------------------------------------------------------- the invariant

  /** The record of a live session is the end of its chain, with the times of its login and its last rotation. */
  predicate RecordMatches(s: State, sid: Sid)
    requires sid in s.k.sessions
  {
    && sid in s.chains
    && var chain, given, rec := s.chains[sid], Given(s, sid), s.k.sessions[sid].value;
       && |chain| >= 1 && |given| == |chain|
       && rec.currentJti == chain[|chain| - 1]
       && rec.previousJti == (if |chain| >= 2 then Some(chain[|chain| - 2]) else None)
       && rec.createdAt == given[0]
       && rec.rotatedAt == (if |chain| >= 2 then Some(given[|chain| - 1]) else None)
  }

  /** A token was given to one session, once. */
  predicate GivenOnce(chains: map<Sid, seq<Jti>>, s1: Sid, s2: Sid) {
    s1 in chains && s2 in chains ==>
      forall i, j :: 0 <= i < |chains[s1]| && 0 <= j < |chains[s2]| && chains[s1][i] == chains[s2][j] ==>
        s1 == s2 && i == j
  }

  /** A token of the session's chain that a later one replaced. */
  predicate Spent(s: State, sid: Sid, jti: Jti) {
    sid in s.chains && exists i :: 0 <= i < |s.chains[sid]| - 1 && s.chains[sid][i] == jti
  }

  /** Past its DEL, a revoking call has killed its session. */
  predicate PastDel(pc: RevokePc) {
    pc.AtSrem? || pc.AtDeny?
  }

  predicate Dead(s: State, sid: Sid) {
    sid in s.chains && sid !in s.k.sessions
  }

  /** What a call has already brought about. */
  predicate CallMatches(s: State, pid: Pid)
    requires pid in s.calls
  {
    match s.calls[pid]
    case Rotating(_, _) => true
    case Killing(sid, _, pc) => PastDel(pc) ==> sid !in s.k.sessions
    case RotateDone(sid, presented, verdict) =>
      && (verdict == Reuse || verdict == Missing ==> sid !in s.k.sessions)
      && (verdict.Rotated? ==> Win(pid, sid, presented) in s.wins)
    case Revoking(sid, pc) => PastDel(pc) ==> sid !in s.k.sessions
    case RevokeDone(sid) => sid !in s.k.sessions
    case Clearing(_, AtSmembers) => true
    case Clearing(_, AtDelKeys(sids)) => forall sid :: sid in sids ==> sid in s.chains
    case Clearing(_, AtDelIndex(sids, _)) => forall sid :: sid in sids ==> Dead(s, sid)
    case Clearing(_, AtSeal(sids, _)) => forall sid :: sid in sids ==> Dead(s, sid)
    case ClearDone(_, sids, _) => forall sid :: sid in sids ==> Dead(s, sid)
  }

  /** Every granted rotation spent a token of its session, and no token was spent by two of them. */
  predicate WinsMatch(s: State) {
    && (forall w :: w in s.wins ==> Spent(s, w.sid, w.jti))
    && (forall v, w :: v in s.wins && w in s.wins && v.jti == w.jti ==> v == w)
  }

  ghost predicate Inv(s: State) {
    && (forall sid :: sid in s.k.sessions ==> RecordMatches(s, sid))
    && (forall user, sid :: sid in Members(s.k, user) ==> sid in s.chains)
    && (forall s1, s2 :: GivenOnce(s.chains, s1, s2))
    && (forall pid :: pid in s.calls ==> CallMatches(s, pid))
    && WinsMatch(s)
  }

  // ---------------------------------------------------------------- every step keeps it

  /** The keys lose sessions and index members and nothing else happens to them. */
  ghost predicate Shrinks(k: Keyspace, k': Keyspace) {
    && (forall sid :: sid in k'.sessions ==> sid in k.sessions && k'.sessions[sid].value == k.sessions[sid].value)
    && (forall user, sid :: sid in Members(k', user) ==> sid in Members(k, user))
  }

  lemma {:induction false} ShrinkKeepsCall(s: State, s': State, pid: Pid)
    requires pid in s.calls && pid in s'.calls && s'.calls[pid] == s.calls[pid] && CallMatches(s, pid)
    requires s'.chains == s.chains && s.wins <= s'.wins && Shrinks(s.k, s'.k)
    ensures CallMatches(s', pid)
  {
  }

  /** A step of one call that only loses keys. */
  lemma {:induction false} ShrinkKeepsInv(s: State, k': Keyspace, pid: Pid, p: Process)
    requires Inv(s) && Shrinks(s.k, k') && CallMatches(Put(s, k', pid, p), pid)
    ensures Inv(Put(s, k', pid, p))
  {
    var s' := Put(s, k', pid, p);
    forall q | q in s'.calls ensures CallMatches(s', q) {
      if q != pid {
        ShrinkKeepsCall(s, s', q);
      }
    }
    forall sid | sid in s'.k.sessions ensures RecordMatches(s', sid) {
      assert RecordMatches(s, sid);
    }
    forall w | w in s'.wins ensures Spent(s', w.sid, w.jti) {
      assert Spent(s, w.sid, w.jti);
    }
  }

  lemma {:induction false} RevokeCommandShrinks(c: S.Config, k: Keyspace, sid: Sid, pc: RevokePc)
    ensures Shrinks(k, RevokeCommand(c, k, sid, pc).0)
  {
    var k' := RevokeCommand(c, k, sid, pc).0;
    forall u, s | s in Members(k', u) ensures s in Members(k, u) {
      assert u in k'.index && u in k.index;
    }
  }

  lemma {:induction false} ElapseKeepsInv(s: State, to: int)
    requires Inv(s)
    ensures Inv(s.(k := AfterElapse(s.k, to)))
  {
    var s' := s.(k := AfterElapse(s.k, to));
    assert Shrinks(s.k, s'.k);
    forall q | q in s'.calls ensures CallMatches(s', q) {
      ShrinkKeepsCall(s, s', q);
    }
    forall sid | sid in s'.k.sessions ensures RecordMatches(s', sid) {
      assert RecordMatches(s, sid);
    }
    forall w | w in s'.wins ensures Spent(s', w.sid, w.jti) {
      assert Spent(s, w.sid, w.jti);
    }
  }

  /** A chain that grows, or starts, at one session with a fresh token. */
  lemma {:induction false} ExtendGivenOnce(s: State, sid: Sid, before: seq<Jti>, jti: Jti, chains': map<Sid, seq<Jti>>)
    requires Inv(s) && FreshJti(s, jti)
    requires before == (if sid in s.chains then s.chains[sid] else []) && chains' == s.chains[sid := before + [jti]]
    ensures forall s1, s2 :: GivenOnce(chains', s1, s2)
  {
    forall s1, s2 ensures GivenOnce(chains', s1, s2) {
      assert GivenOnce(s.chains, s1, s2);
      assert s1 in s.chains ==> jti !in s.chains[s1];
      assert s2 in s.chains ==> jti !in s.chains[s2];
      if s1 in chains' && s2 in chains' {
        forall i, j | 0 <= i < |chains'[s1]| && 0 <= j < |chains'[s2]| && chains'[s1][i] == chains'[s2][j]
          ensures s1 == s2 && i == j
        {
          ExtendedAt(s.chains, sid, before, jti, chains', s1, i);
          ExtendedAt(s.chains, sid, before, jti, chains', s2, j);
        }
      }
    }
  }

  /** A position of the extended chains is the new token, or was there before. */
  lemma {:induction false} ExtendedAt(
    chains: map<Sid, seq<Jti>>, sid: Sid, before: seq<Jti>, jti: Jti, chains': map<Sid, seq<Jti>>, x: Sid, i: nat)
    requires before == (if sid in chains then chains[sid] else []) && chains' == chains[sid := before + [jti]]
    requires x in chains' && i < |chains'[x]|
    ensures (x == sid && i == |before| && chains'[x][i] == jti) ||
            (x in chains && i < |chains[x]| && chains'[x][i] == chains[x][i] && chains'[x][i] in chains[x])
  {
  }

  lemma {:induction false} SpentGrows(s: State, s': State, sid: Sid, jti: Jti)
    requires Spent(s, sid, jti) && sid in s'.chains && s.chains[sid] <= s'.chains[sid]
    ensures Spent(s', sid, jti)
  {
    var i :| 0 <= i < |s.chains[sid]| - 1 && s.chains[sid][i] == jti;
    assert s'.chains[sid][i] == jti;
  }

  lemma {:induction false} CreateKeepsRecord(c: S.Config, s: State, user: UserId, sid: Sid, jti: Jti, x: Sid)
    requires Enabled(s, Create(user, sid, jti)) && x in Apply(c, s, Create(user, sid, jti)).k.sessions
    requires x in s.k.sessions ==> RecordMatches(s, x)
    ensures RecordMatches(Apply(c, s, Create(user, sid, jti)), x)
  {
  }

  lemma {:induction false} CreateKeepsCall(c: S.Config, s: State, user: UserId, sid: Sid, jti: Jti, q: Pid)
    requires Enabled(s, Create(user, sid, jti)) && q in s.calls && CallMatches(s, q)
    ensures CallMatches(Apply(c, s, Create(user, sid, jti)), q)
  {
    assert !Names(s.calls[q], sid);
  }

  lemma {:induction false} CreateKeepsRest(c: S.Config, s: State, user: UserId, sid: Sid, jti: Jti)
    requires Inv(s) && Enabled(s, Create(user, sid, jti))
    ensures var s' := Apply(c, s, Create(user, sid, jti));
            && s'.calls == s.calls && s'.wins == s.wins && s'.chains == s.chains[sid := [jti]] && sid !in s.chains
            && (forall u, x :: x in Members(s'.k, u) ==> x in s'.chains)
  {
    var s' := Apply(c, s, Create(user, sid, jti));
    forall u, x | x in Members(s'.k, u) ensures x in s'.chains {
      assert x == sid || x in Members(s.k, u);
    }
  }

  lemma {:induction false} CreateKeepsInv(c: S.Config, s: State, user: UserId, sid: Sid, jti: Jti)
    requires Inv(s) && Enabled(s, Create(user, sid, jti))
    ensures Inv(Apply(c, s, Create(user, sid, jti)))
  {
    var s' := Apply(c, s, Create(user, sid, jti));
    CreateKeepsRest(c, s, user, sid, jti);
    assert FreshJti(s, jti);
    hide Apply;
    hide Enabled;
    hide RecordMatches;
    hide CallMatches;
    assert [] + [jti] == [jti];
    ExtendGivenOnce(s, sid, [], jti, s'.chains);
    hide GivenOnce;
    forall x | x in s'.k.sessions ensures RecordMatches(s', x) {
      CreateKeepsRecord(c, s, user, sid, jti, x);
    }
    forall q | q in s'.calls ensures CallMatches(s', q) {
      CreateKeepsCall(c, s, user, sid, jti, q);
    }
    forall w | w in s'.wins ensures Spent(s', w.sid, w.jti) {
      SpentGrows(s, s', w.sid, w.jti);
    }
  }

  /** The token a granted rotation spends was not spent before. */
  lemma {:induction false} WinIsNew(s: State, sid: Sid)
    requires Inv(s) && sid in s.k.sessions
    ensures forall w :: w in s.wins ==> w.jti != s.k.sessions[sid].value.currentJti
  {
    assert RecordMatches(s, sid);
    forall w | w in s.wins ensures w.jti != s.k.sessions[sid].value.currentJti {
      assert Spent(s, w.sid, w.jti);
      assert GivenOnce(s.chains, w.sid, sid);
    }
  }

  lemma {:induction false} GrantKeepsRecord(
    c: S.Config, s: State, pid: Pid, sid: Sid, presented: Jti, newJti: Jti, x: Sid)
    requires sid in s.k.sessions && s.k.sessions[sid].value.currentJti == presented && x in s.k.sessions
    requires RecordMatches(s, sid) && RecordMatches(s, x)
    ensures x in EvalStep(c, s, pid, sid, presented, newJti).k.sessions
    ensures RecordMatches(EvalStep(c, s, pid, sid, presented, newJti), x)
  {
  }

  lemma {:induction false} GrantKeepsCall(
    c: S.Config, s: State, pid: Pid, sid: Sid, presented: Jti, newJti: Jti, q: Pid)
    requires sid in s.k.sessions && s.k.sessions[sid].value.currentJti == presented && sid in s.chains
    requires q in s.calls && (q != pid ==> CallMatches(s, q))
    ensures var s' := EvalStep(c, s, pid, sid, presented, newJti); q in s'.calls && CallMatches(s', q)
  {
  }

  lemma {:induction false} GrantChanges(c: S.Config, s: State, pid: Pid, sid: Sid, presented: Jti, newJti: Jti)
    requires pid in s.calls && sid in s.chains
    requires sid in s.k.sessions && s.k.sessions[sid].value.currentJti == presented
    ensures var s' := EvalStep(c, s, pid, sid, presented, newJti);
            && s'.calls.Keys == s.calls.Keys && s'.k.sessions.Keys == s.k.sessions.Keys
            && s'.chains == s.chains[sid := s.chains[sid] + [newJti]] && s'.k.index == s.k.index
            && s'.wins == s.wins + {Win(pid, sid, presented)}
  {
  }

  lemma {:induction false} GrantKeepsWins(s: State, s': State, pid: Pid, sid: Sid, newJti: Jti)
    requires WinsMatch(s) && sid in s.k.sessions && RecordMatches(s, sid)
    requires s'.chains == s.chains[sid := s.chains[sid] + [newJti]]
    requires s'.wins == s.wins + {Win(pid, sid, s.k.sessions[sid].value.currentJti)}
    requires forall w :: w in s.wins ==> w.jti != s.k.sessions[sid].value.currentJti
    ensures WinsMatch(s')
  {
    var chain := s.chains[sid];
    forall w | w in s'.wins ensures Spent(s', w.sid, w.jti) {
      if w in s.wins {
        SpentGrows(s, s', w.sid, w.jti);
      } else {
        assert s'.chains[sid][|chain| - 1] == w.jti;
      }
    }
  }

  lemma {:induction false} GrantKeepsInv(c: S.Config, s: State, pid: Pid, sid: Sid, presented: Jti, newJti: Jti)
    requires Inv(s) && pid in s.calls && s.calls[pid] == Rotating(sid, presented) && FreshJti(s, newJti)
    requires sid in s.k.sessions && s.k.sessions[sid].value.currentJti == presented
    ensures Inv(EvalStep(c, s, pid, sid, presented, newJti))
  {
    var s' := EvalStep(c, s, pid, sid, presented, newJti);
    assert RecordMatches(s, sid);
    assert pid in s.calls && WinsMatch(s);
    hide *;
    GrantChanges(c, s, pid, sid, presented, newJti);
    WinIsNew(s, sid);
    GrantKeepsWins(s, s', pid, sid, newJti);
    ExtendGivenOnce(s, sid, s.chains[sid], newJti, s'.chains);
    GrantKeepsRest(c, s, pid, sid, presented, newJti);
    InvIs(s');
  }

  lemma {:induction false} GrantKeepsRest(c: S.Config, s: State, pid: Pid, sid: Sid, presented: Jti, newJti: Jti)
    requires Inv(s) && pid in s.calls && sid in s.k.sessions && s.k.sessions[sid].value.currentJti == presented
    ensures var s' := EvalStep(c, s, pid, sid, presented, newJti);
            && (forall x :: x in s'.k.sessions ==> RecordMatches(s', x))
            && (forall u, x :: x in Members(s'.k, u) ==> x in s'.chains)
            && (forall q :: q in s'.calls ==> CallMatches(s', q))
  {
    var s' := EvalStep(c, s, pid, sid, presented, newJti);
    assert RecordMatches(s, sid);
    GrantChanges(c, s, pid, sid, presented, newJti);
    hide EvalStep;
    hide RecordMatches;
    hide CallMatches;
    hide GivenOnce;
    hide WinsMatch;
    forall x | x in s'.k.sessions ensures RecordMatches(s', x) {
      GrantKeepsRecord(c, s, pid, sid, presented, newJti, x);
    }
    forall u, x | x in Members(s'.k, u) ensures x in s'.chains {
      assert x in Members(s.k, u);
    }
    forall q | q in s'.calls ensures CallMatches(s', q) {
      GrantKeepsCall(c, s, pid, sid, presented, newJti, q);
    }
  }

  lemma {:induction false} InvIs(s: State)
    requires forall sid :: sid in s.k.sessions ==> RecordMatches(s, sid)
    requires forall user, sid :: sid in Members(s.k, user) ==> sid in s.chains
    requires forall s1, s2 :: GivenOnce(s.chains, s1, s2)
    requires forall pid :: pid in s.calls ==> CallMatches(s, pid)
    requires WinsMatch(s)
    ensures Inv(s)
  {
  }

  lemma {:induction false} EvalKeepsInv(c: S.Config, s: State, pid: Pid, sid: Sid, presented: Jti, newJti: Jti)
    requires Inv(s) && pid in s.calls && s.calls[pid] == Rotating(sid, presented) && FreshJti(s, newJti)
    ensures Inv(EvalStep(c, s, pid, sid, presented, newJti))
  {
    if sid in s.k.sessions && s.k.sessions[sid].value.currentJti == presented {
      GrantKeepsInv(c, s, pid, sid, presented, newJti);
    } else {
      var verdict := RotateVerdict(s.k, sid, presented, newJti, c.graceMs);
      var next := if verdict == Reuse then Killing(sid, presented, AtGet) else RotateDone(sid, presented, verdict);
      ShrinkKeepsInv(s, s.k, pid, next);
    }
  }

  lemma {:induction false} ClearKeepsInv(c: S.Config, s: State, pid: Pid, user: UserId, pc: ClearPc)
    requires Inv(s) && pid in s.calls && s.calls[pid] == Clearing(user, pc)
    ensures Inv(ClearCommand(c, s, pid, user, pc))
  {
    var s' := ClearCommand(c, s, pid, user, pc);
    ClearShrinks(c, s, pid, user, pc);
    assert CallMatches(s, pid);
    ClearKeepsCall(c, s, pid, user, pc);
    hide *;
    ShrinkKeepsInv(s, s'.k, pid, s'.calls[pid]);
  }

  lemma {:induction false} ClearShrinks(c: S.Config, s: State, pid: Pid, user: UserId, pc: ClearPc)
    ensures var s' := ClearCommand(c, s, pid, user, pc);
            pid in s'.calls && s' == Put(s, s'.k, pid, s'.calls[pid]) && Shrinks(s.k, s'.k)
  {
    var s' := ClearCommand(c, s, pid, user, pc);
    forall u, x | x in Members(s'.k, u) ensures x in Members(s.k, u) {
      assert u in s'.k.index && u in s.k.index;
    }
  }

  lemma {:induction false} ClearKeepsCall(c: S.Config, s: State, pid: Pid, user: UserId, pc: ClearPc)
    requires pid in s.calls && s.calls[pid] == Clearing(user, pc) && CallMatches(s, pid)
    requires forall sid :: sid in Members(s.k, user) ==> sid in s.chains
    ensures pid in ClearCommand(c, s, pid, user, pc).calls && CallMatches(ClearCommand(c, s, pid, user, pc), pid)
  {
  }

  lemma {:induction false} StepKeepsInv(c: S.Config, s: State, step: Step)
    requires Inv(s) && Enabled(s, step)
    ensures Inv(Apply(c, s, step))
  {
    match step {
      case Elapse(to) => ElapseKeepsInv(s, to);
      case Create(user, sid, jti) => CreateKeepsInv(c, s, user, sid, jti);
      case StartRotate(pid, sid, presented) => ShrinkKeepsInv(s, s.k, pid, Rotating(sid, presented));
      case StartRevoke(pid, sid) => ShrinkKeepsInv(s, s.k, pid, Revoking(sid, AtGet));
      case StartClear(pid, user) => ShrinkKeepsInv(s, s.k, pid, Clearing(user, AtSmembers));
      case Advance(pid, newJti) =>
        assert CallMatches(s, pid);
        match s.calls[pid] {
          case Rotating(sid, presented) => EvalKeepsInv(c, s, pid, sid, presented, newJti);
          case Killing(sid, presented, pc) =>
            RevokeCommandShrinks(c, s.k, sid, pc);
            ShrinkKeepsInv(s, RevokeCommand(c, s.k, sid, pc).0, pid, Apply(c, s, step).calls[pid]);
          case Revoking(sid, pc) =>
            RevokeCommandShrinks(c, s.k, sid, pc);
            ShrinkKeepsInv(s, RevokeCommand(c, s.k, sid, pc).0, pid, Apply(c, s, step).calls[pid]);
          case Clearing(user, pc) => ClearKeepsInv(c, s, pid, user, pc);
          case _ =>
        }
    }
  }

  lemma {:induction false} RunKeepsInv(c: S.Config, s: State, steps: seq<Step>)
    requires Inv(s) && Legal(c, s, steps)
    ensures Inv(Run(c, s, steps))
    decreases |steps|
  {
    if steps != [] {
      StepKeepsInv(c, s, steps[0]);
      RunKeepsInv(c, Apply(c, s, steps[0]), steps[1..]);
    }
  }

  // ---------------------------------------------------------------- what it gives

  lemma {:induction false} EvalKeepsDead(
    c: S.Config, s: State, pid: Pid, x: Sid, presented: Jti, newJti: Jti, sid: Sid)
    requires Dead(s, sid)
    ensures Dead(EvalStep(c, s, pid, x, presented, newJti), sid)
  {
  }

  lemma {:induction false} ClearKeepsDead(c: S.Config, s: State, pid: Pid, user: UserId, pc: ClearPc, sid: Sid)
    requires Dead(s, sid)
    ensures Dead(ClearCommand(c, s, pid, user, pc), sid)
  {
  }

  lemma {:induction false} AdvanceKeepsDead(c: S.Config, s: State, pid: Pid, newJti: Jti, sid: Sid)
    requires pid in s.calls && Dead(s, sid)
    ensures Dead(AdvanceCall(c, s, pid, newJti), sid)
  {
    hide EvalStep;
    hide ClearCommand;
    match s.calls[pid] {
      case Rotating(x, presented) => EvalKeepsDead(c, s, pid, x, presented, newJti, sid);
      case Clearing(user, pc) => ClearKeepsDead(c, s, pid, user, pc, sid);
      case Killing(x, _, pc) =>
        RevokeCommandShrinks(c, s.k, x, pc);
        hide RevokeCommand;
      case Revoking(x, pc) =>
        RevokeCommandShrinks(c, s.k, x, pc);
        hide RevokeCommand;
      case _ =>
    }
  }

  lemma {:induction false} StepKeepsDead(c: S.Config, s: State, step: Step, sid: Sid)
    requires Enabled(s, step) && Dead(s, sid)
    ensures Dead(Apply(c, s, step), sid)
  {
    if step.Advance? {
      AdvanceKeepsDead(c, s, step.pid, step.newJti, sid);
    }
    hide AdvanceCall;
  }

  /** No step of any call recreates a session whose record is gone, however the run goes on. */
  lemma {:induction false} DeadStaysDead(c: S.Config, s: State, steps: seq<Step>, sid: Sid)
    requires Legal(c, s, steps) && Dead(s, sid)
    ensures Dead(Run(c, s, steps), sid)
    decreases |steps|
  {
    if steps != [] {
      StepKeepsDead(c, s, steps[0], sid);
      DeadStaysDead(c, Apply(c, s, steps[0]), steps[1..], sid);
    }
  }

  /** Whatever the interleaving, a token is rotated by at most one call, in one session. */
  lemma {:induction false} OneWinnerPerToken(c: S.Config, steps: seq<Step>, p: Pid, q: Pid)
    requires Legal(c, INITIAL, steps)
    ensures var s := Run(c, INITIAL, steps);
            p in s.calls && q in s.calls && s.calls[p].RotateDone? && s.calls[q].RotateDone? &&
            s.calls[p].verdict.Rotated? && s.calls[q].verdict.Rotated? &&
              s.calls[p].presented == s.calls[q].presented ==>
            p == q
  {
    RunKeepsInv(c, INITIAL, steps);
    var s := Run(c, INITIAL, steps);
    assert p in s.calls ==> CallMatches(s, p);
    assert q in s.calls ==> CallMatches(s, q);
  }

  /** No call was ever answered from the grace window. */
  predicate NoGraceAnswer(s: State) {
    forall pid :: pid in s.calls && s.calls[pid].RotateDone? ==> !s.calls[pid].verdict.Grace?
  }

  lemma {:induction false} StepNoGrace(c: S.Config, s: State, step: Step)
    requires Enabled(s, step) && c.graceMs <= 0 && NoGraceAnswer(s)
    ensures NoGraceAnswer(Apply(c, s, step))
  {
    var s' := Apply(c, s, step);
    if step.Advance? {
      AdvancesItself(c, s, step.pid, step.newJti);
      AdvanceNoGrace(c, s, step.pid, step.newJti);
    }
    hide AdvanceCall;
    forall pid | pid in s'.calls && s'.calls[pid].RotateDone? ensures !s'.calls[pid].verdict.Grace? {
      assert pid in s.calls;
    }
  }

  lemma {:induction false} AdvanceNoGrace(c: S.Config, s: State, pid: Pid, newJti: Jti)
    requires pid in s.calls && !s.calls[pid].RotateDone? && c.graceMs <= 0
    ensures var p := AdvanceCall(c, s, pid, newJti).calls;
            pid in p && (p[pid].RotateDone? ==> !p[pid].verdict.Grace?)
  {
    hide RevokeCommand;
  }

  lemma {:induction false} NoGrace(c: S.Config, s: State, steps: seq<Step>)
    requires Legal(c, s, steps) && c.graceMs <= 0 && NoGraceAnswer(s)
    ensures NoGraceAnswer(Run(c, s, steps))
    decreases |steps|
  {
    if steps != [] {
      StepNoGrace(c, s, steps[0]);
      NoGrace(c, Apply(c, s, steps[0]), steps[1..]);
    }
  }

  /** Strict reuse detection: once two calls presenting the same token have completed, the session is gone, for good. */
  lemma {:induction false} ReuseKillsSession(c: S.Config, steps: seq<Step>, later: seq<Step>, p: Pid, q: Pid)
    requires Legal(c, INITIAL, steps) && Legal(c, Run(c, INITIAL, steps), later) && c.graceMs <= 0
    requires var s := Run(c, INITIAL, steps);
             && p != q && p in s.calls && q in s.calls && s.calls[p].RotateDone? && s.calls[q].RotateDone?
             && s.calls[p].sid == s.calls[q].sid && s.calls[p].presented == s.calls[q].presented
             && s.calls[p].sid in s.chains
    ensures Dead(Run(c, Run(c, INITIAL, steps), later), Run(c, INITIAL, steps).calls[p].sid)
  {
    RunKeepsInv(c, INITIAL, steps);
    NoGrace(c, INITIAL, steps);
    var s := Run(c, INITIAL, steps);
    OneWinnerPerToken(c, steps, p, q);
    assert CallMatches(s, p) && CallMatches(s, q);
    DeadStaysDead(c, s, later, s.calls[p].sid);
  }

  /** The sessions a completed `revokeAllForUser` found in the index are dead, whatever ran beside it. */
  lemma {:induction false} ClearedStayDead(c: S.Config, steps: seq<Step>, later: seq<Step>, pid: Pid, sid: Sid)
    requires Legal(c, INITIAL, steps) && Legal(c, Run(c, INITIAL, steps), later)
    requires var s := Run(c, INITIAL, steps);
             pid in s.calls && s.calls[pid].ClearDone? && sid in s.calls[pid].sids
    ensures Dead(Run(c, Run(c, INITIAL, steps), later), sid)
  {
    RunKeepsInv(c, INITIAL, steps);
    assert CallMatches(Run(c, INITIAL, steps), pid);
    DeadStaysDead(c, Run(c, INITIAL, steps), later, sid);
  }

  /**
    In every reachable state the tokens of a live session are a chain without repetition, and the verdict on any
    presented token is decided by its place in it: the last rotates, the one before it is answered with the last
    inside the grace window, counted from the rotation that replaced it, and every other token, older or foreign, is
    reuse.
   */
  lemma {:induction false} ChainDecidesVerdict(c: S.Config, steps: seq<Step>, sid: Sid, presented: Jti, newJti: Jti)
    requires Legal(c, INITIAL, steps) && sid in Run(c, INITIAL, steps).k.sessions
    ensures var s := Run(c, INITIAL, steps);
            && sid in s.chains && |Given(s, sid)| == |s.chains[sid]| >= 1
            && (forall i, j :: 0 <= i < j < |s.chains[sid]| ==> s.chains[sid][i] != s.chains[sid][j])
            && var chain := s.chains[sid];
               var verdict := RotateVerdict(s.k, sid, presented, newJti, c.graceMs);
               var n := |chain| - 1;
               && (verdict == Rotated(newJti) <==> presented == chain[n])
               && (verdict == Grace(chain[n]) <==>
                     n >= 1 && presented == chain[n - 1] && c.graceMs > 0 && s.k.now - Given(s, sid)[n] <= c.graceMs)
               && (presented != chain[n] && (n == 0 || presented != chain[n - 1]) ==> verdict == Reuse)
               && (presented != chain[n] ==> AfterRotate(s.k, sid, presented, newJti, c.ttlSeconds) == s.k)
  {
    RunKeepsInv(c, INITIAL, steps);
    var s := Run(c, INITIAL, steps);
    assert RecordMatches(s, sid);
    assert GivenOnce(s.chains, sid, sid);
  }

  /**
    In every reachable state the last activity the store lists for a live session is the time it was last given a
    token: that of its last rotation, or of its login if it was never rotated.
   */
  lemma {:induction false} ActivityIsLastGiven(c: S.Config, steps: seq<Step>, user: UserId, sid: Sid)
    requires Legal(c, INITIAL, steps) && sid in S.IndexedSessions(Run(c, INITIAL, steps).k, user)
    ensures var s := Run(c, INITIAL, steps);
            && |Given(s, sid)| >= 1
            && S.LastActivity(s.k.sessions[sid].value) == Given(s, sid)[|Given(s, sid)| - 1]
  {
    RunKeepsInv(c, INITIAL, steps);
    assert RecordMatches(Run(c, INITIAL, steps), sid);
  }

  /** A rotation granted now is recorded with this time and token, and a login starts the session's list. */
  lemma {:induction false} GivenGrows(c: S.Config, s: State, step: Step, sid: Sid)
    requires Enabled(s, step) && sid in Apply(c, s, step).chains
    ensures var s' := Apply(c, s, step);
            if sid in s.chains && s'.chains[sid] == s.chains[sid] then Given(s', sid) == Given(s, sid)
            else Given(s', sid) == (if step.Create? then [] else Given(s, sid)) + [s.k.now] && s'.k.now == s.k.now
  {
    hide RevokeCommand;
  }

  /** Step by step: every step is enabled where it is taken. */
  ghost predicate Trace(c: S.Config, states: seq<State>, steps: seq<Step>) {
    |states| == |steps| + 1 &&
    forall i :: 0 <= i < |steps| ==> Enabled(states[i], steps[i]) && states[i + 1] == Apply(c, states[i], steps[i])
  }

  lemma {:induction false} TraceIsRun(c: S.Config, states: seq<State>, steps: seq<Step>)
    requires Trace(c, states, steps)
    ensures Legal(c, states[0], steps) && Run(c, states[0], steps) == states[|steps|]
    decreases |steps|
  {
    if steps != [] {
      TraceIsRun(c, states[1..], steps[1..]);
    }
  }

  lemma {:induction false} LoginThenSmembers(c: S.Config) returns (s1: State, s2: State, s3: State)
    ensures Trace(c, [INITIAL, s1, s2, s3], [Create(1, 1, 1), StartClear(9, 1), Advance(9, 5)])
    ensures s3.calls == map[9 := Clearing(1, AtDelKeys({1}))] && s3.chains == map[1 := [1]] && s3.k.sessions.Keys == {1}
  {
    s1 := Apply(c, INITIAL, Create(1, 1, 1));
    assert Members(s1.k, 1) == {1} && s1.calls == map[];
    s2 := Apply(c, s1, StartClear(9, 1));
    assert s2.calls == map[9 := Clearing(1, AtSmembers)];
    s3 := Apply(c, s2, Advance(9, 5));
    assert s3.calls[9] == Clearing(1, AtDelKeys({1}));
  }

  lemma {:induction false} LoginDuringClear(c: S.Config, s3: State) returns (s4: State)
    requires s3.calls == map[9 := Clearing(1, AtDelKeys({1}))] && s3.chains == map[1 := [1]] &&
             s3.k.sessions.Keys == {1}
    ensures Trace(c, [s3, s4], [Create(1, 2, 2)])
    ensures s4.calls == s3.calls && s4.chains == map[1 := [1], 2 := [2]]
    ensures s4.k.sessions.Keys == {1, 2} && s4.k.sessions[2].value.userId == 1
  {
    s4 := Apply(c, s3, Create(1, 2, 2));
  }

  lemma {:induction false} ClearDeletes(c: S.Config, s4: State) returns (s5: State)
    requires s4.calls == map[9 := Clearing(1, AtDelKeys({1}))] && s4.chains == map[1 := [1], 2 := [2]]
    requires s4.k.sessions.Keys == {1, 2} && s4.k.sessions[2].value.userId == 1
    ensures Trace(c, [s4, s5], [Advance(9, 5)])
    ensures s5.calls == map[9 := Clearing(1, AtDelIndex({1}, 1))] && s5.chains == s4.chains
    ensures s5.k.sessions.Keys == {2} && s5.k.sessions[2].value.userId == 1
  {
    s5 := Apply(c, s4, Advance(9, 5));
    assert s4.k.sessions.Keys * {1} == {1};
    assert s5.calls[9] == Clearing(1, AtDelIndex({1}, 1));
  }

  lemma {:induction false} ClearEnds(c: S.Config, s5: State) returns (s6: State, s7: State)
    requires s5.calls == map[9 := Clearing(1, AtDelIndex({1}, 1))] && s5.chains == map[1 := [1], 2 := [2]]
    ensures Trace(c, [s5, s6, s7], [Advance(9, 5), Advance(9, 5)])
    ensures s7.calls == map[9 := ClearDone(1, {1}, 1)] && s7.k.sessions == s5.k.sessions && Members(s7.k, 1) == {}
  {
    s6 := Apply(c, s5, Advance(9, 5));
    s7 := Apply(c, s6, Advance(9, 5));
  }

  lemma {:induction false} RunJoins(c: S.Config, s: State, a: seq<Step>, b: seq<Step>)
    requires Legal(c, s, a) && Legal(c, Run(c, s, a), b)
    ensures Legal(c, s, a + b) && Run(c, s, a + b) == Run(c, Run(c, s, a), b)
    decreases |a|
  {
    if a == [] {
      assert a + b == b;
    } else {
      assert (a + b)[1..] == a[1..] + b;
      RunJoins(c, Apply(c, s, a[0]), a[1..], b);
    }
  }

  /**
    A login that lands between the SMEMBERS and the DEL of the index key of `revokeAllForUser` loses its index entry:
    its session lives on, and a second `revokeAllForUser` does not find it.
   */
  lemma {:induction false} InterleavedLoginEscapes(c: S.Config) returns (steps: seq<Step>)
    ensures Legal(c, INITIAL, steps)
    ensures var s := Run(c, INITIAL, steps);
            && 2 in s.k.sessions && s.k.sessions[2].value.userId == 1
            && 9 in s.calls && s.calls[9] == ClearDone(1, {1}, 1)
            && S.IndexedSessions(s.k, 1) == {}
  {
    var s1, s2, s3 := LoginThenSmembers(c);
    var s4 := LoginDuringClear(c, s3);
    var s5 := ClearDeletes(c, s4);
    var s6, s7 := ClearEnds(c, s5);
    var first := [Create(1, 1, 1), StartClear(9, 1), Advance(9, 5)];
    TraceIsRun(c, [INITIAL, s1, s2, s3], first);
    TraceIsRun(c, [s3, s4], [Create(1, 2, 2)]);
    TraceIsRun(c, [s4, s5], [Advance(9, 5)]);
    TraceIsRun(c, [s5, s6, s7], [Advance(9, 5), Advance(9, 5)]);
    RunJoins(c, INITIAL, first, [Create(1, 2, 2)]);
    RunJoins(c, INITIAL, first + [Create(1, 2, 2)], [Advance(9, 5)]);
    steps := first + [Create(1, 2, 2)] + [Advance(9, 5)];
    RunJoins(c, INITIAL, steps, [Advance(9, 5), Advance(9, 5)]);
    steps := steps + [Advance(9, 5), Advance(9, 5)];
  }
}
