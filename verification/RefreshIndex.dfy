/** The per-user session index under concurrency: exactly which live sessions it misses, and when a count is exact. */
module RefreshIndex {
  import opened Common
  import opened Redis
  import opened RefreshConcurrency
  import S = RefreshStore

  /**
    A state with three history variables: the sessions whose index entry was taken away while they lived; and for each
    `revokeAllForUser` since its SMEMBERS, the sessions that were without an entry then and those created since.
   */
  datatype Trail = Trail(s: State, dropped: set<Sid>, missing: map<Pid, set<Sid>>, newborn: map<Pid, set<Sid>>)

  const BEGIN := Trail(INITIAL, {}, map[], map[])

  function Born(newborn: map<Pid, set<Sid>>, sid: Sid): map<Pid, set<Sid>> {
    map pid | pid in newborn :: newborn[pid] + {sid}
  }

  function After(c: S.Config, t: Trail, step: Step): Trail
    requires Enabled(t.s, step)
  {
    var s' := Apply(c, t.s, step);
    match step
    case Elapse(to) => Trail(s', t.dropped + S.Orphans(t.s.k, to), t.missing, t.newborn)
    case Create(_, sid, _) => Trail(s', t.dropped, t.missing, Born(t.newborn, sid))
    case Advance(pid, _) =>
      (match t.s.calls[pid]
       case Clearing(_, AtSmembers) => Trail(s', t.dropped, t.missing[pid := t.dropped], t.newborn[pid := {}])
       case Clearing(user, AtDelIndex(_, _)) =>
         Trail(s', t.dropped + S.IndexedSessions(t.s.k, user), t.missing, t.newborn)
       case _ => Trail(s', t.dropped, t.missing, t.newborn))
    case _ => Trail(s', t.dropped, t.missing, t.newborn)
  }

  function AfterAll(c: S.Config, t: Trail, steps: seq<Step>): Trail
    requires Legal(c, t.s, steps)
    decreases |steps|
  {
    if steps == [] then t else AfterAll(c, After(c, t, steps[0]), steps[1..])
  }

  lemma {:induction false} TrailIsRun(c: S.Config, t: Trail, steps: seq<Step>)
    requires Legal(c, t.s, steps)
    ensures AfterAll(c, t, steps).s == Run(c, t.s, steps)
    decreases |steps|
  {
    if steps != [] {
      TrailIsRun(c, After(c, t, steps[0]), steps[1..]);
    }
  }

  // ---------------------------------------------------------------- the invariant

  predicate Owns(k: Keyspace, user: UserId, sid: Sid) {
    sid in k.sessions && k.sessions[sid].value.userId == user
  }

  /** A live session has its entry unless it was taken away. */
  predicate EntryMatches(t: Trail, sid: Sid)
    requires sid in t.s.k.sessions
  {
    sid in Members(t.s.k, t.s.k.sessions[sid].value.userId) <==> sid !in t.dropped
  }

  /** An index names no live session of another user. */
  predicate MemberMatches(t: Trail, user: UserId, sid: Sid) {
    sid in Members(t.s.k, user) && sid in t.s.k.sessions ==> Owns(t.s.k, user, sid)
  }

  /** The clear is between its SMEMBERS and its DEL of the index. */
  predicate InWindow(p: Process, user: UserId) {
    p.Clearing? && p.user == user && (p.clear.AtDelKeys? || p.clear.AtDelIndex?)
  }

  /** What a clear has read, what was without an entry then, and what came since make up the user's live sessions. */
  ghost predicate ClearMatches(t: Trail, pid: Pid)
    requires pid in t.s.calls && t.s.calls[pid].Clearing? && InWindow(t.s.calls[pid], t.s.calls[pid].user)
  {
    var user, sids := t.s.calls[pid].user, t.s.calls[pid].clear.sids;
    && pid in t.missing && pid in t.newborn
    && (forall sid :: sid in sids || sid in t.missing[pid] || sid in t.newborn[pid] ==> sid in t.s.chains)
    && (forall sid :: sid in sids && sid in t.s.k.sessions ==>
          Owns(t.s.k, user, sid) && sid !in t.missing[pid] && sid !in t.newborn[pid])
    && (forall sid :: Owns(t.s.k, user, sid) ==> sid in sids || sid in t.missing[pid] || sid in t.newborn[pid])
    && (forall sid :: sid in Members(t.s.k, user) ==> sid in sids || sid in t.newborn[pid])
  }

  ghost predicate TrailInv(t: Trail) {
    && Inv(t.s)
    && (forall sid :: sid in t.dropped ==> sid in t.s.chains)
    && (forall sid :: sid in t.s.k.sessions ==> EntryMatches(t, sid))
    && (forall user, sid :: MemberMatches(t, user, sid))
    && (forall pid :: pid in t.s.calls && t.s.calls[pid].Clearing? && InWindow(t.s.calls[pid], t.s.calls[pid].user) ==>
          ClearMatches(t, pid))
  }

  // ---------------------------------------------------------------- every step keeps it

  /** Sessions and entries only go, an entry only with its session or into `dropped`. */
  ghost predicate Loses(t: Trail, t': Trail) {
    && (forall sid :: sid in t.s.chains ==> sid in t'.s.chains)
    && (forall sid :: sid in t'.s.k.sessions ==>
          sid in t.s.k.sessions && t'.s.k.sessions[sid].value.userId == t.s.k.sessions[sid].value.userId)
    && (forall user, sid :: sid in Members(t'.s.k, user) ==> sid in Members(t.s.k, user))
    && (forall user, sid :: Owns(t'.s.k, user, sid) ==>
          (sid in Members(t.s.k, user) && sid !in Members(t'.s.k, user) <==> sid in t'.dropped && sid !in t.dropped))
    && t.dropped <= t'.dropped && (forall sid :: sid in t'.dropped ==> sid in t'.s.chains)
  }

  lemma {:induction false} LosesKeepsEntries(t: Trail, t': Trail)
    requires TrailInv(t) && Loses(t, t')
    ensures forall sid :: sid in t'.s.k.sessions ==> EntryMatches(t', sid)
    ensures forall user, sid :: MemberMatches(t', user, sid)
  {
    forall sid | sid in t'.s.k.sessions ensures EntryMatches(t', sid) {
      assert EntryMatches(t, sid);
      assert Owns(t'.s.k, t'.s.k.sessions[sid].value.userId, sid);
    }
    forall user, sid ensures MemberMatches(t', user, sid) {
      assert MemberMatches(t, user, sid);
    }
  }

  lemma {:induction false} LosesKeepsClear(t: Trail, t': Trail, pid: Pid)
    requires Loses(t, t') && pid in t.s.calls && pid in t'.s.calls && t.s.calls[pid].Clearing? &&
             t'.s.calls[pid].Clearing?
    requires InWindow(t.s.calls[pid], t.s.calls[pid].user) && InWindow(t'.s.calls[pid], t.s.calls[pid].user)
    requires t'.s.calls[pid].clear.sids == t.s.calls[pid].clear.sids && ClearMatches(t, pid)
    requires pid in t'.missing && pid in t'.newborn && t'.missing[pid] == t.missing[pid] &&
             t'.newborn[pid] == t.newborn[pid]
    ensures ClearMatches(t', pid)
  {
    var user := t.s.calls[pid].user;
    forall sid | Owns(t'.s.k, user, sid)
      ensures sid in t.s.calls[pid].clear.sids || sid in t.missing[pid] || sid in t.newborn[pid]
    {
      assert Owns(t.s.k, user, sid);
    }
  }

  lemma {:induction false} ElapseLoses(c: S.Config, t: Trail, to: int)
    requires TrailInv(t)
    ensures Loses(t, Trail(t.s.(k := AfterElapse(t.s.k, to)), t.dropped + S.Orphans(t.s.k, to), t.missing, t.newborn))
  {
    var k' := AfterElapse(t.s.k, to);
    forall sid | sid in S.Orphans(t.s.k, to) ensures sid in t.s.chains {
      assert RecordMatches(t.s, sid);
    }
    forall user, sid | Owns(k', user, sid)
      ensures sid in Members(t.s.k, user) && sid !in Members(k', user) <==>
              sid in S.Orphans(t.s.k, to) && sid !in t.dropped
    {
      assert EntryMatches(t, sid);
    }
  }

  lemma {:induction false} StartKeeps(c: S.Config, t: Trail, step: Step)
    requires TrailInv(t) && Enabled(t.s, step) && (step.StartRotate? || step.StartRevoke? || step.StartClear?)
    ensures TrailInv(After(c, t, step))
  {
    var t' := After(c, t, step);
    StepKeepsInv(c, t.s, step);
    assert Loses(t, t');
    LosesKeepsEntries(t, t');
    forall pid | pid in t'.s.calls && t'.s.calls[pid].Clearing? && InWindow(t'.s.calls[pid], t'.s.calls[pid].user)
      ensures ClearMatches(t', pid)
    {
      assert t.s.calls[pid] == t'.s.calls[pid];
      LosesKeepsClear(t, t', pid);
    }
  }

  lemma {:induction false} ElapseKeeps(c: S.Config, t: Trail, to: int)
    requires TrailInv(t) && Enabled(t.s, Elapse(to))
    ensures TrailInv(After(c, t, Elapse(to)))
  {
    var t' := After(c, t, Elapse(to));
    StepKeepsInv(c, t.s, Elapse(to));
    ElapseLoses(c, t, to);
    LosesKeepsEntries(t, t');
    forall pid | pid in t'.s.calls && t'.s.calls[pid].Clearing? && InWindow(t'.s.calls[pid], t'.s.calls[pid].user)
      ensures ClearMatches(t', pid)
    {
      LosesKeepsClear(t, t', pid);
    }
  }

  lemma {:induction false} CreateKeepsClear(c: S.Config, t: Trail, user: UserId, sid: Sid, jti: Jti, pid: Pid)
    requires TrailInv(t) && Enabled(t.s, Create(user, sid, jti))
    requires pid in t.s.calls && t.s.calls[pid].Clearing? && InWindow(t.s.calls[pid], t.s.calls[pid].user)
    ensures ClearMatches(After(c, t, Create(user, sid, jti)), pid)
  {
    var t' := After(c, t, Create(user, sid, jti));
    assert ClearMatches(t, pid);
    var u := t.s.calls[pid].user;
    forall x | Owns(t'.s.k, u, x)
      ensures x in t.s.calls[pid].clear.sids || x in t'.missing[pid] || x in t'.newborn[pid]
    {
      assert x == sid || Owns(t.s.k, u, x);
    }
    forall x | x in Members(t'.s.k, u) ensures x in t.s.calls[pid].clear.sids || x in t'.newborn[pid] {
      assert x == sid || x in Members(t.s.k, u);
    }
  }

  lemma {:induction false} CreateKeeps(c: S.Config, t: Trail, user: UserId, sid: Sid, jti: Jti)
    requires TrailInv(t) && Enabled(t.s, Create(user, sid, jti))
    ensures TrailInv(After(c, t, Create(user, sid, jti)))
  {
    var t' := After(c, t, Create(user, sid, jti));
    StepKeepsInv(c, t.s, Create(user, sid, jti));
    forall x | x in t'.s.k.sessions ensures EntryMatches(t', x) {
      if x != sid {
        assert EntryMatches(t, x);
      }
    }
    forall u, x ensures MemberMatches(t', u, x) {
      assert MemberMatches(t, u, x);
      assert x in Members(t'.s.k, u) ==> x in Members(t.s.k, u) || (x == sid && u == user);
      assert sid !in Members(t.s.k, u);
    }
    forall pid | pid in t'.s.calls && t'.s.calls[pid].Clearing? && InWindow(t'.s.calls[pid], t'.s.calls[pid].user)
      ensures ClearMatches(t', pid)
    {
      CreateKeepsClear(c, t, user, sid, jti, pid);
    }
  }

  /** A step of a call that only takes sessions and entries away, and is not a SMEMBERS. */
  lemma {:induction false} LossKeeps(c: S.Config, t: Trail, pid: Pid, newJti: Jti)
    requires TrailInv(t) && Enabled(t.s, Advance(pid, newJti)) && Loses(t, After(c, t, Advance(pid, newJti)))
    requires !(t.s.calls[pid].Clearing? && t.s.calls[pid].clear.AtSmembers?)
    ensures TrailInv(After(c, t, Advance(pid, newJti)))
  {
    var t' := After(c, t, Advance(pid, newJti));
    StepKeepsInv(c, t.s, Advance(pid, newJti));
    LosesKeepsEntries(t, t');
    forall q | q in t'.s.calls && t'.s.calls[q].Clearing? && InWindow(t'.s.calls[q], t'.s.calls[q].user)
      ensures ClearMatches(t', q)
    {
      StillInWindow(c, t, pid, newJti, q);
      LosesKeepsClear(t, t', q);
    }
  }

  lemma {:induction false} StillInWindow(c: S.Config, t: Trail, pid: Pid, newJti: Jti, q: Pid)
    requires Enabled(t.s, Advance(pid, newJti)) && !(t.s.calls[pid].Clearing? && t.s.calls[pid].clear.AtSmembers?)
    requires var s' := After(c, t, Advance(pid, newJti)).s;
             q in s'.calls && s'.calls[q].Clearing? && InWindow(s'.calls[q], s'.calls[q].user)
    ensures var t' := After(c, t, Advance(pid, newJti));
            && q in t.s.calls && t.s.calls[q].Clearing? && InWindow(t.s.calls[q], t'.s.calls[q].user)
            && t.s.calls[q].clear.sids == t'.s.calls[q].clear.sids && t.s.calls[q].user == t'.s.calls[q].user
            && t'.missing == t.missing && t'.newborn == t.newborn
  {
    AdvancesItself(c, t.s, pid, newJti);
    ClearWindow(c, t.s, pid, newJti);
    hide AdvanceCall;
  }

  /** Past its SMEMBERS a clear keeps its user and what it has read. */
  lemma {:induction false} ClearWindow(c: S.Config, s: State, pid: Pid, newJti: Jti)
    requires pid in s.calls && !(s.calls[pid].Clearing? && s.calls[pid].clear.AtSmembers?)
    ensures var p, p' := s.calls[pid], AdvanceCall(c, s, pid, newJti).calls;
            pid in p' && (p'[pid].Clearing? && (p'[pid].clear.AtDelKeys? || p'[pid].clear.AtDelIndex?) ==>
              p.Clearing? && p.user == p'[pid].user && (p.clear.AtDelKeys? || p.clear.AtDelIndex?) &&
              p.clear.sids == p'[pid].clear.sids)
  {
    if s.calls[pid].Clearing? {
    } else {
      AdvancesItself(c, s, pid, newJti);
      hide AdvanceCall;
    }
  }

  lemma {:induction false} EvalLoses(c: S.Config, t: Trail, pid: Pid, newJti: Jti)
    requires TrailInv(t) && Enabled(t.s, Advance(pid, newJti)) && t.s.calls[pid].Rotating?
    ensures Loses(t, After(c, t, Advance(pid, newJti)))
  {
  }

  lemma {:induction false} RevokeLoses(c: S.Config, t: Trail, pid: Pid, newJti: Jti)
    requires TrailInv(t) && Enabled(t.s, Advance(pid, newJti)) && (t.s.calls[pid].Killing? || t.s.calls[pid].Revoking?)
    ensures Loses(t, After(c, t, Advance(pid, newJti)))
  {
    assert CallMatches(t.s, pid);
    var sid, pc := t.s.calls[pid].sid, t.s.calls[pid].revoke;
    RevokeCommandShrinks(c, t.s.k, sid, pc);
    var t' := After(c, t, Advance(pid, newJti));
    assert t'.s.k == RevokeCommand(c, t.s.k, sid, pc).0 && t'.s.chains == t.s.chains && t'.dropped == t.dropped;
    forall user, x | Owns(t'.s.k, user, x) && x in Members(t.s.k, user) ensures x in Members(t'.s.k, user) {
      RevokeKeepsOthers(c, t.s.k, sid, pc, user, x);
    }
  }

  lemma {:induction false} RevokeKeepsOthers(c: S.Config, k: Keyspace, sid: Sid, pc: RevokePc, user: UserId, x: Sid)
    requires (PastDel(pc) ==> sid !in k.sessions) && x in Members(k, user) &&
             x in RevokeCommand(c, k, sid, pc).0.sessions
    ensures x in Members(RevokeCommand(c, k, sid, pc).0, user)
  {
  }

  lemma {:induction false} DelIndexLoses(c: S.Config, t: Trail, pid: Pid, newJti: Jti)
    requires TrailInv(t) && Enabled(t.s, Advance(pid, newJti)) && t.s.calls[pid].Clearing?
    requires t.s.calls[pid].clear.AtDelIndex?
    ensures Loses(t, After(c, t, Advance(pid, newJti)))
  {
    var t' := After(c, t, Advance(pid, newJti));
    var u := t.s.calls[pid].user;
    assert t'.s.k == AfterDelIndex(t.s.k, u) && t'.s.chains == t.s.chains;
    assert t'.dropped == t.dropped + S.IndexedSessions(t.s.k, u);
    forall sid | sid in S.IndexedSessions(t.s.k, u)
      ensures sid in t.s.chains && Owns(t.s.k, u, sid) && sid !in t.dropped
    {
      assert MemberMatches(t, u, sid) && EntryMatches(t, sid) && RecordMatches(t.s, sid);
    }
    DelIndexEntries(t.s.k, u);
    hide After;
    hide AfterDelIndex;
    forall user, sid | Owns(t'.s.k, user, sid)
      ensures sid in Members(t.s.k, user) && sid !in Members(t'.s.k, user) <==> sid in t'.dropped && sid !in t.dropped
    {
    }
  }

  lemma {:induction false} DelIndexEntries(k: Keyspace, u: UserId)
    ensures AfterDelIndex(k, u).sessions == k.sessions && Members(AfterDelIndex(k, u), u) == {}
    ensures forall user :: user != u ==> Members(AfterDelIndex(k, u), user) == Members(k, user)
  {
  }

  lemma {:induction false} ClearLoses(c: S.Config, t: Trail, pid: Pid, newJti: Jti)
    requires TrailInv(t) && Enabled(t.s, Advance(pid, newJti)) && t.s.calls[pid].Clearing?
    requires !t.s.calls[pid].clear.AtSmembers?
    ensures Loses(t, After(c, t, Advance(pid, newJti)))
  {
    if t.s.calls[pid].clear.AtDelIndex? {
      DelIndexLoses(c, t, pid, newJti);
    } else {
      var t' := After(c, t, Advance(pid, newJti));
      ClearLeavesIndex(c, t, pid, newJti);
      assert forall user :: Members(t'.s.k, user) == Members(t.s.k, user);
      hide After;
      hide Members;
    }
  }

  lemma {:induction false} ClearLeavesIndex(c: S.Config, t: Trail, pid: Pid, newJti: Jti)
    requires Enabled(t.s, Advance(pid, newJti)) && t.s.calls[pid].Clearing?
    requires t.s.calls[pid].clear.AtDelKeys? || t.s.calls[pid].clear.AtSeal?
    ensures var t' := After(c, t, Advance(pid, newJti));
            && t'.s.k.index == t.s.k.index && t'.s.chains == t.s.chains && t'.dropped == t.dropped
            && (forall sid :: sid in t'.s.k.sessions ==>
                  sid in t.s.k.sessions && t'.s.k.sessions[sid] == t.s.k.sessions[sid])
  {
  }

  lemma {:induction false} SmembersKeeps(c: S.Config, t: Trail, pid: Pid, newJti: Jti)
    requires TrailInv(t) && Enabled(t.s, Advance(pid, newJti)) && t.s.calls[pid].Clearing?
    requires t.s.calls[pid].clear.AtSmembers?
    ensures TrailInv(After(c, t, Advance(pid, newJti)))
  {
    var t' := After(c, t, Advance(pid, newJti));
    var u := t.s.calls[pid].user;
    StepKeepsInv(c, t.s, Advance(pid, newJti));
    assert t'.s.k == t.s.k && t'.s.chains == t.s.chains && t'.dropped == t.dropped;
    forall sid | sid in t'.s.k.sessions ensures EntryMatches(t', sid) {
      assert EntryMatches(t, sid);
    }
    forall user, sid ensures MemberMatches(t', user, sid) {
      assert MemberMatches(t, user, sid);
    }
    forall q | q in t'.s.calls && t'.s.calls[q].Clearing? && InWindow(t'.s.calls[q], t'.s.calls[q].user)
      ensures ClearMatches(t', q)
    {
      if q == pid {
        SmembersMatches(c, t, pid, newJti);
      } else {
        assert ClearMatches(t, q);
      }
    }
  }

  lemma {:induction false} SmembersMatches(c: S.Config, t: Trail, pid: Pid, newJti: Jti)
    requires TrailInv(t) && Enabled(t.s, Advance(pid, newJti)) && t.s.calls[pid].Clearing?
    requires t.s.calls[pid].clear.AtSmembers?
    ensures var t' := After(c, t, Advance(pid, newJti));
            pid in t'.s.calls && t'.s.calls[pid].Clearing? && InWindow(t'.s.calls[pid], t'.s.calls[pid].user) &&
            ClearMatches(t', pid)
  {
    var t' := After(c, t, Advance(pid, newJti));
    var u := t.s.calls[pid].user;
    assert t'.s.k == t.s.k && t'.s.chains == t.s.chains && t'.dropped == t.dropped;
    assert t'.s.calls[pid].clear.sids == Members(t.s.k, u);
    forall sid | sid in Members(t.s.k, u) && sid in t.s.k.sessions ensures Owns(t.s.k, u, sid) && sid !in t.dropped {
      assert MemberMatches(t, u, sid) && EntryMatches(t, sid);
    }
    forall sid | Owns(t.s.k, u, sid) ensures sid in Members(t.s.k, u) || sid in t.dropped {
      assert EntryMatches(t, sid);
    }
  }

  lemma {:induction false} AdvanceKeeps(c: S.Config, t: Trail, pid: Pid, newJti: Jti)
    requires TrailInv(t) && Enabled(t.s, Advance(pid, newJti))
    ensures TrailInv(After(c, t, Advance(pid, newJti)))
  {
    hide TrailInv;
    var p := t.s.calls[pid];
    if p.Clearing? && p.clear.AtSmembers? {
      SmembersKeeps(c, t, pid, newJti);
    } else {
      if p.Clearing? {
        ClearLoses(c, t, pid, newJti);
      } else if p.Rotating? {
        EvalLoses(c, t, pid, newJti);
      } else {
        RevokeLoses(c, t, pid, newJti);
      }
      LossKeeps(c, t, pid, newJti);
    }
  }

  lemma {:induction false} StepKeeps(c: S.Config, t: Trail, step: Step)
    requires TrailInv(t) && Enabled(t.s, step)
    ensures TrailInv(After(c, t, step))
  {
    hide TrailInv;
    match step {
      case Elapse(to) => ElapseKeeps(c, t, to);
      case Create(user, sid, jti) => CreateKeeps(c, t, user, sid, jti);
      case Advance(pid, newJti) => AdvanceKeeps(c, t, pid, newJti);
      case _ => StartKeeps(c, t, step);
    }
  }

  lemma {:induction false} AllKeep(c: S.Config, t: Trail, steps: seq<Step>)
    requires TrailInv(t) && Legal(c, t.s, steps)
    ensures TrailInv(AfterAll(c, t, steps))
    decreases |steps|
  {
    if steps != [] {
      StepKeeps(c, t, steps[0]);
      AllKeep(c, After(c, t, steps[0]), steps[1..]);
    }
  }

  // ---------------------------------------------------------------- what it gives

  /**
    In every reachable state, under any interleaving, a live session is in its user's index if and only if no index DEL
    and no index expiry took its entry away.
   */
  lemma {:induction false} IndexMissesDropped(c: S.Config, steps: seq<Step>, sid: Sid)
    requires Legal(c, INITIAL, steps) && sid in Run(c, INITIAL, steps).k.sessions
    ensures var t := AfterAll(c, BEGIN, steps);
            && t.s == Run(c, INITIAL, steps)
            && (sid in Members(t.s.k, t.s.k.sessions[sid].value.userId) <==> sid !in t.dropped)
  {
    AllKeep(c, BEGIN, steps);
    TrailIsRun(c, BEGIN, steps);
    assert EntryMatches(AfterAll(c, BEGIN, steps), sid);
  }

  /**
    The index DEL of a clear takes the entry of a live session away if and only if the session was created since that
    clear's SMEMBERS, and had its entry until now.
   */
  lemma {:induction false} DelDropsNewborn(c: S.Config, steps: seq<Step>, pid: Pid)
    requires Legal(c, INITIAL, steps)
    requires var s := Run(c, INITIAL, steps); pid in s.calls && s.calls[pid].Clearing? && s.calls[pid].clear.AtDelIndex?
    ensures var t := AfterAll(c, BEGIN, steps);
            && t.s == Run(c, INITIAL, steps) && pid in t.newborn
            && var user := t.s.calls[pid].user;
               S.IndexedSessions(t.s.k, user) == (LiveSessions(t.s.k, user) * t.newborn[pid]) - t.dropped
  {
    AllKeep(c, BEGIN, steps);
    TrailIsRun(c, BEGIN, steps);
    DropsNewborn(AfterAll(c, BEGIN, steps), pid);
    hide TrailInv;
  }

  lemma {:induction false} DropsNewborn(t: Trail, pid: Pid)
    requires TrailInv(t) && pid in t.s.calls && t.s.calls[pid].Clearing? && t.s.calls[pid].clear.AtDelIndex?
    ensures pid in t.newborn
    ensures var user := t.s.calls[pid].user;
            S.IndexedSessions(t.s.k, user) == (LiveSessions(t.s.k, user) * t.newborn[pid]) - t.dropped
  {
    var user := t.s.calls[pid].user;
    assert ClearMatches(t, pid) && CallMatches(t.s, pid);
    forall sid | sid in S.IndexedSessions(t.s.k, user)
      ensures sid in LiveSessions(t.s.k, user) * t.newborn[pid] && sid !in t.dropped
    {
      assert MemberMatches(t, user, sid) && EntryMatches(t, sid);
    }
    forall sid | sid in LiveSessions(t.s.k, user) && sid !in t.dropped ensures sid in S.IndexedSessions(t.s.k, user) {
      assert EntryMatches(t, sid);
    }
  }

  /**
    The count of a clear, taken at its DEL of the records, is the number of the user's live sessions at that moment if
    and only if none of them was created since its SMEMBERS or was without an entry then.
   */
  lemma {:induction false} CountIsExact(c: S.Config, steps: seq<Step>, pid: Pid)
    requires Legal(c, INITIAL, steps)
    requires var s := Run(c, INITIAL, steps); pid in s.calls && s.calls[pid].Clearing? && s.calls[pid].clear.AtDelKeys?
    ensures var t := AfterAll(c, BEGIN, steps);
            && t.s == Run(c, INITIAL, steps) && pid in t.newborn && pid in t.missing
            && var live := LiveSessions(t.s.k, t.s.calls[pid].user);
               |t.s.k.sessions.Keys * t.s.calls[pid].clear.sids| == |live| <==> live !! t.newborn[pid] + t.missing[pid]
  {
    AllKeep(c, BEGIN, steps);
    TrailIsRun(c, BEGIN, steps);
    var t := AfterAll(c, BEGIN, steps);
    assert ClearMatches(t, pid);
    CountOf(t, pid);
  }

  lemma {:induction false} CountOf(t: Trail, pid: Pid)
    requires pid in t.s.calls && t.s.calls[pid].Clearing? && t.s.calls[pid].clear.AtDelKeys? && ClearMatches(t, pid)
    ensures var live := LiveSessions(t.s.k, t.s.calls[pid].user);
            |t.s.k.sessions.Keys * t.s.calls[pid].clear.sids| == |live| <==> live !! t.newborn[pid] + t.missing[pid]
  {
    var user := t.s.calls[pid].user;
    var live, found := LiveSessions(t.s.k, user), t.s.k.sessions.Keys * t.s.calls[pid].clear.sids;
    forall sid | sid in found ensures sid in live && sid !in t.newborn[pid] + t.missing[pid] {
      assert Owns(t.s.k, user, sid);
    }
    forall sid | sid in live ensures sid in found || sid in t.newborn[pid] + t.missing[pid] {
      assert Owns(t.s.k, user, sid);
    }
    SubsetSize(found, live);
    if live !! t.newborn[pid] + t.missing[pid] {
      assert found == live;
    }
  }

  // ---------------------------------------------------------------- no login in the window

  /** Nothing of `user` is created while one of its clears is in its window, and no index expires under its sessions. */
  predicate Quiet(s: State, step: Step, user: UserId) {
    match step
    case Elapse(to) => forall sid :: sid in S.Orphans(s.k, to) ==> !Owns(s.k, user, sid)
    case Create(u, _, _) => u == user ==> forall pid :: pid in s.calls ==> !InWindow(s.calls[pid], user)
    case _ => true
  }

  predicate QuietRun(c: S.Config, s: State, steps: seq<Step>, user: UserId)
    requires Legal(c, s, steps)
    decreases |steps|
  {
    steps == [] || (Quiet(s, steps[0], user) && QuietRun(c, Apply(c, s, steps[0]), steps[1..], user))
  }

  /** No live session of the user is without an entry, or came since the SMEMBERS of one of its clears. */
  ghost predicate NoneMissed(t: Trail, user: UserId) {
    && (forall sid :: Owns(t.s.k, user, sid) ==> sid !in t.dropped)
    && (forall pid, sid :: pid in t.s.calls && InWindow(t.s.calls[pid], user) && Owns(t.s.k, user, sid) ==>
          pid in t.missing && pid in t.newborn && sid !in t.missing[pid] && sid !in t.newborn[pid])
  }

  lemma {:induction false} AdvanceOwns(c: S.Config, t: Trail, pid: Pid, newJti: Jti, user: UserId)
    requires TrailInv(t) && Enabled(t.s, Advance(pid, newJti))
    ensures forall sid :: Owns(After(c, t, Advance(pid, newJti)).s.k, user, sid) ==> Owns(t.s.k, user, sid)
  {
    var p := t.s.calls[pid];
    if p.Clearing? && p.clear.AtSmembers? {
      SmembersEffect(c, t, pid, newJti);
    } else {
      if p.Clearing? {
        ClearLoses(c, t, pid, newJti);
      } else if p.Rotating? {
        EvalLoses(c, t, pid, newJti);
      } else {
        RevokeLoses(c, t, pid, newJti);
      }
      hide After;
    }
  }

  lemma {:induction false} SmembersEffect(c: S.Config, t: Trail, pid: Pid, newJti: Jti)
    requires Enabled(t.s, Advance(pid, newJti)) && t.s.calls[pid].Clearing? && t.s.calls[pid].clear.AtSmembers?
    ensures var t' := After(c, t, Advance(pid, newJti));
            && t'.s.k == t.s.k && t'.dropped == t.dropped
            && t'.missing == t.missing[pid := t.dropped] && t'.newborn == t.newborn[pid := {}]
            && (forall q :: q in t'.s.calls && q != pid ==> q in t.s.calls && t'.s.calls[q] == t.s.calls[q])
  {
  }

  /** In a quiet window the index DEL takes no entry of the user away. */
  lemma {:induction false} QuietDropsNone(c: S.Config, t: Trail, pid: Pid, newJti: Jti, user: UserId, sid: Sid)
    requires TrailInv(t) && Enabled(t.s, Advance(pid, newJti)) && NoneMissed(t, user) && Owns(t.s.k, user, sid)
    ensures sid !in After(c, t, Advance(pid, newJti)).dropped
  {
    if t.s.calls[pid].Clearing? && t.s.calls[pid].clear.AtDelIndex? {
      var u := t.s.calls[pid].user;
      assert ClearMatches(t, pid) && CallMatches(t.s, pid);
      assert MemberMatches(t, u, sid);
    }
  }

  /** A clear that is in its window after a step of some call was there before, or has just read the index. */
  lemma {:induction false} QuietWindow(c: S.Config, t: Trail, pid: Pid, newJti: Jti, user: UserId, q: Pid, sid: Sid)
    requires TrailInv(t) && Enabled(t.s, Advance(pid, newJti)) && NoneMissed(t, user)
    requires var t' := After(c, t, Advance(pid, newJti)); q in t'.s.calls && InWindow(t'.s.calls[q], user)
    requires Owns(t.s.k, user, sid)
    ensures var t' := After(c, t, Advance(pid, newJti));
            q in t'.missing && q in t'.newborn && sid !in t'.missing[q] && sid !in t'.newborn[q]
  {
    hide TrailInv;
    if t.s.calls[pid].Clearing? && t.s.calls[pid].clear.AtSmembers? {
      SmembersEffect(c, t, pid, newJti);
    } else {
      StillInWindow(c, t, pid, newJti, q);
    }
    hide After;
    hide Owns;
  }

  lemma {:induction false} QuietAdvance(c: S.Config, t: Trail, pid: Pid, newJti: Jti, user: UserId)
    requires TrailInv(t) && Enabled(t.s, Advance(pid, newJti)) && NoneMissed(t, user)
    ensures NoneMissed(After(c, t, Advance(pid, newJti)), user)
  {
    var t' := After(c, t, Advance(pid, newJti));
    AdvanceOwns(c, t, pid, newJti, user);
    hide *;
    forall sid | Owns(t'.s.k, user, sid) ensures sid !in t'.dropped {
      QuietDropsNone(c, t, pid, newJti, user, sid);
    }
    forall q, sid | q in t'.s.calls && InWindow(t'.s.calls[q], user) && Owns(t'.s.k, user, sid)
      ensures q in t'.missing && q in t'.newborn && sid !in t'.missing[q] && sid !in t'.newborn[q]
    {
      QuietWindow(c, t, pid, newJti, user, q, sid);
    }
    NoneMissedIs(t', user);
  }

  lemma {:induction false} NoneMissedIs(t: Trail, user: UserId)
    requires forall sid :: Owns(t.s.k, user, sid) ==> sid !in t.dropped
    requires forall pid, sid :: pid in t.s.calls && InWindow(t.s.calls[pid], user) && Owns(t.s.k, user, sid) ==>
               pid in t.missing && pid in t.newborn && sid !in t.missing[pid] && sid !in t.newborn[pid]
    ensures NoneMissed(t, user)
  {
  }

  lemma {:induction false} QuietCreate(c: S.Config, t: Trail, u: UserId, sid: Sid, jti: Jti, user: UserId)
    requires TrailInv(t) && Enabled(t.s, Create(u, sid, jti)) && Quiet(t.s, Create(u, sid, jti), user) &&
             NoneMissed(t, user)
    ensures NoneMissed(After(c, t, Create(u, sid, jti)), user)
  {
    var t' := After(c, t, Create(u, sid, jti));
    assert t'.s.calls == t.s.calls && t'.missing == t.missing && t'.newborn == Born(t.newborn, sid);
    assert sid !in t.dropped && t'.dropped == t.dropped;
    forall x | Owns(t'.s.k, user, x) ensures Owns(t.s.k, user, x) || (x == sid && u == user) {
    }
    hide After;
    hide AfterCreate;
    hide TrailInv;
    hide Enabled;
    hide Owns;
    forall pid, x | pid in t'.s.calls && InWindow(t'.s.calls[pid], user) && Owns(t'.s.k, user, x)
      ensures pid in t'.missing && pid in t'.newborn && x !in t'.missing[pid] && x !in t'.newborn[pid]
    {
      assert Owns(t.s.k, user, x);
    }
  }

  lemma {:induction false} QuietStep(c: S.Config, t: Trail, step: Step, user: UserId)
    requires TrailInv(t) && Enabled(t.s, step) && Quiet(t.s, step, user) && NoneMissed(t, user)
    ensures NoneMissed(After(c, t, step), user)
  {
    var t' := After(c, t, step);
    if step.Advance? {
      QuietAdvance(c, t, step.pid, step.newJti, user);
    } else if step.Create? {
      QuietCreate(c, t, step.user, step.sid, step.jti, user);
    } else if step.Elapse? {
      QuietElapse(c, t, step.to, user);
    }
    hide AdvanceCall;
    hide AfterCreate;
    hide AfterElapse;
    hide S.Orphans;
  }

  lemma {:induction false} QuietElapse(c: S.Config, t: Trail, to: int, user: UserId)
    requires Enabled(t.s, Elapse(to)) && Quiet(t.s, Elapse(to), user) && NoneMissed(t, user)
    ensures NoneMissed(After(c, t, Elapse(to)), user)
  {
    var t' := After(c, t, Elapse(to));
    forall sid | Owns(t'.s.k, user, sid) ensures Owns(t.s.k, user, sid) {
    }
  }

  lemma {:induction false} QuietMissesNone(c: S.Config, t: Trail, steps: seq<Step>, user: UserId)
    requires TrailInv(t) && Legal(c, t.s, steps) && QuietRun(c, t.s, steps, user) && NoneMissed(t, user)
    ensures NoneMissed(AfterAll(c, t, steps), user)
    decreases |steps|
  {
    if steps != [] {
      StepKeeps(c, t, steps[0]);
      QuietStep(c, t, steps[0], user);
      QuietMissesNone(c, After(c, t, steps[0]), steps[1..], user);
    }
  }

  /**
    Under any interleaving of rotations, revocations and clears: if no session of the user is created between the
    SMEMBERS and the index DEL of one of its clears, and leaving index expiry aside, every live session of the user is
    in its index, and the count of each of its clears is the number of its live sessions when their records go.
   */
  lemma {:induction false} QuietIndexIsComplete(c: S.Config, steps: seq<Step>, user: UserId)
    requires Legal(c, INITIAL, steps) && QuietRun(c, INITIAL, steps, user)
    ensures var s := Run(c, INITIAL, steps);
            && LiveSessions(s.k, user) <= Members(s.k, user)
            && forall pid :: pid in s.calls && InWindow(s.calls[pid], user) && s.calls[pid].clear.AtDelKeys? ==>
                 |s.k.sessions.Keys * s.calls[pid].clear.sids| == |LiveSessions(s.k, user)|
  {
    QuietMissesNone(c, BEGIN, steps, user);
    AllKeep(c, BEGIN, steps);
    TrailIsRun(c, BEGIN, steps);
    var t := AfterAll(c, BEGIN, steps);
    forall sid | sid in LiveSessions(t.s.k, user) ensures sid in Members(t.s.k, user) {
      assert Owns(t.s.k, user, sid) && EntryMatches(t, sid);
    }
    forall pid | pid in t.s.calls && InWindow(t.s.calls[pid], user) && t.s.calls[pid].clear.AtDelKeys?
      ensures |t.s.k.sessions.Keys * t.s.calls[pid].clear.sids| == |LiveSessions(t.s.k, user)|
    {
      assert ClearMatches(t, pid);
      CountOf(t, pid);
      forall sid | sid in LiveSessions(t.s.k, user) ensures sid !in t.newborn[pid] + t.missing[pid] {
        assert Owns(t.s.k, user, sid);
      }
    }
  }
}
