/**
  What a completed `revokeAllForUser` leaves behind: the seal shuts out the access tokens issued before it, the deleted
  records the sessions it read, and a session it did not read can still be rotated into a token issued after the seal.
 */
module RefreshSeal {
  import opened Common
  import opened Redis
  import opened RefreshConcurrency
  import opened RefreshIndex
  import S = RefreshStore
  import R = SessionRevocation

  /** The access token signed now for this subject and session passes the denylist. */
  predicate Accepted(k: Keyspace, sub: UserId, sid: Sid) {
    R.Revocation(k, R.Claims(sub, sid, Some(R.Seconds(k.now)))).None?
  }

  /** A call begun after `s` rotates the session, and the token issued for it at once is accepted. */
  predicate Obtains(c: S.Config, s: State, steps: seq<Step>, pid: Pid, sub: UserId, sid: Sid) {
    && Legal(c, s, steps) && pid !in s.calls
    && var s' := Run(c, s, steps);
       && pid in s'.calls && s'.calls[pid].RotateDone? && s'.calls[pid].sid == sid && s'.calls[pid].verdict.Rotated?
       && Accepted(s'.k, sub, sid)
  }

  ghost predicate CanObtain(c: S.Config, s: State, sub: UserId, sid: Sid) {
    exists steps, pid :: Obtains(c, s, steps, pid, sub, sid)
  }

  // ---------------------------------------------------------------- the denylist and the sessions

  /** Some call was about this session. */
  ghost predicate Named(s: State, sid: Sid) {
    exists pid :: pid in s.calls && Names(s.calls[pid], sid)
  }

  /** A denied sid has no record and never gets one again; no seal is dated in the future. */
  ghost predicate DenyInv(s: State) {
    && (forall sid :: sid in s.k.revokedSids ==> sid !in s.k.sessions && Named(s, sid))
    && (forall user :: user in s.k.revokedBefore ==> s.k.revokedBefore[user].value <= R.Seconds(s.k.now))
  }

  lemma {:induction false} NamedStays(c: S.Config, s: State, step: Step, sid: Sid)
    requires Enabled(s, step) && Named(s, sid)
    ensures Named(Apply(c, s, step), sid)
  {
    var pid :| pid in s.calls && Names(s.calls[pid], sid);
    var s' := Apply(c, s, step);
    if step == Advance(pid, if step.Advance? then step.newJti else 0) {
      hide RevokeCommand;
    } else if step.Advance? {
      AdvancesItself(c, s, step.pid, step.newJti);
      hide AdvanceCall;
    } else {
      hide AdvanceCall;
    }
    assert pid in s'.calls && Names(s'.calls[pid], sid);
  }

  /** Only a seal seals, at the second of its command. */
  lemma {:induction false} SealedBy(c: S.Config, s: State, step: Step, user: UserId)
    requires Enabled(s, step) && user in Apply(c, s, step).k.revokedBefore
    ensures s.k.now <= Apply(c, s, step).k.now
    ensures var at := Apply(c, s, step).k.revokedBefore[user].value;
            at == R.Seconds(s.k.now) || (user in s.k.revokedBefore && at == s.k.revokedBefore[user].value)
  {
    if step.Advance? {
      CallSeals(c, s, step.pid, step.newJti, user);
    }
    hide AdvanceCall;
  }

  lemma {:induction false} CallSeals(c: S.Config, s: State, pid: Pid, newJti: Jti, user: UserId)
    requires pid in s.calls && user in AdvanceCall(c, s, pid, newJti).k.revokedBefore
    ensures AdvanceCall(c, s, pid, newJti).k.now == s.k.now
    ensures var at := AdvanceCall(c, s, pid, newJti).k.revokedBefore[user].value;
            at == R.Seconds(s.k.now) || (user in s.k.revokedBefore && at == s.k.revokedBefore[user].value)
  {
    if s.calls[pid].Killing? || s.calls[pid].Revoking? {
      CommandDenies(c, s.k, s.calls[pid].sid, s.calls[pid].revoke);
      hide RevokeCommand;
    }
  }

  /** Only the last command of a revocation denies, and it comes after the DEL of the record. */
  lemma {:induction false} DeniedBy(c: S.Config, s: State, step: Step, sid: Sid)
    requires Enabled(s, step) && (step.Advance? ==> CallMatches(s, step.pid))
    requires sid in Apply(c, s, step).k.revokedSids && sid !in s.k.revokedSids
    ensures sid !in Apply(c, s, step).k.sessions && Named(Apply(c, s, step), sid)
  {
    if step.Advance? {
      CallDenies(c, s, step.pid, step.newJti, sid);
    }
    hide AdvanceCall;
  }

  lemma {:induction false} CallDenies(c: S.Config, s: State, pid: Pid, newJti: Jti, sid: Sid)
    requires pid in s.calls && CallMatches(s, pid)
    requires sid in AdvanceCall(c, s, pid, newJti).k.revokedSids && sid !in s.k.revokedSids
    ensures sid !in AdvanceCall(c, s, pid, newJti).k.sessions && Named(AdvanceCall(c, s, pid, newJti), sid)
  {
    var s' := AdvanceCall(c, s, pid, newJti);
    if s.calls[pid].Killing? || s.calls[pid].Revoking? {
      CommandDenies(c, s.k, s.calls[pid].sid, s.calls[pid].revoke);
      hide RevokeCommand;
      assert Names(s'.calls[pid], s.calls[pid].sid);
    } else {
      OthersDenyNothing(c, s, pid, newJti);
      hide AdvanceCall;
    }
  }

  lemma {:induction false} OthersDenyNothing(c: S.Config, s: State, pid: Pid, newJti: Jti)
    requires pid in s.calls && !s.calls[pid].Killing? && !s.calls[pid].Revoking?
    ensures AdvanceCall(c, s, pid, newJti).k.revokedSids == s.k.revokedSids
  {
  }

  lemma {:induction false} CommandDenies(c: S.Config, k: Keyspace, sid: Sid, pc: RevokePc)
    ensures var k' := RevokeCommand(c, k, sid, pc).0;
            && k'.now == k.now && k'.revokedBefore == k.revokedBefore
            && (forall x :: x in k'.revokedSids && x !in k.revokedSids ==> x == sid && pc.AtDeny?)
            && (pc.AtDeny? ==> k'.sessions == k.sessions)
  {
  }

  /** A session with a record after a step had one before, or has just been created. */
  lemma {:induction false} RecordsStay(c: S.Config, s: State, step: Step, sid: Sid)
    requires Enabled(s, step) && sid in Apply(c, s, step).k.sessions
    ensures sid in s.k.sessions || (step.Create? && step.sid == sid)
  {
    if step.Advance? {
      match s.calls[step.pid] {
        case Killing(x, _, pc) => RevokeCommandShrinks(c, s.k, x, pc);
        case Revoking(x, pc) => RevokeCommandShrinks(c, s.k, x, pc);
        case _ =>
      }
      hide RevokeCommand;
    }
  }

  lemma {:induction false} StepKeepsDeny(c: S.Config, s: State, step: Step)
    requires Inv(s) && DenyInv(s) && Enabled(s, step)
    ensures DenyInv(Apply(c, s, step))
  {
    var s' := Apply(c, s, step);
    forall sid | sid in s'.k.revokedSids ensures sid !in s'.k.sessions && Named(s', sid) {
      if sid in s.k.revokedSids {
        NamedStays(c, s, step, sid);
        GoneStays(c, s, step, sid);
      } else {
        DeniedBy(c, s, step, sid);
      }
    }
    forall user | user in s'.k.revokedBefore ensures s'.k.revokedBefore[user].value <= R.Seconds(s'.k.now) {
      SealedBy(c, s, step, user);
    }
    hide Apply;
    hide Inv;
    hide Enabled;
  }

  lemma {:induction false} GoneStays(c: S.Config, s: State, step: Step, sid: Sid)
    requires Enabled(s, step) && Named(s, sid) && sid !in s.k.sessions
    ensures sid !in Apply(c, s, step).k.sessions
  {
    if sid in Apply(c, s, step).k.sessions {
      RecordsStay(c, s, step, sid);
    }
    hide Apply;
  }

  lemma {:induction false} RunKeepsDeny(c: S.Config, s: State, steps: seq<Step>)
    requires Inv(s) && DenyInv(s) && Legal(c, s, steps)
    ensures Inv(Run(c, s, steps)) && DenyInv(Run(c, s, steps))
    decreases |steps|
  {
    if steps != [] {
      StepKeepsInv(c, s, steps[0]);
      StepKeepsDeny(c, s, steps[0]);
      hide Inv;
      hide DenyInv;
      hide Apply;
      RunKeepsDeny(c, Apply(c, s, steps[0]), steps[1..]);
    }
  }

  // ---------------------------------------------------------------- a live session obtains a token

  lemma {:induction false} FreshToken(chains: map<Sid, seq<Jti>>) returns (jti: Jti)
    ensures forall sid :: sid in chains ==> jti !in chains[sid]
  {
    var used := set sid, i | sid in chains && 0 <= i < |chains[sid]| :: chains[sid][i];
    jti := Unused(used);
  }

  lemma {:induction false} LiveObtains(c: S.Config, s: State, sub: UserId, sid: Sid)
    requires Inv(s) && DenyInv(s) && sid in s.k.sessions
    ensures CanObtain(c, s, sub, sid)
  {
    assert RecordMatches(s, sid);
    var pid := Unused(s.calls.Keys);
    var jti := FreshToken(s.chains);
    var current := s.k.sessions[sid].value.currentJti;
    var start, eval := StartRotate(pid, sid, current), Advance(pid, jti);
    var s1 := Apply(c, s, start);
    var s2 := Apply(c, s1, eval);
    assert s2.calls[pid] == RotateDone(sid, current, Rotated(jti));
    assert Accepted(s2.k, sub, sid);
    TraceIsRun(c, [s, s1, s2], [start, eval]);
    hide Apply;
    hide Inv;
    hide DenyInv;
    hide Accepted;
    assert Obtains(c, s, [start, eval], pid, sub, sid);
  }

  // ---------------------------------------------------------------- a dead one never does

  /** No call begun since has rotated the session. */
  predicate NoneGranted(before: State, s: State, sid: Sid) {
    forall pid :: pid in s.calls && pid !in before.calls && s.calls[pid].RotateDone? && s.calls[pid].sid == sid ==>
      !s.calls[pid].verdict.Rotated?
  }

  lemma {:induction false} DeadGrantsNothing(c: S.Config, before: State, s: State, step: Step, sid: Sid)
    requires Enabled(s, step) && Dead(s, sid) && NoneGranted(before, s, sid)
    ensures NoneGranted(before, Apply(c, s, step), sid)
  {
    hide RevokeCommand;
    if step.Advance? {
      AdvancesItself(c, s, step.pid, step.newJti);
    }
  }

  lemma {:induction false} DeadObtainsNothing(c: S.Config, before: State, s: State, steps: seq<Step>, sid: Sid)
    requires Legal(c, s, steps) && Dead(s, sid) && NoneGranted(before, s, sid)
    ensures NoneGranted(before, Run(c, s, steps), sid)
    decreases |steps|
  {
    if steps != [] {
      DeadGrantsNothing(c, before, s, steps[0], sid);
      StepKeepsDead(c, s, steps[0], sid);
      hide Apply;
      hide Dead;
      hide NoneGranted;
      DeadObtainsNothing(c, before, Apply(c, s, steps[0]), steps[1..], sid);
    }
  }

  /**
    In every reachable state, whatever seals and revocations came before: a session once created can still obtain an
    access token that is accepted if and only if its refresh record is live. A seal alone stops no session.
   */
  lemma {:induction false} LiveDecidesToken(c: S.Config, steps: seq<Step>, sub: UserId, sid: Sid)
    requires Legal(c, INITIAL, steps) && sid in Run(c, INITIAL, steps).chains
    ensures CanObtain(c, Run(c, INITIAL, steps), sub, sid) <==> sid in Run(c, INITIAL, steps).k.sessions
  {
    var s := Run(c, INITIAL, steps);
    RunKeepsDeny(c, INITIAL, steps);
    if sid in s.k.sessions {
      LiveObtains(c, s, sub, sid);
    } else {
      forall later, pid ensures !Obtains(c, s, later, pid, sub, sid) {
        if Legal(c, s, later) {
          DeadObtainsNothing(c, s, s, later, sid);
        }
      }
    }
  }

  // ---------------------------------------------------------------- what a completed clear leaves

  /** Past its DEL of the index. */
  predicate Completed(p: Process, user: UserId) {
    (p.Clearing? && p.user == user && p.clear.AtSeal?) || (p.ClearDone? && p.user == user)
  }

  /** The user's live sessions were without an entry when the clear read the index, or came since. */
  ghost predicate Spared(t: Trail, pid: Pid, user: UserId) {
    && pid in t.missing && pid in t.newborn
    && forall sid :: Owns(t.s.k, user, sid) ==> sid in t.missing[pid] || sid in t.newborn[pid]
  }

  ghost predicate AllSpared(t: Trail) {
    forall pid, user :: pid in t.s.calls && Completed(t.s.calls[pid], user) ==> Spared(t, pid, user)
  }

  lemma {:induction false} StillSpared(c: S.Config, t: Trail, step: Step, pid: Pid, user: UserId)
    requires TrailInv(t) && Enabled(t.s, step) && Spared(t, pid, user)
    requires pid in t.s.calls && Completed(t.s.calls[pid], user)
    ensures Spared(After(c, t, step), pid, user)
  {
    var t' := After(c, t, step);
    HistoryStays(c, t, step, pid);
    forall sid | Owns(t'.s.k, user, sid) ensures sid in t'.missing[pid] || sid in t'.newborn[pid] {
      OwnsBefore(c, t, step, user, sid);
    }
  }

  lemma {:induction false} HistoryStays(c: S.Config, t: Trail, step: Step, pid: Pid)
    requires Enabled(t.s, step) && pid in t.s.calls && pid in t.missing && pid in t.newborn
    requires !(t.s.calls[pid].Clearing? && t.s.calls[pid].clear.AtSmembers?)
    ensures var t' := After(c, t, step);
            && pid in t'.missing && pid in t'.newborn && t'.missing[pid] == t.missing[pid]
            && t'.newborn[pid] == t.newborn[pid] + if step.Create? then {step.sid} else {}
  {
    hide Apply;
  }

  lemma {:induction false} OwnsBefore(c: S.Config, t: Trail, step: Step, user: UserId, sid: Sid)
    requires TrailInv(t) && Enabled(t.s, step) && Owns(After(c, t, step).s.k, user, sid)
    ensures Owns(t.s.k, user, sid) || (step.Create? && step.sid == sid)
  {
    if step.Advance? {
      AdvanceOwns(c, t, step.pid, step.newJti, user);
      hide After;
    }
  }

  /** The index DEL: what it has read is dead by then. */
  lemma {:induction false} NowSpared(c: S.Config, t: Trail, step: Step, pid: Pid, user: UserId)
    requires TrailInv(t) && Enabled(t.s, step)
    requires var t' := After(c, t, step); pid in t'.s.calls && Completed(t'.s.calls[pid], user)
    requires !(pid in t.s.calls && Completed(t.s.calls[pid], user))
    ensures Spared(After(c, t, step), pid, user)
  {
    BecomesCompleted(c, t.s, step, pid, user);
    assert ClearMatches(t, pid) && CallMatches(t.s, pid);
    var t' := After(c, t, step);
    HistoryStays(c, t, step, pid);
    forall sid | Owns(t'.s.k, user, sid) ensures sid in t'.missing[pid] || sid in t'.newborn[pid] {
      OwnsBefore(c, t, step, user, sid);
    }
  }

  lemma {:induction false} BecomesCompleted(c: S.Config, s: State, step: Step, pid: Pid, user: UserId)
    requires Enabled(s, step)
    requires var s' := Apply(c, s, step); pid in s'.calls && Completed(s'.calls[pid], user)
    requires !(pid in s.calls && Completed(s.calls[pid], user))
    ensures step.Advance? && step.pid == pid && s.calls[pid].Clearing? && s.calls[pid].user == user
    ensures s.calls[pid].clear.AtDelIndex?
  {
    hide RevokeCommand;
    if step.Advance? {
      AdvancesItself(c, s, step.pid, step.newJti);
    }
  }

  lemma {:induction false} StepSpares(c: S.Config, t: Trail, step: Step)
    requires TrailInv(t) && AllSpared(t) && Enabled(t.s, step)
    ensures AllSpared(After(c, t, step))
  {
    var t' := After(c, t, step);
    forall pid, user | pid in t'.s.calls && Completed(t'.s.calls[pid], user) ensures Spared(t', pid, user) {
      if pid in t.s.calls && Completed(t.s.calls[pid], user) {
        StillSpared(c, t, step, pid, user);
      } else {
        NowSpared(c, t, step, pid, user);
      }
    }
  }

  lemma {:induction false} RunSpares(c: S.Config, t: Trail, steps: seq<Step>)
    requires TrailInv(t) && AllSpared(t) && Legal(c, t.s, steps)
    ensures AllSpared(AfterAll(c, t, steps))
    decreases |steps|
  {
    if steps != [] {
      StepKeeps(c, t, steps[0]);
      StepSpares(c, t, steps[0]);
      hide TrailInv;
      hide AllSpared;
      hide Apply;
      RunSpares(c, After(c, t, steps[0]), steps[1..]);
    }
  }

  /**
    After a completed clear, however the calls interleaved: a session of the user that can still obtain an accepted
    token is one that was without an index entry when the clear read the index, or was created since.
   */
  lemma {:induction false} ClearSparesMissed(c: S.Config, steps: seq<Step>, pid: Pid, sid: Sid)
    requires Legal(c, INITIAL, steps)
    requires var s := Run(c, INITIAL, steps); pid in s.calls && s.calls[pid].ClearDone? && sid in s.chains
    ensures var t := AfterAll(c, BEGIN, steps);
            && t.s == Run(c, INITIAL, steps) && pid in t.missing && pid in t.newborn
            && var user := t.s.calls[pid].user;
               && (CanObtain(c, t.s, user, sid) <==> sid in t.s.k.sessions)
               && (Owns(t.s.k, user, sid) ==> sid in t.missing[pid] || sid in t.newborn[pid])
  {
    RunSpares(c, BEGIN, steps);
    TrailIsRun(c, BEGIN, steps);
    var t := AfterAll(c, BEGIN, steps);
    var user := t.s.calls[pid].user;
    assert Completed(t.s.calls[pid], user) && Spared(t, pid, user);
    LiveDecidesToken(c, steps, user, sid);
    hide CanObtain;
  }

  // ---------------------------------------------------------------- what stays shut

  /** A step takes no entry off the denylist before its time, and lowers no seal below the second it is sealed in. */
  ghost predicate DenylistKept(k: Keyspace, k': Keyspace, ttl: nat) {
    && k.now <= k'.now
    && (forall sid :: sid in k.revokedSids ==>
          k.revokedSids[sid] < k'.now ||
          (sid in k'.revokedSids &&
            (k'.revokedSids[sid] == k.revokedSids[sid] || k'.revokedSids[sid] == Expiry(k, ttl))))
    && (forall user :: user in k.revokedBefore ==>
          k.revokedBefore[user].expiresAt < k'.now ||
          (user in k'.revokedBefore &&
            (k'.revokedBefore[user] == k.revokedBefore[user] ||
              k'.revokedBefore[user] == Stored(R.Seconds(k.now), Expiry(k, ttl)))))
  }

  lemma {:induction false} CommandKeepsDenylist(c: S.Config, k: Keyspace, sid: Sid, pc: RevokePc)
    requires c.denyTtlSeconds.Some?
    ensures DenylistKept(k, RevokeCommand(c, k, sid, pc).0, c.denyTtlSeconds.value)
  {
  }

  lemma {:induction false} CallKeepsDenylist(c: S.Config, s: State, pid: Pid, newJti: Jti)
    requires c.denyTtlSeconds.Some? && pid in s.calls
    ensures DenylistKept(s.k, AdvanceCall(c, s, pid, newJti).k, c.denyTtlSeconds.value)
  {
    match s.calls[pid] {
      case Killing(sid, _, pc) =>
        CommandKeepsDenylist(c, s.k, sid, pc);
        hide DenylistKept;
        hide RevokeCommand;
      case Revoking(sid, pc) =>
        CommandKeepsDenylist(c, s.k, sid, pc);
        hide DenylistKept;
        hide RevokeCommand;
      case Rotating(_, _) =>
        OthersDenyNothing(c, s, pid, newJti);
      case _ =>
    }
  }

  lemma {:induction false} StepKeepsDenylist(c: S.Config, s: State, step: Step)
    requires c.denyTtlSeconds.Some? && Enabled(s, step)
    ensures DenylistKept(s.k, Apply(c, s, step).k, c.denyTtlSeconds.value)
  {
    if step.Advance? {
      CallKeepsDenylist(c, s, step.pid, step.newJti);
      hide DenylistKept;
    }
    hide AdvanceCall;
  }

  lemma {:induction false} StaysShut(c: S.Config, s: State, steps: seq<Step>, sid: Sid, latest: int, since: int)
    requires c.denyTtlSeconds == Some(R.REVOCATION_TTL_SECONDS) && Legal(c, s, steps)
    requires R.SidGuarded(s.k, sid, latest)
    requires since <= s.k.now && R.LastExpiry(latest + 1) <= since + R.REVOCATION_TTL_SECONDS * 1000 + 1
    ensures R.SidGuarded(Run(c, s, steps).k, sid, latest)
    decreases |steps|
  {
    if steps != [] {
      StepKeepsDenylist(c, s, steps[0]);
      hide Apply;
      hide Enabled;
      StaysShut(c, Apply(c, s, steps[0]), steps[1..], sid, latest, since);
    }
  }

  lemma {:induction false} StaysSealed(c: S.Config, s: State, steps: seq<Step>, user: UserId, v: int)
    requires c.denyTtlSeconds == Some(R.REVOCATION_TTL_SECONDS) && Legal(c, s, steps) && R.Guarded(s.k, user, v)
    ensures R.Guarded(Run(c, s, steps).k, user, v)
    decreases |steps|
  {
    if steps != [] {
      StepKeepsDenylist(c, s, steps[0]);
      hide Apply;
      hide Enabled;
      StaysSealed(c, Apply(c, s, steps[0]), steps[1..], user, v);
    }
  }

  /** The call has ended by revoking the session. */
  predicate Revoked(p: Process, sid: Sid) {
    p == RevokeDone(sid) || (p.RotateDone? && p.sid == sid && p.verdict == Reuse)
  }

  lemma {:induction false} LastCommandDenies(c: S.Config, s: State, pid: Pid, newJti: Jti, sid: Sid)
    requires Enabled(s, Advance(pid, newJti)) && c.denyTtlSeconds.Some?
    requires var p := AdvanceCall(c, s, pid, newJti).calls; pid in p && Revoked(p[pid], sid)
    ensures var k' := AdvanceCall(c, s, pid, newJti).k;
            k'.now == s.k.now && sid in k'.revokedSids && k'.revokedSids[sid] == Expiry(s.k, c.denyTtlSeconds.value)
  {
    match s.calls[pid] {
      case Killing(x, _, pc) => LastIsDeny(c, s.k, x, pc);
      case Revoking(x, pc) => LastIsDeny(c, s.k, x, pc);
      case Rotating(x, presented) => RotationIsNoRevocation(c, s, pid, x, presented, newJti, sid);
      case Clearing(user, pc) => ClearIsNoRevocation(c, s, pid, user, pc, sid);
    }
    hide RevokeCommand;
    hide EvalStep;
    hide ClearCommand;
  }

  lemma {:induction false} LastIsDeny(c: S.Config, k: Keyspace, sid: Sid, pc: RevokePc)
    requires c.denyTtlSeconds.Some?
    ensures RevokeCommand(c, k, sid, pc).1.None? ==>
              var k' := RevokeCommand(c, k, sid, pc).0;
              k'.now == k.now && sid in k'.revokedSids && k'.revokedSids[sid] == Expiry(k, c.denyTtlSeconds.value)
  {
  }

  lemma {:induction false} RotationIsNoRevocation(
    c: S.Config, s: State, pid: Pid, x: Sid, presented: Jti, newJti: Jti, sid: Sid)
    ensures var p := EvalStep(c, s, pid, x, presented, newJti).calls; pid in p && !Revoked(p[pid], sid)
  {
  }

  lemma {:induction false} ClearIsNoRevocation(c: S.Config, s: State, pid: Pid, user: UserId, pc: ClearPc, sid: Sid)
    ensures var p := ClearCommand(c, s, pid, user, pc).calls; pid in p && !Revoked(p[pid], sid)
  {
  }

  /**
    A revocation for good, under any interleaving: from the last command of a `revoke`, or of a `rotate` that met a
    reused token, no continuation lets through a token of the session issued up to then, or within the 60 s after.
   */
  lemma {:induction false} RevokedIsShut(
    c: S.Config, s: State, pid: Pid, newJti: Jti, later: seq<Step>, sid: Sid, claims: R.Claims)
    requires c.denyTtlSeconds == Some(R.REVOCATION_TTL_SECONDS) && Enabled(s, Advance(pid, newJti))
    requires var s' := Apply(c, s, Advance(pid, newJti));
             pid in s'.calls && Revoked(s'.calls[pid], sid) && Legal(c, s', later)
    requires claims.sid == sid && claims.iat.Some? && claims.iat.value <= R.Seconds(s.k.now + 1) + 60
    ensures R.Shut(Run(c, Apply(c, s, Advance(pid, newJti)), later).k, claims)
  {
    LastCommandDenies(c, s, pid, newJti, sid);
    var s' := Apply(c, s, Advance(pid, newJti));
    hide Apply;
    hide Enabled;
    StaysShut(c, s', later, sid, claims.iat.value, s.k.now);
  }

  lemma {:induction false} LastCommandSeals(c: S.Config, s: State, pid: Pid, newJti: Jti, user: UserId)
    requires Enabled(s, Advance(pid, newJti)) && c.denyTtlSeconds.Some?
    requires var p := AdvanceCall(c, s, pid, newJti).calls; pid in p && p[pid].ClearDone? && p[pid].user == user
    ensures var k' := AdvanceCall(c, s, pid, newJti).k;
            && k'.now == s.k.now && user in k'.revokedBefore
            && k'.revokedBefore[user] == Stored(R.Seconds(s.k.now), Expiry(s.k, c.denyTtlSeconds.value))
  {
    AdvancesItself(c, s, pid, newJti);
    if s.calls[pid].Clearing? {
      LastIsSeal(c, s, pid, s.calls[pid].user, s.calls[pid].clear);
    } else {
      NoClear(c, s, pid, newJti);
    }
    hide RevokeCommand;
    hide EvalStep;
    hide ClearCommand;
  }

  lemma {:induction false} LastIsSeal(c: S.Config, s: State, pid: Pid, user: UserId, pc: ClearPc)
    requires c.denyTtlSeconds.Some?
    ensures var s' := ClearCommand(c, s, pid, user, pc);
            pid in s'.calls && (s'.calls[pid].ClearDone? ==>
              s'.calls[pid].user == user && s'.k.now == s.k.now && user in s'.k.revokedBefore &&
              s'.k.revokedBefore[user] == Stored(R.Seconds(s.k.now), Expiry(s.k, c.denyTtlSeconds.value)))
  {
  }

  lemma {:induction false} NoClear(c: S.Config, s: State, pid: Pid, newJti: Jti)
    requires pid in s.calls && !s.calls[pid].Clearing? && !s.calls[pid].ClearDone?
    ensures var p := AdvanceCall(c, s, pid, newJti).calls; pid in p && !p[pid].ClearDone?
  {
    hide RevokeCommand;
    hide RotateVerdict;
  }

  /** And from the last command of a `revokeAllForUser` none of the user issued before that second. */
  lemma {:induction false} ClearedIsShut(
    c: S.Config, s: State, pid: Pid, newJti: Jti, later: seq<Step>, user: UserId, claims: R.Claims)
    requires c.denyTtlSeconds == Some(R.REVOCATION_TTL_SECONDS) && Enabled(s, Advance(pid, newJti))
    requires var s' := Apply(c, s, Advance(pid, newJti));
             pid in s'.calls && s'.calls[pid].ClearDone? && s'.calls[pid].user == user && Legal(c, s', later)
    requires claims.sub == user && claims.iat.Some? && claims.iat.value < R.Seconds(s.k.now)
    ensures R.Shut(Run(c, Apply(c, s, Advance(pid, newJti)), later).k, claims)
  {
    LastCommandSeals(c, s, pid, newJti, user);
    var s' := Apply(c, s, Advance(pid, newJti));
    hide Apply;
    hide Enabled;
    StaysSealed(c, s', later, user, R.Seconds(s.k.now));
  }
}
