/**
  When no tick outlives its claim: replicas that publish through the pool with sends cut off by the timeout, and a
  stale window that is wide enough.
 */
module OutboxDeadline {
  import opened Common
  import opened Outbox
  import opened OutboxSystem
  import X = OutboxExclusivity
  import O = OutboxOnce

  /**
    How the relays work: the workers of a pool, the cut-off of one send, the longest time from a claim to its first
    send and from the last send to the end of the acks. Times are in the unit of the state's clock.
   */
  datatype Pace = Pace(workers: nat, timeout: nat, claim: nat, ack: nat)

  /** The state, when each send was started, and when each replica last had a row settled or claimed. */
  datatype Timed = Timed(s: State, started: map<SendNo, int>, settled: map<Rid, int>)

  const START := Timed(INITIAL, map[], map[])

  /** A send is cut off at the timeout, and while none is under way a tick is waiting for its claim or its acks. */
  predicate MayWait(p: Pace, t: Timed, r: Rid, to: int) {
    var b := At(t.s, r);
    b.Busy? ==>
      && (forall id :: id in b.sending && b.sending[id] in t.started ==> to <= t.started[b.sending[id]] + p.timeout)
      && (b.sending == map[] && b.todo != {} ==> to <= b.claimedAt + p.claim)
      && (b.sending == map[] && b.todo == {} && r in t.settled ==> to <= t.settled[r] + p.ack)
  }

  predicate InPace(p: Pace, t: Timed, step: Step) {
    match step
    case Elapse(to) => forall r :: r in t.s.replicas ==> MayWait(p, t, r, to)
    case StartSend(r, _, _) => At(t.s, r).Busy? ==> |At(t.s, r).sending| < p.workers
    case SendOk(r, id) =>
      At(t.s, r).Busy? && id in At(t.s, r).sending && At(t.s, r).sending[id] in t.started ==>
        t.s.now < t.started[At(t.s, r).sending[id]] + p.timeout
    case _ => true
  }

  predicate Allowed(c: Config, p: Pace, t: Timed, step: Step) {
    Enabled(c, t.s, step) && InPace(p, t, step)
  }

  function Next(c: Config, p: Pace, t: Timed, step: Step): Timed
    requires Allowed(c, p, t, step)
  {
    var s' := Apply(c, t.s, step);
    match step
    case StartSend(_, _, no) => Timed(s', t.started[no := t.s.now], t.settled)
    case Claim(r, _, _) => Timed(s', t.started, t.settled[r := t.s.now])
    case Reject(r, _) => Timed(s', t.started, t.settled[r := t.s.now])
    case SendOk(r, _) => Timed(s', t.started, t.settled[r := t.s.now])
    case SendTransient(r, _) => Timed(s', t.started, t.settled[r := t.s.now])
    case _ => Timed(s', t.started, t.settled)
  }

  predicate AllAllowed(c: Config, p: Pace, t: Timed, steps: seq<Step>)
    decreases |steps|
  {
    steps == [] || (Allowed(c, p, t, steps[0]) && AllAllowed(c, p, Next(c, p, t, steps[0]), steps[1..]))
  }

  function Finally(c: Config, p: Pace, t: Timed, steps: seq<Step>): Timed
    requires AllAllowed(c, p, t, steps)
    decreases |steps|
  {
    if steps == [] then t else Finally(c, p, Next(c, p, t, steps[0]), steps[1..])
  }

  lemma {:induction false} NextIsApply(c: Config, p: Pace, t: Timed, step: Step)
    requires Allowed(c, p, t, step)
    ensures Next(c, p, t, step).s == Apply(c, t.s, step)
  {
  }

  // ---------------------------------------------------------------- a tick is bounded by its batch

  /** The latest a tick can be at with these rows still to start. */
  function Latest(n: nat, p: Pace, b: Replica): int
    requires b.Busy?
  {
    b.claimedAt + p.claim + (n - |b.todo|) * p.timeout
  }

  lemma {:induction false} OneLess(n: nat, a: nat, b: nat, timeout: nat)
    requires b < a <= n
    ensures (n - a) * timeout + timeout <= (n - b) * timeout
  {
    assert (n - a + 1) * timeout <= (n - b) * timeout;
  }

  lemma {:induction false} NotMore(n: nat, a: nat, b: nat, timeout: nat)
    requires b <= a <= n
    ensures (n - a) * timeout <= (n - b) * timeout
  {
  }

  /** A replica is no further on than the rows it has started allow. */
  predicate OnTime(n: nat, p: Pace, t: Timed, r: Rid) {
    var b := At(t.s, r);
    b.Busy? ==>
      && |b.todo| <= n
      && (forall id :: id in b.sending ==>
            b.sending[id] in t.started && t.started[b.sending[id]] + p.timeout <= Latest(n, p, b))
      && r in t.settled && t.settled[r] <= Latest(n, p, b)
      && t.s.now <= Latest(n, p, b) + (if b.todo == {} && b.sending == map[] then p.ack else 0)
  }

  ghost predicate AllOnTime(c: Config, p: Pace, t: Timed)
    requires c.batchSize >= 0
  {
    (forall no :: no in t.started ==> no in t.s.sends) && forall r: Rid :: OnTime(c.batchSize, p, t, r)
  }

  lemma {:induction false} WaitOnTime(n: nat, p: Pace, t: Timed, r: Rid, to: int)
    requires OnTime(n, p, t, r) && (At(t.s, r).Busy? ==> MayWait(p, t, r, to))
    ensures OnTime(n, p, t.(s := t.s.(now := to)), r)
  {
    var b := At(t.s, r);
    if b.Busy? {
      NotMore(n, n, |b.todo|, p.timeout);
      if b.sending != map[] {
        var id :| id in b.sending;
      }
    }
  }

  /** Somebody else's step leaves a replica on time. */
  lemma {:induction false} OthersOnTime(c: Config, p: Pace, t: Timed, step: Step, r: Rid)
    requires c.batchSize >= 0 && Allowed(c, p, t, step) && Actor(step) != Some(r) && !step.Elapse?
    requires OnTime(c.batchSize, p, t, r) && forall no :: no in t.started ==> no in t.s.sends
    ensures OnTime(c.batchSize, p, Next(c, p, t, step), r)
  {
    OthersUntouched(c, t.s, step, r);
    hide Latest;
    hide FirstByKey;
    hide FirstBySweep;
    hide Head;
  }

  lemma {:induction false} ClaimOnTime(c: Config, p: Pace, t: Timed, r: Rid, ids: set<Id>, locked: set<Id>)
    requires c.batchSize >= 0 && Allowed(c, p, t, Claim(r, ids, locked))
    ensures OnTime(c.batchSize, p, Next(c, p, t, Claim(r, ids, locked)), r)
  {
    assert |ids| <= c.batchSize;
    X.ClaimEffect(c, t.s, r, ids, locked, r);
    NotMore(c.batchSize, c.batchSize, |ids|, p.timeout);
    hide FirstByKey;
  }

  lemma {:induction false} StartEffect(c: Config, p: Pace, t: Timed, r: Rid, id: Id, no: SendNo)
    requires Allowed(c, p, t, StartSend(r, id, no))
    ensures var t' := Next(c, p, t, StartSend(r, id, no));
            && At(t.s, r).Busy? && id in At(t.s, r).todo && no !in t.s.sends
            && At(t'.s, r) == At(t.s, r).(todo := At(t.s, r).todo - {id}, sending := At(t.s, r).sending[id := no])
            && t'.s.now == t.s.now && t'.started == t.started[no := t.s.now] && t'.settled == t.settled
  {
    hide InPace;
  }

  lemma {:induction false} StartOnTime(c: Config, p: Pace, t: Timed, r: Rid, id: Id, no: SendNo)
    requires c.batchSize >= 0 && Allowed(c, p, t, StartSend(r, id, no)) && OnTime(c.batchSize, p, t, r)
    requires forall n :: n in t.started ==> n in t.s.sends
    ensures OnTime(c.batchSize, p, Next(c, p, t, StartSend(r, id, no)), r)
  {
    StartEffect(c, p, t, r, id, no);
    hide *;
    StartBound(c.batchSize, p, t, Next(c, p, t, StartSend(r, id, no)), r, id, no);
  }

  lemma {:induction false} StartBound(n: nat, p: Pace, t: Timed, t': Timed, r: Rid, id: Id, no: SendNo)
    requires OnTime(n, p, t, r) && (forall m :: m in t.started ==> m in t.s.sends) && no !in t.s.sends
    requires var b, b' := At(t.s, r), At(t'.s, r);
             b.Busy? && id in b.todo && b' == b.(todo := b.todo - {id}, sending := b.sending[id := no])
    requires t'.s.now == t.s.now && t'.started == t.started[no := t.s.now] && t'.settled == t.settled
    ensures OnTime(n, p, t', r)
  {
    var b, b' := At(t.s, r), At(t'.s, r);
    assert |b'.todo| == |b.todo| - 1;
    OneLess(n, |b.todo|, |b'.todo|, p.timeout);
    assert Latest(n, p, b) + p.timeout <= Latest(n, p, b');
    hide Latest;
    hide At;
  }

  /** A row leaves the wire, or the queue, with or without the rest of its group. */
  lemma {:induction false} SettleEffect(c: Config, p: Pace, t: Timed, step: Step, r: Rid)
    requires Allowed(c, p, t, step) && Actor(step) == Some(r) && (step.Reject? || step.SendOk? || step.SendTransient?)
    ensures var b, t' := At(t.s, r), Next(c, p, t, step);
            var b' := At(t'.s, r);
            && b.Busy? && b'.Busy? && b'.claimedAt == b.claimedAt && b'.todo <= b.todo
            && (b.todo != {} || b.sending != map[])
            && (forall id :: id in b'.sending ==> id in b.sending && b'.sending[id] == b.sending[id])
            && t'.s.now == t.s.now && t'.started == t.started && t'.settled == t.settled[r := t.s.now]
  {
    hide InPace;
  }

  lemma {:induction false} SettleOnTime(c: Config, p: Pace, t: Timed, step: Step, r: Rid)
    requires c.batchSize >= 0 && Allowed(c, p, t, step) && OnTime(c.batchSize, p, t, r) && Actor(step) == Some(r)
    requires step.Reject? || step.SendOk? || step.SendTransient?
    ensures OnTime(c.batchSize, p, Next(c, p, t, step), r)
  {
    SettleEffect(c, p, t, step, r);
    hide *;
    SettleBound(c.batchSize, p, t, Next(c, p, t, step), r);
  }

  lemma {:induction false} SettleBound(n: nat, p: Pace, t: Timed, t': Timed, r: Rid)
    requires OnTime(n, p, t, r)
    requires var b, b' := At(t.s, r), At(t'.s, r);
             && b.Busy? && b'.Busy? && b'.claimedAt == b.claimedAt && b'.todo <= b.todo
             && (b.todo != {} || b.sending != map[])
             && (forall id :: id in b'.sending ==> id in b.sending && b'.sending[id] == b.sending[id])
    requires t'.s.now == t.s.now && t'.started == t.started && t'.settled == t.settled[r := t.s.now]
    ensures OnTime(n, p, t', r)
  {
    var b, b' := At(t.s, r), At(t'.s, r);
    SubsetSize(b'.todo, b.todo);
    NotMore(n, |b.todo|, |b'.todo|, p.timeout);
    assert Latest(n, p, b) <= Latest(n, p, b');
    hide Latest;
    hide At;
  }

  lemma {:induction false} AckOnTime(c: Config, p: Pace, t: Timed, step: Step, r: Rid)
    requires c.batchSize >= 0 && Allowed(c, p, t, step) && OnTime(c.batchSize, p, t, r) && Actor(step) == Some(r)
    requires step.AckPublished? || step.AckReleased? || step.AckPoisoned? || step.Finish? || step.Crash?
    ensures OnTime(c.batchSize, p, Next(c, p, t, step), r)
  {
  }

  lemma {:induction false} StepOnTime(c: Config, p: Pace, t: Timed, step: Step, r: Rid)
    requires c.batchSize >= 0 && Allowed(c, p, t, step) && AllOnTime(c, p, t)
    ensures OnTime(c.batchSize, p, Next(c, p, t, step), r)
  {
    assert OnTime(c.batchSize, p, t, r);
    hide OnTime;
    hide Allowed;
    hide Next;
    if step.Elapse? {
      ElapseOnTime(c, p, t, step.to, r);
    } else if Actor(step) != Some(r) {
      OthersOnTime(c, p, t, step, r);
    } else if step.Claim? {
      ClaimOnTime(c, p, t, r, step.ids, step.locked);
    } else if step.StartSend? {
      StartOnTime(c, p, t, r, step.id, step.no);
    } else if step.Reject? || step.SendOk? || step.SendTransient? {
      SettleOnTime(c, p, t, step, r);
    } else {
      AckOnTime(c, p, t, step, r);
    }
  }

  lemma {:induction false} ElapseOnTime(c: Config, p: Pace, t: Timed, to: int, r: Rid)
    requires c.batchSize >= 0 && Allowed(c, p, t, Elapse(to)) && OnTime(c.batchSize, p, t, r)
    ensures OnTime(c.batchSize, p, Next(c, p, t, Elapse(to)), r)
  {
    hide OnTime;
    hide MayWait;
    assert Next(c, p, t, Elapse(to)) == t.(s := t.s.(now := to));
    assert At(t.s, r).Busy? ==> r in t.s.replicas && MayWait(p, t, r, to);
    WaitOnTime(c.batchSize, p, t, r, to);
  }

  lemma {:induction false} StepsOnTime(c: Config, p: Pace, t: Timed, step: Step)
    requires c.batchSize >= 0 && Allowed(c, p, t, step) && AllOnTime(c, p, t)
    ensures AllOnTime(c, p, Next(c, p, t, step))
  {
    forall r: Rid ensures OnTime(c.batchSize, p, Next(c, p, t, step), r) {
      StepOnTime(c, p, t, step, r);
    }
    StepGrows(c, t.s, step);
  }

  /** What a batch of sends, each up to the timeout, and the statements around it take at most. */
  function Needed(n: nat, p: Pace): nat {
    p.claim + n * p.timeout + p.ack
  }

  lemma {:induction false} OnTimeIsTimely(c: Config, p: Pace, t: Timed)
    requires c.batchSize >= 0 && AllOnTime(c, p, t) && Needed(c.batchSize, p) <= c.staleMs
    ensures X.Timely(c, t.s)
  {
    forall r | r in t.s.replicas && t.s.replicas[r].Busy? ensures t.s.now <= t.s.replicas[r].claimedAt + c.staleMs {
      assert OnTime(c.batchSize, p, t, r);
      NotMore(c.batchSize, |At(t.s, r).todo|, 0, p.timeout);
    }
  }

  lemma {:induction false} PacedRunIsTimely(c: Config, p: Pace, t: Timed, steps: seq<Step>)
    requires c.batchSize >= 0 && AllOnTime(c, p, t) && AllAllowed(c, p, t, steps) && Needed(c.batchSize, p) <= c.staleMs
    ensures Legal(c, t.s, steps) && X.TimelyRun(c, t.s, steps) && Run(c, t.s, steps) == Finally(c, p, t, steps).s
    decreases |steps|
  {
    OnTimeIsTimely(c, p, t);
    if steps != [] {
      StepsOnTime(c, p, t, steps[0]);
      NextIsApply(c, p, t, steps[0]);
      PacedRunIsTimely(c, p, Next(c, p, t, steps[0]), steps[1..]);
    }
  }

  /** A window that holds the batch keeps claims exclusive in every run that keeps the pace. */
  lemma {:induction false} WideWindowIsExclusive(c: Config, p: Pace, steps: seq<Step>, q: Rid, r: Rid)
    requires c.batchSize >= 0 && AllAllowed(c, p, START, steps) && Needed(c.batchSize, p) <= c.staleMs && q != r
    ensures var s := Finally(c, p, START, steps).s; X.InFlight(At(s, q)) !! X.InFlight(At(s, r))
  {
    PacedRunIsTimely(c, p, START, steps);
    X.ClaimsAreExclusive(c, steps, q, r);
  }

  /** And it keeps each event to one entry in the log while nothing crashes and nothing fails for a time. */
  lemma {:induction false} WideWindowLogsOnce(c: Config, p: Pace, steps: seq<Step>)
    requires c.batchSize >= 0 && AllAllowed(c, p, START, steps) && Needed(c.batchSize, p) <= c.staleMs
    requires forall step :: step in steps ==> O.Smooth(step)
    ensures O.NoRepeats(Finally(c, p, START, steps).s.log)
  {
    PacedRunIsTimely(c, p, START, steps);
    O.LoggedOnce(c, steps);
  }

  lemma {:induction false} AllowedIsLegal(c: Config, p: Pace, t: Timed, steps: seq<Step>)
    requires AllAllowed(c, p, t, steps)
    ensures Legal(c, t.s, steps) && Run(c, t.s, steps) == Finally(c, p, t, steps).s
    decreases |steps|
  {
    if steps != [] {
      NextIsApply(c, p, t, steps[0]);
      AllowedIsLegal(c, p, Next(c, p, t, steps[0]), steps[1..]);
    }
  }
}
