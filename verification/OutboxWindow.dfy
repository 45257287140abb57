/**
  The stale window the outbox needs: with sends cut off by the publish timeout, what the operator sets decides whether
  two replicas can hold a row together, and whether an event can be in the log twice.
 */
module OutboxWindow {
  import opened Common
  import opened Outbox
  import opened OutboxSystem
  import opened OutboxDeadline
  import X = OutboxExclusivity
  import O = OutboxOnce

  /** What the operator sets, in milliseconds. */
  datatype Setting = Setting(batch: nat, windowMs: nat, pace: Pace)

  /** The same pace with the clock counting in units of which `unit` make a millisecond. */
  function Scaled(p: Pace, unit: nat): Pace {
    Pace(p.workers, p.timeout * unit, p.claim * unit, p.ack * unit)
  }

  predicate Runs(c: Config, g: Setting, unit: nat) {
    c.batchSize == g.batch && c.staleMs == g.windowMs * unit
  }

  /** However fine the clock, in no run that keeps the pace do two replicas hold a row together. */
  ghost predicate NeverShared(g: Setting) {
    forall c, unit: nat, steps, q: Rid, r: Rid ::
      unit >= 1 && Runs(c, g, unit) && AllAllowed(c, Scaled(g.pace, unit), START, steps) && q != r ==>
        X.InFlight(At(Finally(c, Scaled(g.pace, unit), START, steps).s, q)) !!
        X.InFlight(At(Finally(c, Scaled(g.pace, unit), START, steps).s, r))
  }

  /** Nor, without a crash or a transient failure, is an event in the log twice. */
  ghost predicate NeverTwice(g: Setting) {
    forall c, unit: nat, steps ::
      unit >= 1 && Runs(c, g, unit) && AllAllowed(c, Scaled(g.pace, unit), START, steps) &&
      (forall step :: step in steps ==> O.Smooth(step)) ==>
        O.NoRepeats(Finally(c, Scaled(g.pace, unit), START, steps).s.log)
  }

  // ---------------------------------------------------------------- a run of two replicas under a narrow window

  function NthEvent(i: Id): Event {
    Event("trip-1", i, i, Envelope(i, "trip.updated", ""))
  }

  function Ids(low: nat, high: nat): (ids: set<Id>)
    requires low <= high
    ensures forall i :: i in ids <==> low <= i < high
    ensures |ids| == high - low
    decreases high
  {
    if low == high then {} else Ids(low, high - 1) + {high - 1}
  }

  function Rows(n: nat, claimedAt: Option<int>): Table {
    map i | i in Ids(0, n) :: Row(NthEvent(i), None, claimedAt, None)
  }

  function Events(n: nat): map<Id, Event> {
    map i | i in Ids(0, n) :: NthEvent(i)
  }

  /** A run that keeps the pace, crashes nowhere and fails nowhere for a time ends there. */
  predicate Reaches(c: Config, p: Pace, steps: seq<Step>, t: Timed) {
    && AllAllowed(c, p, START, steps) && Finally(c, p, START, steps) == t
    && forall step :: step in steps ==> O.Smooth(step)
  }

  lemma {:induction false} OneMore(c: Config, p: Pace, t0: Timed, steps: seq<Step>, t: Timed, step: Step)
    requires AllAllowed(c, p, t0, steps) && Finally(c, p, t0, steps) == t && Allowed(c, p, t, step)
    ensures AllAllowed(c, p, t0, steps + [step]) && Finally(c, p, t0, steps + [step]) == Next(c, p, t, step)
    decreases |steps|
  {
    hide Allowed;
    hide Next;
    if steps == [] {
      assert [] + [step] == [step] && [step][1..] == [];
      assert AllAllowed(c, p, Next(c, p, t, step), [step][1..]);
    } else {
      assert (steps + [step])[1..] == steps[1..] + [step];
      OneMore(c, p, Next(c, p, t0, steps[0]), steps[1..], t, step);
    }
  }

  lemma {:induction false} ReachesOn(c: Config, p: Pace, steps: seq<Step>, t: Timed, step: Step)
    requires Reaches(c, p, steps, t) && Allowed(c, p, t, step) && O.Smooth(step)
    ensures Reaches(c, p, steps + [step], Next(c, p, t, step))
  {
    hide Allowed;
    hide Next;
    OneMore(c, p, START, steps, t, step);
  }

  /** `n` rows of one aggregate, nothing claimed. */
  function Inserted(n: nat): State {
    State(0, Rows(n, None), Events(n), map[], map[], {}, [])
  }

  lemma {:induction false} OneMoreRow(n: nat)
    ensures Rows(n + 1, None) == Rows(n, None)[n := Row(NthEvent(n), None, None, None)]
    ensures Events(n + 1) == Events(n)[n := NthEvent(n)]
  {
    assert Ids(0, n + 1) == Ids(0, n) + {n};
  }

  lemma {:induction false} InsertNext(c: Config, p: Pace, n: nat)
    ensures var t, step := Timed(Inserted(n), map[], map[]), Enqueue(n, NthEvent(n));
            Allowed(c, p, t, step) && Next(c, p, t, step) == Timed(Inserted(n + 1), map[], map[])
  {
    var t, step := Timed(Inserted(n), map[], map[]), Enqueue(n, NthEvent(n));
    OneMoreRow(n);
    hide Rows;
    assert Next(c, p, t, step).s == Inserted(n + 1);
  }

  lemma {:induction false} InsertAll(c: Config, p: Pace, n: nat) returns (steps: seq<Step>)
    ensures Reaches(c, p, steps, Timed(Inserted(n), map[], map[]))
  {
    hide *;
    if n == 0 {
      steps := [];
      StartIsEmpty(c, p);
    } else {
      var before := InsertAll(c, p, n - 1);
      var step := Enqueue(n - 1, NthEvent(n - 1));
      InsertNext(c, p, n - 1);
      EnqueueIsSmooth(n - 1, NthEvent(n - 1));
      ReachesOn(c, p, before, Timed(Inserted(n - 1), map[], map[]), step);
      steps := before + [step];
    }
  }

  lemma {:induction false} EnqueueIsSmooth(id: Id, event: Event)
    ensures O.Smooth(Enqueue(id, event))
  {
  }

  lemma {:induction false} StartIsEmpty(c: Config, p: Pace)
    ensures Reaches(c, p, [], Timed(Inserted(0), map[], map[]))
  {
    assert Rows(0, None) == map[] && Events(0) == map[];
  }

  /** The first replica with `done` rows acknowledged by the broker, before and during the next send. */
  function Between(n: nat, done: nat): Replica
    requires done <= n
  {
    Busy(0, Ids(done, n), map[], Ids(0, done), {}, {})
  }

  function Waiting(n: nat, done: nat): Replica
    requires done < n
  {
    Busy(0, Ids(done + 1, n), map[done := done], Ids(0, done), {}, {})
  }

  /** All rows claimed by the first replica, which is like `b`, and sends numbered below `used`. */
  predicate Claimed(t: Timed, n: nat, b: Replica, used: nat, now: int) {
    && t.s.now == now
    && t.s.table == Rows(n, Some(0)) && t.s.catalog == Events(n)
    && t.s.replicas == map[0 := b]
    && (forall no :: no in t.s.sends ==> no < used)
    && t.s.landed <= t.s.sends.Keys
    && 0 in t.settled
  }

  predicate Halfway(t: Timed, n: nat, done: nat, now: int) {
    done <= n && Claimed(t, n, Between(n, done), done, now) && (done == n && n > 0 ==> t.settled[0] == now)
  }

  lemma {:induction false} ClaimFirst(c: Config, p: Pace, n: nat)
    requires c.batchSize == n && n >= 1
    ensures var t, step := Timed(Inserted(n), map[], map[]), Claim(0, Ids(0, n), {});
            Allowed(c, p, t, step) && Halfway(Next(c, p, t, step), n, 0, 0)
  {
    var t, step := Timed(Inserted(n), map[], map[]), Claim(0, Ids(0, n), {});
    UnclaimedPool(n, c.staleMs);
    ClaimIs(c, p, t, 0, Ids(0, n));
    hide Rows;
    hide Events;
    hide Allowed;
    hide Next;
    assert 0 in Ids(0, n) && Ids(0, 0) == {};
    assert Put(t.s, 0, Between(n, 0)).replicas == map[0 := Between(n, 0)];
  }

  /** A claim of the whole pool. */
  lemma {:induction false} ClaimIs(c: Config, p: Pace, t: Timed, r: Rid, ids: set<Id>)
    requires At(t.s, r).Idle? && ClaimPool(t.s.table, t.s.now, c.staleMs, {}) == ids
    requires |ids| == c.batchSize && ids != {}
    ensures var step := Claim(r, ids, {});
            && Allowed(c, p, t, step)
            && Next(c, p, t, step) ==
               Timed(Put(t.s.(table := MarkClaimed(t.s.table, ids, t.s.now)), r,
                         Busy(t.s.now, ids, map[], {}, {}, {})), t.started, t.settled[r := t.s.now])
  {
    hide ClaimPool;
    hide MarkClaimed;
    hide At;
  }

  lemma {:induction false} UnclaimedPool(n: nat, staleMs: int)
    ensures ClaimPool(Rows(n, None), 0, staleMs, {}) == Ids(0, n)
    ensures MarkClaimed(Rows(n, None), Ids(0, n), 0) == Rows(n, Some(0))
  {
  }

  lemma {:induction false} WaitForSend(c: Config, p: Pace, t: Timed, n: nat)
    requires Halfway(t, n, 0, 0) && n >= 1
    ensures Allowed(c, p, t, Elapse(p.claim)) && Halfway(Next(c, p, t, Elapse(p.claim)), n, 0, p.claim)
  {
    hide Rows;
    hide Events;
    assert 0 in Ids(0, n);
  }

  lemma {:induction false} ClaimAll(c: Config, p: Pace, n: nat) returns (steps: seq<Step>, t: Timed)
    requires c.batchSize == n && n >= 1
    ensures Reaches(c, p, steps, t) && Halfway(t, n, 0, p.claim)
  {
    hide *;
    var before := InsertAll(c, p, n);
    var t0 := Timed(Inserted(n), map[], map[]);
    var step := Claim(0, Ids(0, n), {});
    ClaimFirst(c, p, n);
    QuietSteps(0, 0, 0, Ids(0, n), p.claim);
    ReachesOn(c, p, before, t0, step);
    var t1 := Next(c, p, t0, step);
    WaitForSend(c, p, t1, n);
    ReachesOn(c, p, before + [step], t1, Elapse(p.claim));
    steps, t := before + [step] + [Elapse(p.claim)], Next(c, p, t1, Elapse(p.claim));
  }

  lemma {:induction false} QuietSteps(r: Rid, id: Id, no: SendNo, ids: set<Id>, to: int)
    ensures O.Smooth(Claim(r, ids, {})) && O.Smooth(StartSend(r, id, no)) && O.Smooth(SendOk(r, id))
    ensures O.Smooth(Append(no)) && O.Smooth(Elapse(to))
  {
  }

  // ---------------------------------------------------------------- one send after the other

  /** The next row's send is under way, and the log may have it already. */
  predicate Sending(t: Timed, n: nat, done: nat, startedAt: int, now: int, landed: bool) {
    && done < n && Claimed(t, n, Waiting(n, done), done + 1, now)
    && done in t.s.sends && (done in t.s.landed <==> landed)
    && done in t.started && t.started[done] == startedAt
  }

  /** The lowest id comes first. */
  lemma {:induction false} LowestIsHead(s: State, b: Replica, n: nat, low: nat)
    requires low < n && s.catalog == Events(n) && b.Busy? && b.todo == Ids(low, n) && b.sending == map[]
    ensures Head(s, b, low)
  {
    forall j | j in b.todo + b.sending.Keys && j != low ensures Sorts(s, low, j) {
      assert low < j < n;
      LowerSorts(s, n, low, j);
    }
    assert low in Ids(0, n);
    hide Sorts;
    hide SameAggregate;
  }

  lemma {:induction false} LowerSorts(s: State, n: nat, i: nat, j: nat)
    requires i < j < n && s.catalog == Events(n)
    ensures Sorts(s, i, j)
  {
  }

  lemma {:induction false} AllValid(c: Config, s: State, n: nat, id: nat)
    requires c.registry == map[] && s.catalog == Events(n) && id < n
    ensures Valid(c, s, id)
  {
  }

  lemma {:induction false} MayStart(c: Config, p: Pace, t: Timed, r: Rid, id: Id, no: SendNo)
    requires At(t.s, r).Busy? && At(t.s, r).sending == map[] && p.workers >= 1
    requires Head(t.s, At(t.s, r), id) && Valid(c, t.s, id) && no !in t.s.sends
    ensures Allowed(c, p, t, StartSend(r, id, no))
  {
    hide Head;
    hide Valid;
    hide At;
  }

  lemma {:induction false} NextMayStart(c: Config, p: Pace, t: Timed, n: nat, done: nat, now: int)
    requires c.registry == map[] && p.workers >= 1 && Halfway(t, n, done, now) && done < n
    ensures Allowed(c, p, t, StartSend(0, done, done))
  {
    AtHalfway(t, n, done, now);
    LowestIsHead(t.s, Between(n, done), n, done);
    AllValid(c, t.s, n, done);
    hide Head;
    hide Valid;
    hide Rows;
    hide Events;
    hide Allowed;
    hide At;
    MayStart(c, p, t, 0, done, done);
  }

  lemma {:induction false} StartIs(c: Config, p: Pace, t: Timed, r: Rid, id: Id, no: SendNo, b: Replica)
    requires Allowed(c, p, t, StartSend(r, id, no)) && b.Busy? && b == At(t.s, r)
    ensures var b' := b.(todo := b.todo - {id}, sending := b.sending[id := no]);
            Next(c, p, t, StartSend(r, id, no)) ==
            Timed(Put(t.s.(sends := t.s.sends[no := id]), r, b'), t.started[no := t.s.now], t.settled)
  {
    hide Head;
    hide Valid;
    hide InPace;
  }

  lemma {:induction false} StartedIs(t: Timed, t': Timed, n: nat, done: nat, now: int)
    requires Halfway(t, n, done, now) && done < n
    requires t' == Timed(Put(t.s.(sends := t.s.sends[done := done]), 0, Waiting(n, done)),
                         t.started[done := t.s.now], t.settled)
    ensures Sending(t', n, done, now, now, false)
  {
    ClaimedStill(t, t', n, Between(n, done), Waiting(n, done), done, now);
    hide Claimed;
  }

  lemma {:induction false} ClaimedStill(t: Timed, t': Timed, n: nat, b: Replica, b': Replica, no: SendNo, now: int)
    requires Claimed(t, n, b, no, now)
    requires t'.s == Put(t.s.(sends := t.s.sends[no := no]), 0, b') && t'.settled == t.settled
    ensures Claimed(t', n, b', no + 1, now) && no !in t'.s.landed && t'.s.now == now && t.s.now == now
    ensures no in t'.s.sends
  {
    hide Rows;
    hide Events;
    assert t'.s.replicas == map[0 := b'];
  }

  lemma {:induction false} StartedNext(c: Config, p: Pace, t: Timed, n: nat, done: nat, now: int)
    requires Halfway(t, n, done, now) && done < n && Allowed(c, p, t, StartSend(0, done, done))
    ensures Sending(Next(c, p, t, StartSend(0, done, done)), n, done, now, now, false)
  {
    AtHalfway(t, n, done, now);
    NextIsWaiting(n, done);
    hide *;
    StartIs(c, p, t, 0, done, done, Between(n, done));
    StartedIs(t, Next(c, p, t, StartSend(0, done, done)), n, done, now);
  }

  lemma {:induction false} AtHalfway(t: Timed, n: nat, done: nat, now: int)
    requires Halfway(t, n, done, now)
    ensures At(t.s, 0) == Between(n, done) && Between(n, done).Busy?
  {
  }

  lemma {:induction false} NextIsWaiting(n: nat, done: nat)
    requires done < n
    ensures var b := Between(n, done);
            b.(todo := b.todo - {done}, sending := b.sending[done := done]) == Waiting(n, done)
  {
    assert Ids(done, n) - {done} == Ids(done + 1, n);
  }

  lemma {:induction false} AppendedNext(c: Config, p: Pace, t: Timed, n: nat, done: nat, now: int)
    requires Sending(t, n, done, now, now, false)
    ensures Allowed(c, p, t, Append(done)) && Sending(Next(c, p, t, Append(done)), n, done, now, now, true)
  {
    hide Rows;
    hide Events;
    hide Waiting;
  }

  lemma {:induction false} StartNext(c: Config, p: Pace, before: seq<Step>, t: Timed, n: nat, done: nat, now: int)
    returns (steps: seq<Step>, t': Timed)
    requires c.registry == map[] && p.workers >= 1
    requires Reaches(c, p, before, t) && Halfway(t, n, done, now) && done < n
    ensures Reaches(c, p, steps, t') && Sending(t', n, done, now, now, true)
  {
    hide *;
    var step := StartSend(0, done, done);
    QuietSteps(0, done, done, {}, 0);
    NextMayStart(c, p, t, n, done, now);
    ReachesOn(c, p, before, t, step);
    var t1 := Next(c, p, t, step);
    StartedNext(c, p, t, n, done, now);
    AppendedNext(c, p, t1, n, done, now);
    ReachesOn(c, p, before + [step], t1, Append(done));
    steps, t' := before + [step] + [Append(done)], Next(c, p, t1, Append(done));
  }

  lemma {:induction false} WaitForAnswer(c: Config, p: Pace, t: Timed, n: nat, done: nat, now: int)
    requires p.timeout >= 1 && Sending(t, n, done, now, now, true)
    ensures var step := Elapse(now + p.timeout - 1);
            Allowed(c, p, t, step) && Sending(Next(c, p, t, step), n, done, now, now + p.timeout - 1, true)
  {
    hide Rows;
    hide Events;
    assert done in At(t.s, 0).sending;
    assert forall r :: r in t.s.replicas ==> MayWait(p, t, r, now + p.timeout - 1);
  }

  lemma {:induction false} Answered(c: Config, p: Pace, t: Timed, n: nat, done: nat, startedAt: int, now: int)
    requires Sending(t, n, done, startedAt, now, true) && now < startedAt + p.timeout
    ensures Allowed(c, p, t, SendOk(0, done)) && Halfway(Next(c, p, t, SendOk(0, done)), n, done + 1, now)
  {
    hide Rows;
    hide Events;
    assert At(t.s, 0) == Waiting(n, done);
    WaitingIsNext(n, done);
    assert Next(c, p, t, SendOk(0, done)).s.replicas == map[0 := Between(n, done + 1)];
  }

  lemma {:induction false} WaitingIsNext(n: nat, done: nat)
    requires done < n
    ensures var b := Waiting(n, done);
            b.(sending := b.sending - {done}, ok := b.ok + {done}) == Between(n, done + 1)
  {
    assert Ids(0, done) + {done} == Ids(0, done + 1) && map[done := done] - {done} == map[];
  }

  lemma {:induction false} EndNext(c: Config, p: Pace, before: seq<Step>, t: Timed, n: nat, done: nat, now: int)
    returns (steps: seq<Step>, t': Timed)
    requires p.timeout >= 1 && Reaches(c, p, before, t) && Sending(t, n, done, now, now, true)
    ensures Reaches(c, p, steps, t') && Halfway(t', n, done + 1, now + p.timeout - 1)
  {
    hide *;
    var later := now + p.timeout - 1;
    QuietSteps(0, done, done, {}, later);
    WaitForAnswer(c, p, t, n, done, now);
    ReachesOn(c, p, before, t, Elapse(later));
    var t1 := Next(c, p, t, Elapse(later));
    Answered(c, p, t1, n, done, now, later);
    ReachesOn(c, p, before + [Elapse(later)], t1, SendOk(0, done));
    steps, t' := before + [Elapse(later)] + [SendOk(0, done)], Next(c, p, t1, SendOk(0, done));
  }

  /** When so many rows have been sent, each answered just before the timeout. */
  function After(p: Pace, done: nat): int {
    p.claim + done * (p.timeout - 1)
  }

  lemma {:induction false} AfterNext(p: Pace, done: nat)
    ensures After(p, done) == if done == 0 then p.claim else After(p, done - 1) + p.timeout - 1
  {
    if done > 0 {
      assert done * (p.timeout - 1) == (done - 1) * (p.timeout - 1) + (p.timeout - 1);
    }
  }

  lemma {:induction false} SendAll(c: Config, p: Pace, n: nat, done: nat) returns (steps: seq<Step>, t: Timed)
    requires c.registry == map[] && c.batchSize == n && p.workers >= 1 && p.timeout >= 1 && done <= n && n >= 1
    ensures Reaches(c, p, steps, t) && Halfway(t, n, done, After(p, done))
    decreases done
  {
    hide *;
    AfterNext(p, done);
    if done == 0 {
      steps, t := ClaimAll(c, p, n);
    } else {
      var before, m := SendAll(c, p, n, done - 1);
      var started, m1 := StartNext(c, p, before, m, n, done - 1, After(p, done - 1));
      steps, t := EndNext(c, p, started, m1, n, done - 1, After(p, done - 1));
    }
  }

  // ---------------------------------------------------------------- the second replica

  lemma {:induction false} WaitForAcks(c: Config, p: Pace, t: Timed, n: nat, now: int)
    requires n >= 1 && Halfway(t, n, n, now)
    ensures Allowed(c, p, t, Elapse(now + p.ack))
    ensures Claimed(Next(c, p, t, Elapse(now + p.ack)), n, Between(n, n), n, now + p.ack)
  {
    hide Rows;
    hide Events;
    assert Ids(n, n) == {};
  }

  /** The two replicas hold the same rows, and the first has sent them all. */
  predicate Shared(t: Timed, n: nat, now: int) {
    && t.s.catalog == Events(n) && t.s.landed <= t.s.sends.Keys
    && (forall no :: no in t.s.sends ==> no < n)
    && At(t.s, 0) == Between(n, n) && At(t.s, 1) == Busy(now, Ids(0, n), map[], {}, {}, {})
  }

  lemma {:induction false} StalePool(n: nat, now: int, staleMs: int)
    requires now > staleMs
    ensures ClaimPool(Rows(n, Some(0)), now, staleMs, {}) == Ids(0, n)
  {
  }

  lemma {:induction false} ClaimSecond(c: Config, p: Pace, t: Timed, n: nat, now: int)
    requires c.batchSize == n && n >= 1 && now > c.staleMs && Claimed(t, n, Between(n, n), n, now)
    ensures var step := Claim(1, Ids(0, n), {}); Allowed(c, p, t, step) && Shared(Next(c, p, t, step), n, now)
  {
    StalePool(n, now, c.staleMs);
    hide ClaimPool;
    ClaimIs(c, p, t, 1, Ids(0, n));
    hide Rows;
    hide Events;
    hide Allowed;
    hide Next;
    hide Between;
    hide MarkClaimed;
    assert 0 in Ids(0, n);
  }

  /** Before its acks the first replica has outlived its claim, and the second takes the rows it still holds. */
  lemma {:induction false} Reclaimed(c: Config, p: Pace, n: nat) returns (steps: seq<Step>, t: Timed)
    requires c.registry == map[] && c.batchSize == n && p.workers >= 1 && p.timeout >= 1 && n >= 1
    requires After(p, n) + p.ack > c.staleMs
    ensures Reaches(c, p, steps, t) && Shared(t, n, After(p, n) + p.ack)
  {
    hide *;
    var before, m := SendAll(c, p, n, n);
    var later := After(p, n) + p.ack;
    QuietSteps(1, 0, 0, Ids(0, n), later);
    WaitForAcks(c, p, m, n, After(p, n));
    ReachesOn(c, p, before, m, Elapse(later));
    var m1 := Next(c, p, m, Elapse(later));
    var step := Claim(1, Ids(0, n), {});
    ClaimSecond(c, p, m1, n, later);
    ReachesOn(c, p, before + [Elapse(later)], m1, step);
    steps, t := before + [Elapse(later)] + [step], Next(c, p, m1, step);
  }

  lemma {:induction false} SharedOverlaps(t: Timed, n: nat, now: int)
    requires n >= 1 && Shared(t, n, now)
    ensures 0 in X.InFlight(At(t.s, 0)) && 0 in X.InFlight(At(t.s, 1))
  {
    assert 0 in Ids(0, n);
  }

  lemma {:induction false} SecondMayStart(c: Config, p: Pace, t: Timed, n: nat, now: int)
    requires c.registry == map[] && p.workers >= 1 && n >= 1 && Shared(t, n, now)
    ensures Allowed(c, p, t, StartSend(1, 0, n))
    ensures var t' := Next(c, p, t, StartSend(1, 0, n));
            t'.s.sends == t.s.sends[n := 0] && n !in t'.s.landed && t'.s.log == t.s.log
  {
    LowestIsHead(t.s, At(t.s, 1), n, 0);
    AllValid(c, t.s, n, 0);
    hide Head;
    hide Valid;
    hide Events;
  }

  lemma {:induction false} SecondLands(c: Config, p: Pace, t: Timed, no: SendNo, id: Id)
    requires no in t.s.sends && t.s.sends[no] == id && no !in t.s.landed
    ensures Allowed(c, p, t, Append(no)) && Next(c, p, t, Append(no)).s.log == t.s.log + [id]
  {
  }

  /** What the first replica holds as sent is in the log. */
  lemma {:induction false} FirstIsLogged(c: Config, p: Pace, steps: seq<Step>, t: Timed, n: nat, now: int)
    requires Reaches(c, p, steps, t) && n >= 1 && Shared(t, n, now)
    ensures 0 in t.s.log
  {
    AllowedIsLegal(c, p, START, steps);
    RunKeepsInv(c, INITIAL, steps);
    assert ReplicaMatches(c, t.s, At(t.s, 0)) && 0 in Ids(0, n);
  }

  /** The second replica sends the first row again. */
  lemma {:induction false} LoggedAgain(c: Config, p: Pace, n: nat) returns (steps: seq<Step>, t: Timed)
    requires c.registry == map[] && c.batchSize == n && p.workers >= 1 && p.timeout >= 1 && n >= 1
    requires After(p, n) + p.ack > c.staleMs
    ensures Reaches(c, p, steps, t) && !O.NoRepeats(t.s.log)
  {
    var now := After(p, n) + p.ack;
    hide *;
    var before, m := Reclaimed(c, p, n);
    FirstIsLogged(c, p, before, m, n, now);
    var step := StartSend(1, 0, n);
    QuietSteps(1, 0, n, {}, 0);
    SecondMayStart(c, p, m, n, now);
    ReachesOn(c, p, before, m, step);
    var m1 := Next(c, p, m, step);
    SecondLands(c, p, m1, n, 0);
    ReachesOn(c, p, before + [step], m1, Append(n));
    steps, t := before + [step] + [Append(n)], Next(c, p, m1, Append(n));
    Repeats(m.s.log, 0);
  }

  lemma {:induction false} Repeats(log: seq<Id>, id: Id)
    requires id in log
    ensures !O.NoRepeats(log + [id])
  {
    var m :| 0 <= m < |log| && log[m] == id;
    assert (log + [id])[m] == (log + [id])[|log|];
  }

  // ---------------------------------------------------------------- what the setting decides

  lemma {:induction false} NeededScales(n: nat, p: Pace, unit: nat)
    ensures Needed(n, Scaled(p, unit)) == Needed(n, p) * unit
  {
    assert n * (p.timeout * unit) == n * p.timeout * unit;
    assert (p.claim + n * p.timeout + p.ack) * unit == p.claim * unit + n * p.timeout * unit + p.ack * unit;
  }

  lemma {:induction false} AfterIsShort(n: nat, q: Pace)
    ensures After(q, n) + q.ack == Needed(n, q) - n
  {
    assert n * (q.timeout - 1) == n * q.timeout - n;
  }

  lemma {:induction false} MoreIsMore(a: nat, b: nat, unit: nat)
    requires a > b
    ensures a * unit >= b * unit + unit
  {
    var more := a - b - 1;
    assert a * unit == (b + 1 + more) * unit == b * unit + unit + more * unit;
  }

  /** With the clock fine enough, answers just before the timeout are late enough. */
  lemma {:induction false} LateEnough(n: nat, p: Pace, windowMs: nat)
    requires Needed(n, p) > windowMs && p.timeout >= 1
    ensures var q := Scaled(p, n + 1); q.timeout >= 1 && After(q, n) + q.ack > windowMs * (n + 1)
  {
    NeededScales(n, p, n + 1);
    AfterIsShort(n, Scaled(p, n + 1));
    MoreIsMore(Needed(n, p), windowMs, n + 1);
    MoreIsMore(p.timeout, 0, n + 1);
    hide After;
    hide Needed;
  }

  /** A configuration on a clock of that unit, and the setting too narrow for it. */
  lemma {:induction false} NarrowConfig(g: Setting) returns (c: Config, unit: nat)
    requires g.batch >= 1 && g.pace.workers >= 1 && g.pace.timeout >= 1 && Needed(g.batch, g.pace) > g.windowMs
    ensures unit >= 1 && Runs(c, g, unit) && c.registry == map[] && c.batchSize == g.batch
    ensures var p := Scaled(g.pace, unit);
            p.workers >= 1 && p.timeout >= 1 && After(p, g.batch) + p.ack > c.staleMs
  {
    unit := g.batch + 1;
    LateEnough(g.batch, g.pace, g.windowMs);
    c := Config(map[], g.batch, g.windowMs * unit, 0, 0);
  }

  lemma {:induction false} NarrowWindowShares(g: Setting)
    requires g.batch >= 1 && g.pace.workers >= 1 && g.pace.timeout >= 1 && Needed(g.batch, g.pace) > g.windowMs
    ensures !NeverShared(g)
  {
    var c, unit := NarrowConfig(g);
    var p := Scaled(g.pace, unit);
    hide Scaled;
    hide Runs;
    hide Shared;
    var steps, t := Reclaimed(c, p, g.batch);
    SharedOverlaps(t, g.batch, After(p, g.batch) + p.ack);
    assert !(X.InFlight(At(t.s, 0)) !! X.InFlight(At(t.s, 1)));
    hide X.InFlight;
    hide At;
    assert Finally(c, Scaled(g.pace, unit), START, steps).s == t.s;
  }

  lemma {:induction false} NarrowWindowRepeats(g: Setting)
    requires g.batch >= 1 && g.pace.workers >= 1 && g.pace.timeout >= 1 && Needed(g.batch, g.pace) > g.windowMs
    ensures !NeverTwice(g)
  {
    var c, unit := NarrowConfig(g);
    var p := Scaled(g.pace, unit);
    hide Scaled;
    hide Runs;
    hide O.NoRepeats;
    hide O.Smooth;
    var steps, t := LoggedAgain(c, p, g.batch);
    assert Finally(c, Scaled(g.pace, unit), START, steps).s == t.s;
  }

  lemma {:induction false} WideInUnits(c: Config, g: Setting, unit: nat)
    requires Runs(c, g, unit) && Needed(g.batch, g.pace) <= g.windowMs
    ensures Needed(c.batchSize, Scaled(g.pace, unit)) <= c.staleMs
  {
    NeededScales(g.batch, g.pace, unit);
    assert Needed(g.batch, g.pace) * unit <= g.windowMs * unit;
  }

  /**
    The setting that matters: with sends cut off by the publish timeout, replicas that publish through the pool never
    hold a row together if and only if the stale window holds the claim, a whole batch of timeouts and the acks,
    whatever the number of workers. The start-up check compares the window with one timeout.
   */
  lemma {:induction false} WindowDecidesExclusivity(g: Setting)
    requires g.batch >= 1 && g.pace.workers >= 1 && g.pace.timeout >= 1
    ensures NeverShared(g) <==> Needed(g.batch, g.pace) <= g.windowMs
  {
    if Needed(g.batch, g.pace) > g.windowMs {
      NarrowWindowShares(g);
    } else {
      forall c, unit: nat, steps, q: Rid, r: Rid |
        unit >= 1 && Runs(c, g, unit) && AllAllowed(c, Scaled(g.pace, unit), START, steps) && q != r
        ensures X.InFlight(At(Finally(c, Scaled(g.pace, unit), START, steps).s, q)) !!
                X.InFlight(At(Finally(c, Scaled(g.pace, unit), START, steps).s, r))
      {
        WideInUnits(c, g, unit);
        WideWindowIsExclusive(c, Scaled(g.pace, unit), steps, q, r);
      }
    }
  }

  /**
    And what the start-up check is there for: without a crash or a transient failure no event is published twice if
    and only if the window is that wide.
   */
  lemma {:induction false} WindowDecidesDoublePublish(g: Setting)
    requires g.batch >= 1 && g.pace.workers >= 1 && g.pace.timeout >= 1
    ensures NeverTwice(g) <==> Needed(g.batch, g.pace) <= g.windowMs
  {
    if Needed(g.batch, g.pace) > g.windowMs {
      NarrowWindowRepeats(g);
    } else {
      forall c, unit: nat, steps |
        unit >= 1 && Runs(c, g, unit) && AllAllowed(c, Scaled(g.pace, unit), START, steps) &&
        (forall step :: step in steps ==> O.Smooth(step))
        ensures O.NoRepeats(Finally(c, Scaled(g.pace, unit), START, steps).s.log)
      {
        WideInUnits(c, g, unit);
        WideWindowLogsOnce(c, Scaled(g.pace, unit), steps);
      }
    }
  }
}
