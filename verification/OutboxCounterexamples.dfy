/**
  Runs of the outbox no check excludes: a row published twice, and an aggregate out of order, with two replicas or
  within one millisecond.
 */
module OutboxCounterexamples {
  import opened Common
  import opened Outbox
  import opened OutboxSystem
  import OutboxOrder

  const AGGREGATE: Aggregate := "trip-1"

  function NthEvent(e: Envelope, n: nat): Event {
    Event(AGGREGATE, n, n, e)
  }

  function PendingRow(e: Envelope, n: nat, claimedAt: Option<int>): Row {
    Row(NthEvent(e, n), None, claimedAt, None)
  }

  predicate Leads(c: Config, s: State, steps: seq<Step>, s': State) {
    Legal(c, s, steps) && Run(c, s, steps) == s'
  }

  lemma {:induction false} LeadsOn(c: Config, s: State, steps: seq<Step>, m: State, step: Step, s': State)
    requires Leads(c, s, steps, m) && Enabled(c, m, step) && Apply(c, m, step) == s'
    ensures Leads(c, s, steps + [step], s')
    decreases |steps|
  {
    hide Enabled;
    hide Apply;
    if steps == [] {
      assert [] + [step] == [step] && [step][1..] == [];
      assert Leads(c, s', [step][1..], s');
    } else {
      assert (steps + [step])[1..] == steps[1..] + [step];
      LeadsOn(c, Apply(c, s, steps[0]), steps[1..], m, step, s');
    }
  }

  lemma {:induction false} LedTo(c: Config, s: State, steps: seq<Step>, s': State)
    requires Leads(c, s, steps, s')
    ensures Legal(c, s, steps) && Run(c, s, steps) == s'
  {
  }

  // ---------------------------------------------------------------- out of order

  function Holding(ids: set<Id>): Replica {
    Busy(0, ids, map[], {}, {}, {})
  }

  /** One row, and who has claimed it. */
  function One(i: Id, a: Event, claim: Option<int>, replicas: map<Rid, Replica>): State {
    State(0, map[i := Row(a, None, claim, None)], map[i := a], replicas, map[], {}, [])
  }

  /** Two rows, and who has claimed them. */
  function Two(
    i: Id, a: Event, claimA: Option<int>, j: Id, b: Event, claimB: Option<int>, replicas: map<Rid, Replica>): State {
    State(0, map[i := Row(a, None, claimA, None), j := Row(b, None, claimB, None)], map[i := a, j := b],
          replicas, map[], {}, [])
  }

  /** The first row is inserted and claimed before the second is there. */
  lemma {:induction false} ClaimFirst(c: Config, i: Id, a: Event)
    requires c.batchSize >= 1
    ensures Enabled(c, INITIAL, Enqueue(i, a)) && Apply(c, INITIAL, Enqueue(i, a)) == One(i, a, None, map[])
    ensures var s := One(i, a, None, map[]);
            && Enabled(c, s, Claim(0, {i}, {}))
            && Apply(c, s, Claim(0, {i}, {})) == One(i, a, Some(0), map[0 := Holding({i})])
  {
    var s := One(i, a, None, map[]);
    assert ClaimPool(s.table, 0, c.staleMs, {}) == {i};
    assert MarkClaimed(s.table, {i}, 0) == One(i, a, Some(0), map[]).table;
  }

  lemma {:induction false} InsertSecond(c: Config, i: Id, a: Event, j: Id, b: Event, replicas: map<Rid, Replica>)
    requires i != j && a.seqNo != b.seqNo
    ensures var s := One(i, a, Some(0), replicas);
            Enabled(c, s, Enqueue(j, b)) && Apply(c, s, Enqueue(j, b)) == Two(i, a, Some(0), j, b, None, replicas)
  {
  }

  /** The younger row alone is free, and replica `r` takes it. */
  lemma {:induction false} ClaimSecond(c: Config, r: Rid, i: Id, a: Event, j: Id, b: Event, replicas: map<Rid, Replica>)
    requires i != j && c.batchSize >= 1 && c.staleMs >= 0 && (r in replicas ==> replicas[r] == Idle)
    ensures var s := Two(i, a, Some(0), j, b, None, replicas);
            && Enabled(c, s, Claim(r, {j}, {}))
            && Apply(c, s, Claim(r, {j}, {})) == Two(i, a, Some(0), j, b, Some(0), replicas[r := Holding({j})])
  {
    var s := Two(i, a, Some(0), j, b, None, replicas);
    assert ClaimPool(s.table, 0, c.staleMs, {}) == {j};
    assert MarkClaimed(s.table, {j}, 0) == Two(i, a, Some(0), j, b, Some(0), map[]).table;
  }

  lemma {:induction false} SendSecond(
    c: Config, r: Rid, i: Id, a: Event, j: Id, b: Event, replicas: map<Rid, Replica>) returns (s1: State, s2: State)
    requires i != j && r in replicas && replicas[r] == Holding({j}) && Validates(c.registry, b.envelope)
    ensures var s := Two(i, a, Some(0), j, b, Some(0), replicas);
            Enabled(c, s, StartSend(r, j, 0)) && Apply(c, s, StartSend(r, j, 0)) == s1
    ensures Enabled(c, s1, Append(0)) && Apply(c, s1, Append(0)) == s2
    ensures s2.log == [j] && s2.catalog == map[i := a, j := b]
  {
    s1 := Apply(c, Two(i, a, Some(0), j, b, Some(0), replicas), StartSend(r, j, 0));
    s2 := Apply(c, s1, Append(0));
  }

  /** The first is a valid predecessor of the second, whatever the batch size. */
  predicate KeyedBefore(c: Config, a: Event, b: Event) {
    && a.aggregate == b.aggregate && a.seqNo != b.seqNo && Before(a, b) && SortsBefore(a, b)
    && Validates(c.registry, a.envelope) && Validates(c.registry, b.envelope)
  }

  /**
    Two replicas can hold different rows of one aggregate, since a claim is per row: for every batch size and any two
    events the younger can reach the log while the older, valid and claimed by the other replica, is not there.
   */
  lemma {:induction false} TwoReplicasBreakOrder(c: Config, i: Id, a: Event, j: Id, b: Event) returns (steps: seq<Step>)
    requires c.batchSize >= 1 && c.staleMs >= 0 && i != j && KeyedBefore(c, a, b)
    ensures steps == [Enqueue(i, a)] + [Claim(0, {i}, {})] + [Enqueue(j, b)] + [Claim(1, {j}, {})] +
                     [StartSend(1, j, 0)] + [Append(0)]
    ensures Legal(c, INITIAL, steps)
    ensures var s := Run(c, INITIAL, steps); s.log == [j] && OutboxOrder.Precedes(c, s, i, j)
  {
    var held, both := map[0 := Holding({i})], map[0 := Holding({i}), 1 := Holding({j})];
    ClaimFirst(c, i, a);
    InsertSecond(c, i, a, j, b, held);
    ClaimSecond(c, 1, i, a, j, b, held);
    assert held[1 := Holding({j})] == both;
    var s5, s6 := SendSecond(c, 1, i, a, j, b, both);
    NoSteps(c);
    assert OutboxOrder.Precedes(c, s6, i, j);
    hide *;
    LeadsOn(c, INITIAL, [], INITIAL, Enqueue(i, a), One(i, a, None, map[]));
    steps := [Enqueue(i, a)];
    assert [] + [Enqueue(i, a)] == steps;
    LeadsOn(c, INITIAL, steps, One(i, a, None, map[]), Claim(0, {i}, {}), One(i, a, Some(0), held));
    steps := steps + [Claim(0, {i}, {})];
    LeadsOn(c, INITIAL, steps, One(i, a, Some(0), held), Enqueue(j, b), Two(i, a, Some(0), j, b, None, held));
    steps := steps + [Enqueue(j, b)];
    LeadsOn(c, INITIAL, steps, Two(i, a, Some(0), j, b, None, held), Claim(1, {j}, {}),
            Two(i, a, Some(0), j, b, Some(0), both));
    steps := steps + [Claim(1, {j}, {})];
    LeadsOn(c, INITIAL, steps, Two(i, a, Some(0), j, b, Some(0), both), StartSend(1, j, 0), s5);
    LeadsOn(c, INITIAL, steps + [StartSend(1, j, 0)], s5, Append(0), s6);
    steps := steps + [StartSend(1, j, 0)] + [Append(0)];
    LedTo(c, INITIAL, steps, s6);
  }

  lemma {:induction false} NoSteps(c: Config)
    ensures Leads(c, INITIAL, [], INITIAL)
  {
  }

  lemma {:induction false} CrashHolding(c: Config, i: Id, a: Event)
    ensures var s := One(i, a, Some(0), map[0 := Holding({i})]);
            Enabled(c, s, Crash(0)) && Apply(c, s, Crash(0)) == One(i, a, Some(0), map[0 := Idle])
  {
  }

  /**
    One relay is not enough either: the row it held when it crashed stays claimed while a younger one is free, for every
    batch size and any two events.
   */
  lemma {:induction false} CrashBreaksOrder(c: Config, i: Id, a: Event, j: Id, b: Event) returns (steps: seq<Step>)
    requires c.batchSize >= 1 && c.staleMs >= 0 && i != j && KeyedBefore(c, a, b)
    ensures steps == [Enqueue(i, a)] + [Claim(0, {i}, {})] + [Crash(0)] + [Enqueue(j, b)] + [Claim(0, {j}, {})] +
                     [StartSend(0, j, 0)] + [Append(0)]
    ensures Legal(c, INITIAL, steps)
    ensures var s := Run(c, INITIAL, steps); s.log == [j] && OutboxOrder.Precedes(c, s, i, j)
  {
    var held, idle, again := map[0 := Holding({i})], map[0 := Idle], map[0 := Holding({j})];
    ClaimFirst(c, i, a);
    CrashHolding(c, i, a);
    InsertSecond(c, i, a, j, b, idle);
    ClaimSecond(c, 0, i, a, j, b, idle);
    assert idle[0 := Holding({j})] == again;
    var s6, s7 := SendSecond(c, 0, i, a, j, b, again);
    NoSteps(c);
    assert OutboxOrder.Precedes(c, s7, i, j);
    hide *;
    LeadsOn(c, INITIAL, [], INITIAL, Enqueue(i, a), One(i, a, None, map[]));
    steps := [Enqueue(i, a)];
    assert [] + [Enqueue(i, a)] == steps;
    LeadsOn(c, INITIAL, steps, One(i, a, None, map[]), Claim(0, {i}, {}), One(i, a, Some(0), held));
    steps := steps + [Claim(0, {i}, {})];
    LeadsOn(c, INITIAL, steps, One(i, a, Some(0), held), Crash(0), One(i, a, Some(0), idle));
    steps := steps + [Crash(0)];
    LeadsOn(c, INITIAL, steps, One(i, a, Some(0), idle), Enqueue(j, b), Two(i, a, Some(0), j, b, None, idle));
    steps := steps + [Enqueue(j, b)];
    LeadsOn(c, INITIAL, steps, Two(i, a, Some(0), j, b, None, idle), Claim(0, {j}, {}),
            Two(i, a, Some(0), j, b, Some(0), again));
    steps := steps + [Claim(0, {j}, {})];
    LeadsOn(c, INITIAL, steps, Two(i, a, Some(0), j, b, Some(0), again), StartSend(0, j, 0), s6);
    LeadsOn(c, INITIAL, steps + [StartSend(0, j, 0)], s6, Append(0), s7);
    steps := steps + [StartSend(0, j, 0)] + [Append(0)];
    LedTo(c, INITIAL, steps, s7);
  }

  // ---------------------------------------------------------------- out of order, one relay

  lemma {:induction false} EnqueuePair(c: Config, i: Id, a: Event, j: Id, b: Event)
    requires i != j && a.seqNo != b.seqNo
    ensures Leads(c, INITIAL, [Enqueue(i, a)] + [Enqueue(j, b)], Two(i, a, None, j, b, None, map[]))
  {
    var s1 := Apply(c, INITIAL, Enqueue(i, a));
    LeadsOn(c, INITIAL, [], INITIAL, Enqueue(i, a), s1);
    assert [] + [Enqueue(i, a)] == [Enqueue(i, a)];
    LeadsOn(c, INITIAL, [Enqueue(i, a)], s1, Enqueue(j, b), Two(i, a, None, j, b, None, map[]));
  }

  lemma {:induction false} ClaimPair(c: Config, i: Id, a: Event, j: Id, b: Event)
    requires i != j && c.batchSize >= 2
    ensures var s := Two(i, a, None, j, b, None, map[]);
            && Enabled(c, s, Claim(0, {i, j}, {}))
            && Apply(c, s, Claim(0, {i, j}, {})) == Two(i, a, Some(0), j, b, Some(0), map[0 := Holding({i, j})])
  {
    var s := Two(i, a, None, j, b, None, map[]);
    assert ClaimPool(s.table, 0, c.staleMs, {}) == {i, j};
    assert MarkClaimed(s.table, {i, j}, 0) == Two(i, a, Some(0), j, b, Some(0), map[]).table;
  }

  lemma {:induction false} SendLater(c: Config, i: Id, a: Event, j: Id, b: Event) returns (s1: State, s2: State)
    requires i != j && a.aggregate == b.aggregate && SortsBefore(b, a) && Validates(c.registry, b.envelope)
    ensures var s := Two(i, a, Some(0), j, b, Some(0), map[0 := Holding({i, j})]);
            Enabled(c, s, StartSend(0, j, 0)) && Apply(c, s, StartSend(0, j, 0)) == s1
    ensures Enabled(c, s1, Append(0)) && Apply(c, s1, Append(0)) == s2
    ensures s2.log == [j] && s2.catalog == map[i := a, j := b]
  {
    s1 := Apply(c, Two(i, a, Some(0), j, b, Some(0), map[0 := Holding({i, j})]), StartSend(0, j, 0));
    s2 := Apply(c, s1, Append(0));
  }

  /** All steps are of a lone relay, and `i` is inserted before `j`. */
  ghost predicate InsertsFirst(c: Config, s: State, steps: seq<Step>, i: Id, j: Id)
    requires Legal(c, s, steps)
    decreases |steps|
  {
    steps == [] ||
    (OutboxOrder.Lone(steps[0]) && (steps[0].Enqueue? && steps[0].id == i ==> j !in s.catalog) &&
     InsertsFirst(c, Apply(c, s, steps[0]), steps[1..], i, j))
  }

  lemma {:induction false} InsertsFirstOn(c: Config, s: State, steps: seq<Step>, m: State, step: Step, i: Id, j: Id)
    requires Leads(c, s, steps, m) && Enabled(c, m, step) && InsertsFirst(c, s, steps, i, j)
    requires OutboxOrder.Lone(step) && (step.Enqueue? && step.id == i ==> j !in m.catalog)
    ensures Leads(c, s, steps + [step], Apply(c, m, step)) && InsertsFirst(c, s, steps + [step], i, j)
    decreases |steps|
  {
    LeadsOn(c, s, steps, m, step, Apply(c, m, step));
    hide Enabled;
    hide Apply;
    if steps == [] {
      assert [] + [step] == [step] && [step][1..] == [];
      assert InsertsFirst(c, Apply(c, m, step), [step][1..], i, j);
    } else {
      assert (steps + [step])[1..] == steps[1..] + [step];
      InsertsFirstOn(c, Apply(c, s, steps[0]), steps[1..], m, step, i, j);
    }
  }

  lemma {:induction false} InsertsFirstIsLoneRun(c: Config, s: State, steps: seq<Step>, i: Id, j: Id)
    requires Legal(c, s, steps) && InsertsFirst(c, s, steps, i, j)
    ensures OutboxOrder.LoneRun(c, s, steps, i, j)
    decreases |steps|
  {
    if steps != [] {
      InsertsFirstIsLoneRun(c, Apply(c, s, steps[0]), steps[1..], i, j);
    }
  }

  /** A run of a lone relay that inserts `a` and then `b`, and logs `b` with no `a` in front of it. */
  ghost predicate LogsOutOfOrder(c: Config, steps: seq<Step>, i: Id, a: Event, j: Id, b: Event) {
    && Legal(c, INITIAL, steps) && InsertsFirst(c, INITIAL, steps, i, j)
    && var s := Run(c, INITIAL, steps);
       && i in s.catalog && s.catalog[i] == a && j in s.catalog && s.catalog[j] == b
       && OutboxOrder.Overtakes(s.log, i, j)
  }

  /** Five steps, nothing failing: the row the sort puts first is published first. */
  lemma {:induction false} OneMillisecondBreaksOrder(
    c: Config, i: Id, a: Event, j: Id, b: Event) returns (steps: seq<Step>)
    requires i != j && a.aggregate == b.aggregate && SortsBefore(b, a) && Validates(c.registry, b.envelope)
    requires a.seqNo != b.seqNo && c.batchSize >= 2
    ensures LogsOutOfOrder(c, steps, i, a, j, b)
  {
    var s2, s3 := Two(i, a, None, j, b, None, map[]), Two(i, a, Some(0), j, b, Some(0), map[0 := Holding({i, j})]);
    EnqueuePair(c, i, a, j, b);
    ClaimPair(c, i, a, j, b);
    var s4, s5 := SendLater(c, i, a, j, b);
    steps := [Enqueue(i, a)] + [Enqueue(j, b)];
    EnqueuesFirst(c, i, a, j, b);
    InsertsFirstOn(c, INITIAL, steps, s2, Claim(0, {i, j}, {}), i, j);
    steps := steps + [Claim(0, {i, j}, {})];
    InsertsFirstOn(c, INITIAL, steps, s3, StartSend(0, j, 0), i, j);
    steps := steps + [StartSend(0, j, 0)];
    InsertsFirstOn(c, INITIAL, steps, s4, Append(0), i, j);
    steps := steps + [Append(0)];
    hide *;
    LedTo(c, INITIAL, steps, s5);
    FirstInLog(s5.log, i, j);
    OutOfOrder(c, steps, i, a, j, b);
  }

  lemma {:induction false} FirstInLog(log: seq<Id>, i: Id, j: Id)
    requires log == [j]
    ensures OutboxOrder.Overtakes(log, i, j)
  {
    assert log[0] == j && i !in log[..0];
  }

  lemma {:induction false} OutOfOrder(c: Config, steps: seq<Step>, i: Id, a: Event, j: Id, b: Event)
    requires i != j && Legal(c, INITIAL, steps) && InsertsFirst(c, INITIAL, steps, i, j)
    requires Run(c, INITIAL, steps).catalog == map[i := a, j := b]
    requires OutboxOrder.Overtakes(Run(c, INITIAL, steps).log, i, j)
    ensures LogsOutOfOrder(c, steps, i, a, j, b)
  {
  }

  lemma {:induction false} EnqueuesFirst(c: Config, i: Id, a: Event, j: Id, b: Event)
    requires i != j && a.seqNo != b.seqNo
    ensures Legal(c, INITIAL, [Enqueue(i, a)] + [Enqueue(j, b)])
    ensures InsertsFirst(c, INITIAL, [Enqueue(i, a)] + [Enqueue(j, b)], i, j)
  {
    var s1 := Apply(c, INITIAL, Enqueue(i, a));
    var steps := [Enqueue(i, a)];
    assert steps[1..] == [] && InsertsFirst(c, s1, steps[1..], i, j);
    assert Leads(c, s1, steps[1..], s1);
    assert Leads(c, INITIAL, steps, s1);
    InsertsFirstOn(c, INITIAL, steps, s1, Enqueue(j, b), i, j);
  }

  /**
    Two valid events of one aggregate, `a` the older by `created_at`: a lone relay whose acks succeed can log `b`
    with no `a` in front of it if and only if the sort in milliseconds puts `b` first and a batch holds two rows.
   */
  lemma {:induction false} SortDecidesOrder(c: Config, i: Id, a: Event, j: Id, b: Event)
    requires i != j && a.aggregate == b.aggregate && a.seqNo != b.seqNo && Before(a, b)
    requires Validates(c.registry, a.envelope) && Validates(c.registry, b.envelope)
    ensures (exists steps :: LogsOutOfOrder(c, steps, i, a, j, b)) <==> SortsBefore(b, a) && c.batchSize >= 2
  {
    if SortsBefore(b, a) && c.batchSize >= 2 {
      var steps := OneMillisecondBreaksOrder(c, i, a, j, b);
    }
    if steps :| LogsOutOfOrder(c, steps, i, a, j, b) {
      OutOfOrderIsBySort(c, steps, i, a, j, b);
    }
  }

  lemma {:induction false} OutOfOrderIsBySort(c: Config, steps: seq<Step>, i: Id, a: Event, j: Id, b: Event)
    requires i != j && a.aggregate == b.aggregate && a.seqNo != b.seqNo && Before(a, b)
    requires Validates(c.registry, a.envelope) && LogsOutOfOrder(c, steps, i, a, j, b)
    ensures SortsBefore(b, a) && c.batchSize >= 2
  {
    InsertsFirstIsLoneRun(c, INITIAL, steps, i, j);
    var s := Run(c, INITIAL, steps);
    var n :| 0 <= n < |s.log| && s.log[n] == j && i !in s.log[..n];
    OutboxOrder.DeliveredInOrder(c, steps, i, j, n);
    assert !OutboxOrder.Precedes(c, s, i, j);
  }

  // ---------------------------------------------------------------- published twice

  /** Rows 1 and 2 of one aggregate. */
  function TwoRows(e: Envelope): State {
    State(0, map[1 := PendingRow(e, 1, None), 2 := PendingRow(e, 2, None)],
          map[1 := NthEvent(e, 1), 2 := NthEvent(e, 2)], map[], map[], {}, [])
  }

  lemma {:induction false} EnqueueTwo(c: Config, e: Envelope)
    ensures Leads(c, INITIAL, [Enqueue(1, NthEvent(e, 1)), Enqueue(2, NthEvent(e, 2))], TwoRows(e))
  {
    var s1 := Apply(c, INITIAL, Enqueue(1, NthEvent(e, 1)));
    LeadsOn(c, INITIAL, [], INITIAL, Enqueue(1, NthEvent(e, 1)), s1);
    LeadsOn(c, INITIAL, [] + [Enqueue(1, NthEvent(e, 1))], s1, Enqueue(2, NthEvent(e, 2)),
      TwoRows(e));
    assert [] + [Enqueue(1, NthEvent(e, 1))] + [Enqueue(2, NthEvent(e, 2))] ==
           [Enqueue(1, NthEvent(e, 1)), Enqueue(2, NthEvent(e, 2))];
  }

  /** Three rows of one aggregate, all under claims of the same time. */
  function ThreeRows(e: Envelope, claimedAt: Option<int>): Table {
    map[1 := PendingRow(e, 1, claimedAt), 2 := PendingRow(e, 2, claimedAt), 3 := PendingRow(e, 3, claimedAt)]
  }

  function ThreeEvents(e: Envelope): map<Id, Event> {
    map[1 := NthEvent(e, 1), 2 := NthEvent(e, 2), 3 := NthEvent(e, 3)]
  }

  /** The first replica in its tick at `now`, with `done` of its rows sent and landed, the next one not started. */
  function Sent(e: Envelope, now: int, done: nat): State
    requires done <= 2
  {
    match done
    case 0 => State(now, ThreeRows(e, Some(0)), ThreeEvents(e), map[0 := Holding({1, 2, 3})], map[], {}, [])
    case 1 => State(now, ThreeRows(e, Some(0)), ThreeEvents(e), map[0 := Busy(0, {2, 3}, map[], {1}, {}, {})],
      map[1 := 1], {1}, [1])
    case _ => State(now, ThreeRows(e, Some(0)), ThreeEvents(e), map[0 := Busy(0, {3}, map[], {1, 2}, {}, {})],
                    map[1 := 1, 2 := 2], {1, 2}, [1, 2])
  }

  /** One send: it starts, lands, and is answered `duration` later. */
  function OneSend(r: Rid, id: Id, answeredAt: int): seq<Step> {
    [StartSend(r, id, id), Append(id), Elapse(answeredAt), SendOk(r, id)]
  }

  function Inserts(e: Envelope): seq<Step> {
    [Enqueue(1, NthEvent(e, 1)), Enqueue(2, NthEvent(e, 2)), Enqueue(3, NthEvent(e, 3))]
  }

  lemma {:induction false} EnqueueThree(c: Config, e: Envelope)
    ensures Leads(c, INITIAL, Inserts(e),
                  State(0, ThreeRows(e, None), ThreeEvents(e), map[], map[], {}, []))
  {
    EnqueueTwo(c, e);
    var steps := [Enqueue(1, NthEvent(e, 1)), Enqueue(2, NthEvent(e, 2))];
    var s2 := TwoRows(e);
    LeadsOn(c, INITIAL, steps, s2, Enqueue(3, NthEvent(e, 3)),
      State(0, ThreeRows(e, None), ThreeEvents(e), map[], map[], {}, []));
    assert steps + [Enqueue(3, NthEvent(e, 3))] == Inserts(e);
  }

  lemma {:induction false} ClaimThree(c: Config, e: Envelope)
    requires c.batchSize >= 3
    ensures var s := State(0, ThreeRows(e, None), ThreeEvents(e), map[], map[], {}, []);
            Enabled(c, s, Claim(0, {1, 2, 3}, {})) && Apply(c, s, Claim(0, {1, 2, 3}, {})) == Sent(e, 0, 0)
  {
    var t := ThreeRows(e, None);
    assert ClaimPool(t, 0, c.staleMs, {}) == {1, 2, 3};
    assert MarkClaimed(t, {1, 2, 3}, 0) == ThreeRows(e, Some(0));
  }

  lemma {:induction false} LastOfSend(c: Config, e: Envelope, s: State, now: int, done: nat)
    requires done <= 1 && Validates(c.registry, e)
    requires var id := done + 1;
             var b := At(Sent(e, now, done), 0);
             s == Sent(e, now, done).(replicas := map[0 := b.(todo := b.todo - {id}, sending := map[id := id])],
                                      sends := Sent(e, now, done).sends[id := id],
                                      landed := Sent(e, now, done).landed + {id}, log := Sent(e, now, done).log + [id])
    ensures Enabled(c, s, SendOk(0, done + 1)) && Apply(c, s, SendOk(0, done + 1)) == Sent(e, now, done + 1)
  {
    var id := done + 1;
    assert map[id := id] - {id} == map[];
    assert {1, 2, 3} - {1} == {2, 3} && {2, 3} - {2} == {3} && {} + {1} == {1} && {1} + {2} == {1, 2};
    assert [] + [1] == [1] && [1] + [2] == [1, 2];
    var s' := Apply(c, s, SendOk(0, id));
    assert At(s', 0) == At(Sent(e, now, id), 0);
    assert s'.replicas == map[0 := At(s', 0)];
  }

  /** A send of the first replica that takes its time. */
  lemma {:induction false} SendNext(c: Config, e: Envelope, before: seq<Step>, now: int, done: nat, answeredAt: int)
    requires done <= 1 && now <= answeredAt && Validates(c.registry, e) && Leads(c, INITIAL, before, Sent(e, now, done))
    ensures Leads(c, INITIAL, before + OneSend(0, done + 1, answeredAt), Sent(e, answeredAt, done + 1))
  {
    var id := done + 1;
    var s := Sent(e, now, done);
    var s1 := Apply(c, s, StartSend(0, id, id));
    LeadsOn(c, INITIAL, before, s, StartSend(0, id, id), s1);
    var s2 := Apply(c, s1, Append(id));
    LeadsOn(c, INITIAL, before + [StartSend(0, id, id)], s1, Append(id), s2);
    var s3 := Apply(c, s2, Elapse(answeredAt));
    LeadsOn(c, INITIAL, before + [StartSend(0, id, id)] + [Append(id)], s2, Elapse(answeredAt), s3);
    LastOfSend(c, e, s3, answeredAt, done);
    LeadsOn(c, INITIAL, before + [StartSend(0, id, id)] + [Append(id)] + [Elapse(answeredAt)], s3, SendOk(0, id),
      Sent(e, answeredAt, id));
    assert before + OneSend(0, id, answeredAt) ==
           before + [StartSend(0, id, id)] + [Append(id)] + [Elapse(answeredAt)] + [SendOk(0, id)];
  }

  /** The third send is under way when the claims of all three have become stale. */
  lemma {:induction false} SendThird(c: Config, e: Envelope) returns (s1: State, s2: State)
    requires Validates(c.registry, e)
    ensures Enabled(c, Sent(e, 59998, 2), StartSend(0, 3, 3)) && Apply(c, Sent(e, 59998, 2), StartSend(0, 3, 3)) == s1
    ensures Enabled(c, s1, Elapse(60001)) && Apply(c, s1, Elapse(60001)) == s2
    ensures s2.now == 60001 && s2.table == ThreeRows(e, Some(0)) && s2.catalog == ThreeEvents(e) && At(s2, 1).Idle?
    ensures 9 !in s2.sends && 9 !in s2.landed && s2.log == [1, 2]
  {
    s1 := Apply(c, Sent(e, 59998, 2), StartSend(0, 3, 3));
    s2 := Apply(c, s1, Elapse(60001));
  }

  lemma {:induction false} Reclaim(c: Config, e: Envelope, s2: State) returns (s3: State)
    requires c.batchSize >= 3 && c.staleMs == 60000
    requires s2.now == 60001 && s2.table == ThreeRows(e, Some(0)) && s2.catalog == ThreeEvents(e) && At(s2, 1).Idle?
    requires 9 !in s2.sends && 9 !in s2.landed && s2.log == [1, 2]
    ensures Enabled(c, s2, Claim(1, {1, 2, 3}, {})) && Apply(c, s2, Claim(1, {1, 2, 3}, {})) == s3
    ensures s3.catalog == ThreeEvents(e) && 9 !in s3.sends && 9 !in s3.landed && s3.log == [1, 2]
    ensures At(s3, 1) == Busy(60001, {1, 2, 3}, map[], {}, {}, {})
  {
    assert ClaimPool(s2.table, 60001, c.staleMs, {}) == {1, 2, 3};
    s3 := Apply(c, s2, Claim(1, {1, 2, 3}, {}));
  }

  /**
    Sends each answered, or still under way, before a 30 s publish timeout, a stale window of 60 s, nothing crashed
    and nothing failed: a tick with three rows of one aggregate outlives its claim, and row 1 is in the log twice.
   */
  lemma {:induction false} SlowSendsPublishTwice(c: Config, e: Envelope) returns (steps: seq<Step>)
    requires c.batchSize >= 3 && c.staleMs == 60000 && Validates(c.registry, e)
    ensures Legal(c, INITIAL, steps) && Run(c, INITIAL, steps).log == [1, 2, 1]
    ensures steps == Inserts(e) + [Claim(0, {1, 2, 3}, {})] + OneSend(0, 1, 29999) + OneSend(0, 2, 59998) +
                     [StartSend(0, 3, 3), Elapse(60001), Claim(1, {1, 2, 3}, {}), StartSend(1, 1, 9), Append(9)]
  {
    EnqueueThree(c, e);
    ClaimThree(c, e);
    var s1, s2 := SendThird(c, e);
    var s3 := Reclaim(c, e, s2);
    hide *;
    var s := State(0, ThreeRows(e, None), ThreeEvents(e), map[], map[], {}, []);
    LeadsOn(c, INITIAL, Inserts(e), s, Claim(0, {1, 2, 3}, {}), Sent(e, 0, 0));
    var start := Inserts(e) + [Claim(0, {1, 2, 3}, {})];
    SendNext(c, e, start, 0, 0, 29999);
    SendNext(c, e, start + OneSend(0, 1, 29999), 29999, 1, 59998);
    var sent := start + OneSend(0, 1, 29999) + OneSend(0, 2, 59998);
    LeadsOn(c, INITIAL, sent, Sent(e, 59998, 2), StartSend(0, 3, 3), s1);
    LeadsOn(c, INITIAL, sent + [StartSend(0, 3, 3)], s1, Elapse(60001), s2);
    LeadsOn(c, INITIAL, sent + [StartSend(0, 3, 3)] + [Elapse(60001)], s2, Claim(1, {1, 2, 3}, {}), s3);
    steps := SendAgain(c, e, sent + [StartSend(0, 3, 3)] + [Elapse(60001)] + [Claim(1, {1, 2, 3}, {})], s3);
    FiveMore(sent, StartSend(0, 3, 3), Elapse(60001), Claim(1, {1, 2, 3}, {}), StartSend(1, 1, 9), Append(9));
  }

  lemma {:induction false} FiveMore<T>(s: seq<T>, a: T, b: T, c: T, d: T, e: T)
    ensures s + [a] + [b] + [c] + [d] + [e] == s + [a, b, c, d, e]
  {
  }

  lemma {:induction false} SendAgain(c: Config, e: Envelope, before: seq<Step>, s: State) returns (steps: seq<Step>)
    requires Validates(c.registry, e) && Leads(c, INITIAL, before, s)
    requires s.catalog == ThreeEvents(e) && 9 !in s.sends && 9 !in s.landed && s.log == [1, 2]
    requires At(s, 1) == Busy(60001, {1, 2, 3}, map[], {}, {}, {})
    ensures steps == before + [StartSend(1, 1, 9)] + [Append(9)]
    ensures Legal(c, INITIAL, steps) && Run(c, INITIAL, steps).log == [1, 2, 1]
  {
    var s1 := Apply(c, s, StartSend(1, 1, 9));
    LeadsOn(c, INITIAL, before, s, StartSend(1, 1, 9), s1);
    var s2 := Apply(c, s1, Append(9));
    LeadsOn(c, INITIAL, before + [StartSend(1, 1, 9)], s1, Append(9), s2);
    steps := before + [StartSend(1, 1, 9)] + [Append(9)];
  }
}
