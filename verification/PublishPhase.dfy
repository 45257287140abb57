/**
  The publish phase (`publishGrouped` of packages/database/src/outbox.ts): grouping by aggregate and the worker pool.
 */
module PublishPhase {
  import opened Common
  import opened Outbox
  import opened Poison

  datatype ClaimedRow = ClaimedRow(id: Id, event: Event)

  datatype PoisonedEvent = PoisonedEvent(id: Id, eventType: string)

  predicate SameAggregate(q: ClaimedRow, r: ClaimedRow) {
    q.event.aggregate == r.event.aggregate
  }

  predicate Earlier(q: ClaimedRow, r: ClaimedRow) {
    SortsBefore(q.event, r.event)
  }

  /** What a claim returns: no id and no `seq` twice. */
  predicate Claimed(rows: seq<ClaimedRow>) {
    forall i, j :: 0 <= i < j < |rows| ==> rows[i].id != rows[j].id && rows[i].event.seqNo != rows[j].event.seqNo
  }

  // ---------------------------------------------------------------- what the phase is for

  /** The publish of this row is attempted: nothing before it in its aggregate failed transiently. */
  predicate Reached(rows: seq<ClaimedRow>, publish: ClaimedRow -> Attempt, r: ClaimedRow) {
    forall q :: q in rows && SameAggregate(q, r) && Earlier(q, r) ==> !Transient(publish(q))
  }

  /** The row goes back to the queue: it, or something before it in its aggregate, failed transiently. */
  predicate Stopped(rows: seq<ClaimedRow>, publish: ClaimedRow -> Attempt, r: ClaimedRow) {
    !Reached(rows, publish, r) || Transient(publish(r))
  }

  predicate Succeeds(rows: seq<ClaimedRow>, publish: ClaimedRow -> Attempt, r: ClaimedRow) {
    !Stopped(rows, publish, r) && publish(r).Published?
  }

  predicate Poisons(rows: seq<ClaimedRow>, publish: ClaimedRow -> Attempt, r: ClaimedRow) {
    !Stopped(rows, publish, r) && Permanent(publish(r))
  }

  predicate NoRepeat<T(==)>(s: seq<T>) {
    forall i, j :: 0 <= i < j < |s| ==> s[i] != s[j]
  }

  /** `ids` lists, once each, the rows with the property. */
  ghost predicate Lists(ids: seq<Id>, rows: seq<ClaimedRow>, p: ClaimedRow -> bool) {
    && NoRepeat(ids)
    && (forall r :: r in rows ==> (r.id in ids <==> p(r)))
    && (forall id :: id in ids ==> exists r :: r in rows && r.id == id)
  }

  function PoisonedIds(poisoned: seq<PoisonedEvent>): (ids: seq<Id>)
    ensures |ids| == |poisoned| && forall i :: 0 <= i < |ids| ==> ids[i] == poisoned[i].id
  {
    seq(|poisoned|, i requires 0 <= i < |poisoned| => poisoned[i].id)
  }

  // ---------------------------------------------------------------- the sort

  predicate Sorted(rows: seq<ClaimedRow>) {
    forall i, j :: 0 <= i < j < |rows| ==> Earlier(rows[i], rows[j])
  }

  function Insert(r: ClaimedRow, rows: seq<ClaimedRow>): (s: seq<ClaimedRow>)
    ensures |s| == |rows| + 1
    ensures forall q :: q in s <==> q == r || q in rows
  {
    if rows == [] || Earlier(r, rows[0]) then [r] + rows else [rows[0]] + Insert(r, rows[1..])
  }

  function SortByKey(rows: seq<ClaimedRow>): (s: seq<ClaimedRow>)
    ensures |s| == |rows|
    ensures forall q :: q in s <==> q in rows
  {
    if rows == [] then [] else Insert(rows[0], SortByKey(rows[1..]))
  }

  lemma {:induction false} InsertSorted(r: ClaimedRow, rows: seq<ClaimedRow>)
    requires Sorted(rows) && forall q :: q in rows ==> q.event.seqNo != r.event.seqNo
    ensures Sorted(Insert(r, rows))
  {
    if rows != [] && !Earlier(r, rows[0]) {
      InsertSorted(r, rows[1..]);
      var rest := Insert(r, rows[1..]);
      forall j | 0 <= j < |rest| ensures Earlier(rows[0], rest[j]) {
        assert rest[j] in rest;
      }
    }
  }

  lemma {:induction false} SortSorted(rows: seq<ClaimedRow>)
    requires Claimed(rows)
    ensures Sorted(SortByKey(rows))
    ensures var s := SortByKey(rows);
            forall i, j :: 0 <= i < j < |s| ==>
              s[i].event.createdAt / 1000 < s[j].event.createdAt / 1000 ||
              (s[i].event.createdAt / 1000 == s[j].event.createdAt / 1000 && s[i].event.seqNo < s[j].event.seqNo)
  {
    if rows != [] {
      SortSorted(rows[1..]);
      forall q | q in SortByKey(rows[1..]) ensures q.event.seqNo != rows[0].event.seqNo {
        assert q in rows[1..];
      }
      InsertSorted(rows[0], SortByKey(rows[1..]));
    }
    var s := SortByKey(rows);
    assert forall i, j :: 0 <= i < j < |s| ==> Earlier(s[i], s[j]);
  }

  lemma {:induction false} SameRowById(rows: seq<ClaimedRow>, q: ClaimedRow, r: ClaimedRow)
    requires Claimed(rows) && q in rows && r in rows && q.id == r.id
    ensures q == r
  {
    var i :| 0 <= i < |rows| && rows[i] == q;
    var j :| 0 <= j < |rows| && rows[j] == r;
    assert i == j;
  }

  // ---------------------------------------------------------------- the groups

  /** Every row in one group; a group is one aggregate, oldest first; two groups are two aggregates. */
  ghost predicate Grouping(rows: seq<ClaimedRow>, queue: seq<seq<ClaimedRow>>) {
    && (forall r :: r in rows ==> exists g :: 0 <= g < |queue| && r in queue[g])
    && (forall g, r :: 0 <= g < |queue| && r in queue[g] ==> r in rows)
    && (forall g :: 0 <= g < |queue| ==> Sorted(queue[g]))
    && (forall g, h, q, r :: 0 <= g < |queue| && 0 <= h < |queue| && q in queue[g] && r in queue[h] ==>
          (SameAggregate(q, r) <==> g == h))
  }

  /** The groups stand in the order of their oldest rows. */
  predicate QueueInOrder(queue: seq<seq<ClaimedRow>>) {
    && (forall g :: 0 <= g < |queue| ==> queue[g] != [])
    && (forall g, h :: 0 <= g < h < |queue| ==> Earlier(queue[g][0], queue[h][0]))
  }

  /** The map the grouping loop fills, once it has seen `seen`: one sorted group per aggregate met, in the order met. */
  ghost predicate GroupedSoFar(seen: seq<ClaimedRow>, order: seq<Aggregate>, groups: map<Aggregate, seq<ClaimedRow>>) {
    && NoRepeat(order)
    && (forall a :: a in order <==> a in groups)
    && (forall a :: a in groups ==> groups[a] != [] && Sorted(groups[a]))
    && (forall i, j :: 0 <= i < j < |order| ==> Earlier(groups[order[i]][0], groups[order[j]][0]))
    && (forall a, r :: a in groups && r in groups[a] ==> r.event.aggregate == a && r in seen)
    && (forall r :: r in seen ==> r.event.aggregate in groups && r in groups[r.event.aggregate])
  }

  lemma {:induction false} GroupOneMore(
    seen: seq<ClaimedRow>, order: seq<Aggregate>, groups: map<Aggregate, seq<ClaimedRow>>, r: ClaimedRow,
    order': seq<Aggregate>, groups': map<Aggregate, seq<ClaimedRow>>)
    requires GroupedSoFar(seen, order, groups) && forall q :: q in seen ==> Earlier(q, r)
    requires if r.event.aggregate in groups
             then order' == order && groups' == groups[r.event.aggregate := groups[r.event.aggregate] + [r]]
             else order' == order + [r.event.aggregate] && groups' == groups[r.event.aggregate := [r]]
    ensures GroupedSoFar(seen + [r], order', groups')
  {
    var g := r.event.aggregate;
    hide Earlier;
    forall a | a in groups' ensures groups'[a] != [] && Sorted(groups'[a]) {
      if a == g && a in groups {
        assert forall q :: q in groups[a] ==> Earlier(q, r);
      }
    }
    hide Sorted;
    forall i, j | 0 <= i < j < |order'| ensures Earlier(groups'[order'[i]][0], groups'[order'[j]][0]) {
      assert order'[i] in groups && groups'[order'[i]][0] == groups[order'[i]][0];
      assert groups[order'[i]][0] in groups[order'[i]];
    }
    forall q | q in seen + [r] ensures q.event.aggregate in groups' && q in groups'[q.event.aggregate] {
      assert q == r || q in seen;
    }
  }

  lemma {:induction false} GroupsAreGrouping(
    rows: seq<ClaimedRow>, order: seq<Aggregate>, groups: map<Aggregate, seq<ClaimedRow>>, queue: seq<seq<ClaimedRow>>)
    requires GroupedSoFar(rows, order, groups)
    requires |queue| == |order| && forall i :: 0 <= i < |order| ==> order[i] in groups && queue[i] == groups[order[i]]
    ensures Grouping(rows, queue)
  {
    hide Earlier;
    hide Sorted;
    forall r | r in rows ensures exists g :: 0 <= g < |queue| && r in queue[g] {
      var g :| 0 <= g < |order| && order[g] == r.event.aggregate;
      assert r in queue[g];
    }
    forall g, r | 0 <= g < |queue| && r in queue[g] ensures r in rows && r.event.aggregate == order[g] {
    }
  }

  lemma {:induction false} GroupsInOrder(
    rows: seq<ClaimedRow>, order: seq<Aggregate>, groups: map<Aggregate, seq<ClaimedRow>>, queue: seq<seq<ClaimedRow>>)
    requires GroupedSoFar(rows, order, groups)
    requires |queue| == |order| && forall i :: 0 <= i < |order| ==> order[i] in groups && queue[i] == groups[order[i]]
    ensures QueueInOrder(queue)
  {
    hide Earlier;
    hide Sorted;
  }

  method GroupByAggregate(ordered: seq<ClaimedRow>) returns (queue: seq<seq<ClaimedRow>>)
    requires Sorted(ordered)
    ensures Grouping(ordered, queue) && QueueInOrder(queue)
  {
    hide *;
    var order: seq<Aggregate> := [];
    var groups: map<Aggregate, seq<ClaimedRow>> := map[];
    NothingGrouped();
    assert ordered[..0] == [];
    for k := 0 to |ordered|
      invariant GroupedSoFar(ordered[..k], order, groups)
    {
      var r := ordered[k];
      ghost var order0, groups0 := order, groups;
      if r.event.aggregate in groups {
        groups := groups[r.event.aggregate := groups[r.event.aggregate] + [r]];
      } else {
        groups := groups[r.event.aggregate := [r]];
        order := order + [r.event.aggregate];
      }
      NextRow(ordered, k);
      GroupOneMore(ordered[..k], order0, groups0, r, order, groups);
    }
    assert ordered[..|ordered|] == ordered;
    OrderInGroups(ordered, order, groups);
    queue := seq(|order|, i requires 0 <= i < |order| => groups[order[i]]);
    GroupsAreGrouping(ordered, order, groups, queue);
    GroupsInOrder(ordered, order, groups, queue);
  }

  lemma {:induction false} NothingGrouped()
    ensures GroupedSoFar([], [], map[])
  {
  }

  lemma {:induction false} NextRow(ordered: seq<ClaimedRow>, k: nat)
    requires Sorted(ordered) && k < |ordered|
    ensures ordered[..k + 1] == ordered[..k] + [ordered[k]]
    ensures forall q :: q in ordered[..k] ==> Earlier(q, ordered[k])
  {
  }

  lemma {:induction false} OrderInGroups(
    seen: seq<ClaimedRow>, order: seq<Aggregate>, groups: map<Aggregate, seq<ClaimedRow>>)
    requires GroupedSoFar(seen, order, groups)
    ensures forall i :: 0 <= i < |order| ==> order[i] in groups
  {
  }

  // ---------------------------------------------------------------- the worker pool

  /** A worker without a group, or awaiting the publish of row `i` of group `g`. */
  datatype Worker = Free | Waiting(g: nat, i: nat)

  /** What a publish phase returns, and the calls of publish it made. */
  datatype Results = Results(succeeded: seq<Id>, failed: seq<Id>, poisoned: seq<PoisonedEvent>, calls: seq<ClaimedRow>)

  /** For each group: how many of its rows are settled, how many were called or given up, and which worker has it. */
  datatype Progress = Progress(pos: seq<nat>, called: seq<nat>, holder: seq<int>)

  /** In its own group a row is stopped by itself or by a row in front of it. */
  lemma {:induction false} StoppedInGroup(
    rows: seq<ClaimedRow>, queue: seq<seq<ClaimedRow>>, publish: ClaimedRow -> Attempt, g: nat, i: nat)
    requires Grouping(rows, queue) && g < |queue| && i < |queue[g]|
    ensures Reached(rows, publish, queue[g][i]) <==> forall j :: 0 <= j < i ==> !Transient(publish(queue[g][j]))
  {
    var r := queue[g][i];
    if Reached(rows, publish, r) {
      forall j | 0 <= j < i ensures !Transient(publish(queue[g][j])) {
        assert queue[g][j] in queue[g] && r in queue[g];
      }
    }
    if forall j :: 0 <= j < i ==> !Transient(publish(queue[g][j])) {
      forall q | q in rows && SameAggregate(q, r) && Earlier(q, r) ensures !Transient(publish(q)) {
        var h :| 0 <= h < |queue| && q in queue[h];
        assert r in queue[g];
        var j :| 0 <= j < |queue[h]| && queue[h][j] == q;
        assert j < i;
      }
    }
  }

  /** Two positions of the queue hold two ids. */
  lemma {:induction false} PositionsDiffer(
    rows: seq<ClaimedRow>, queue: seq<seq<ClaimedRow>>, g: nat, i: nat, h: nat, j: nat)
    requires Claimed(rows) && Grouping(rows, queue)
    requires g < |queue| && i < |queue[g]| && h < |queue| && j < |queue[h]| && (g != h || i != j)
    ensures queue[g][i].id != queue[h][j].id
  {
    var q, r := queue[g][i], queue[h][j];
    assert q in queue[g] && r in queue[h];
    if q.id == r.id {
      assert q in rows && r in rows;
      SameRowById(rows, q, r);
      assert SameAggregate(q, r);
    }
  }

  /** The rows in front of the workers are exactly those a list must already account for. */
  ghost predicate Accounts(
    ids: seq<Id>, queue: seq<seq<ClaimedRow>>, pos: seq<nat>, p: ClaimedRow -> bool)
    requires |pos| == |queue|
  {
    && NoRepeat(ids)
    && (forall g, i :: 0 <= g < |queue| && 0 <= i < |queue[g]| ==>
          (queue[g][i].id in ids <==> i < pos[g] && p(queue[g][i])))
    && (forall id :: id in ids ==> exists g, i :: 0 <= g < |queue| && 0 <= i < |queue[g]| && queue[g][i].id == id)
  }

  /** One more row of a group behind the worker: listed if it has the property, left out if it has not. */
  lemma {:induction false} AccountsStep(
    rows: seq<ClaimedRow>, ids: seq<Id>, queue: seq<seq<ClaimedRow>>, pos: seq<nat>, p: ClaimedRow -> bool, g: nat,
      ids': seq<Id>)
    requires Claimed(rows) && Grouping(rows, queue)
    requires |pos| == |queue| && g < |queue| && pos[g] < |queue[g]| && Accounts(ids, queue, pos, p)
    requires ids' == if p(queue[g][pos[g]]) then ids + [queue[g][pos[g]].id] else ids
    ensures Accounts(ids', queue, pos[g := pos[g] + 1], p)
  {
    var r := queue[g][pos[g]];
    forall h, j | 0 <= h < |queue| && 0 <= j < |queue[h]|
      ensures queue[h][j].id in ids' <==> j < pos[g := pos[g] + 1][h] && p(queue[h][j])
    {
      if h != g || j != pos[g] {
        PositionsDiffer(rows, queue, g, pos[g], h, j);
      }
    }
    assert forall id :: id in ids' ==> id in ids || id == r.id;
  }

  lemma {:induction false} AccountsIsLists(
    rows: seq<ClaimedRow>, ids: seq<Id>, queue: seq<seq<ClaimedRow>>, pos: seq<nat>, p: ClaimedRow -> bool)
    requires Grouping(rows, queue) && |pos| == |queue| && Accounts(ids, queue, pos, p)
    requires forall g :: 0 <= g < |queue| ==> pos[g] == |queue[g]|
    ensures Lists(ids, rows, p)
  {
    forall r | r in rows ensures r.id in ids <==> p(r) {
      var g :| 0 <= g < |queue| && r in queue[g];
      var i :| 0 <= i < |queue[g]| && queue[g][i] == r;
    }
    forall id | id in ids ensures exists r :: r in rows && r.id == id {
      var g, i :| 0 <= g < |queue| && 0 <= i < |queue[g]| && queue[g][i].id == id;
      assert queue[g][i] in queue[g];
    }
  }

  function Ids(rows: seq<ClaimedRow>): (ids: seq<Id>)
    ensures |ids| == |rows| && forall i :: 0 <= i < |ids| ==> ids[i] == rows[i].id
  {
    seq(|rows|, i requires 0 <= i < |rows| => rows[i].id)
  }

  /** In one aggregate the calls follow the key order. */
  predicate CallsInOrder(calls: seq<ClaimedRow>) {
    forall i, j :: 0 <= i < j < |calls| && SameAggregate(calls[i], calls[j]) ==> Earlier(calls[i], calls[j])
  }

  /** The oldest row of its aggregate. */
  predicate IsHead(rows: seq<ClaimedRow>, r: ClaimedRow) {
    forall q :: q in rows && SameAggregate(q, r) ==> q == r || Earlier(r, q)
  }

  /** The aggregates are begun in the order of their oldest rows. */
  predicate HeadsInOrder(rows: seq<ClaimedRow>, calls: seq<ClaimedRow>) {
    forall i, j :: 0 <= i < j < |calls| && IsHead(rows, calls[i]) && IsHead(rows, calls[j]) ==>
      Earlier(calls[i], calls[j])
  }

  /** Of the heads exactly groups before `next` have been begun, and in their order. */
  ghost predicate Begun(rows: seq<ClaimedRow>, queue: seq<seq<ClaimedRow>>, next: nat, calls: seq<ClaimedRow>) {
    && HeadsInOrder(rows, calls)
    && (forall r :: r in calls && IsHead(rows, r) ==> exists g ::
       0 <= g < next && g < |queue| && queue[g] != [] && queue[g][0] == r)
  }

  lemma {:induction false} BeginGroup(
    rows: seq<ClaimedRow>, queue: seq<seq<ClaimedRow>>, next: nat, calls: seq<ClaimedRow>)
    requires QueueInOrder(queue) && next < |queue| && Begun(rows, queue, next, calls)
    ensures queue[next] != [] && Begun(rows, queue, next + 1, calls + [queue[next][0]])
  {
    var calls' := calls + [queue[next][0]];
    forall i, j | 0 <= i < j < |calls'| && IsHead(rows, calls'[i]) && IsHead(rows, calls'[j])
      ensures Earlier(calls'[i], calls'[j])
    {
      assert calls'[i] in calls;
    }
  }

  lemma {:induction false} GoOnInGroup(
    rows: seq<ClaimedRow>, queue: seq<seq<ClaimedRow>>, next: nat, calls: seq<ClaimedRow>, g: nat, i: nat)
    requires Grouping(rows, queue) && Begun(rows, queue, next, calls) && g < |queue| && 0 < i < |queue[g]|
    ensures Begun(rows, queue, next, calls + [queue[g][i]])
  {
    var head, r := queue[g][0], queue[g][i];
    assert head in queue[g] && r in queue[g];
    assert head in rows && SameAggregate(head, r) && Earlier(head, r);
    assert !IsHead(rows, r);
  }

  lemma {:induction false} NoneBegun(rows: seq<ClaimedRow>, queue: seq<seq<ClaimedRow>>)
    ensures Begun(rows, queue, 0, [])
  {
  }

  /** A poisoned event carries the event type of its row. */
  ghost predicate TypesMatch(rows: seq<ClaimedRow>, poisoned: seq<PoisonedEvent>) {
    forall p :: p in poisoned ==> exists r :: r in rows && p == PoisonedEvent(r.id, r.event.envelope.eventType)
  }

  /** The calls made are of rows behind the workers. */
  ghost predicate CallsBehind(calls: seq<ClaimedRow>, queue: seq<seq<ClaimedRow>>, pos: seq<nat>)
    requires |pos| == |queue|
  {
    forall r :: r in calls ==> exists g, i :: 0 <= g < |queue| && 0 <= i < pos[g] && i < |queue[g]| && queue[g][i] == r
  }

  lemma {:induction false} CallsStep(
    rows: seq<ClaimedRow>, calls: seq<ClaimedRow>, queue: seq<seq<ClaimedRow>>, pos: seq<nat>, g: nat,
      calls': seq<ClaimedRow>)
    requires Grouping(rows, queue) && |pos| == |queue| && g < |queue| && pos[g] < |queue[g]|
    requires CallsInOrder(calls) && CallsBehind(calls, queue, pos)
    requires calls' == calls || calls' == calls + [queue[g][pos[g]]]
    ensures CallsInOrder(calls') && CallsBehind(calls', queue, pos[g := pos[g] + 1])
  {
    var r := queue[g][pos[g]];
    var pos' := pos[g := pos[g] + 1];
    forall c | c in calls'
      ensures exists h, i :: 0 <= h < |queue| && 0 <= i < pos'[h] && i < |queue[h]| && queue[h][i] == c
    {
      if c in calls {
        var h, i :| 0 <= h < |queue| && 0 <= i < pos[h] && i < |queue[h]| && queue[h][i] == c;
        assert 0 <= i < pos'[h];
      } else {
        assert queue[g][pos[g]] == c && pos[g] < pos'[g];
      }
    }
    forall i | 0 <= i < |calls| && SameAggregate(calls[i], r) ensures Earlier(calls[i], r) {
      assert calls[i] in calls;
      var h, j :| 0 <= h < |queue| && 0 <= j < pos[h] && j < |queue[h]| && queue[h][j] == calls[i];
      assert calls[i] in queue[h] && r in queue[g];
    }
  }

  /** The three lists account for exactly the rows settled. */
  ghost predicate Settled(
    rows: seq<ClaimedRow>, publish: ClaimedRow -> Attempt, queue: seq<seq<ClaimedRow>>, pos: seq<nat>, res: Results)
  {
    && |pos| == |queue|
    && Accounts(res.succeeded, queue, pos, r => Succeeds(rows, publish, r))
    && Accounts(res.failed, queue, pos, r => Stopped(rows, publish, r))
    && Accounts(PoisonedIds(res.poisoned), queue, pos, r => Poisons(rows, publish, r))
    && TypesMatch(rows, res.poisoned)
  }

  /** The calls account for exactly the rows called or given up. */
  ghost predicate Called(
    rows: seq<ClaimedRow>, publish: ClaimedRow -> Attempt, queue: seq<seq<ClaimedRow>>, called: seq<nat>,
    calls: seq<ClaimedRow>)
  {
    && |called| == |queue|
    && Accounts(Ids(calls), queue, called, r => Reached(rows, publish, r))
    && CallsInOrder(calls) && CallsBehind(calls, queue, called)
  }

  lemma {:induction false} TypesStep(
    rows: seq<ClaimedRow>, poisoned: seq<PoisonedEvent>, r: ClaimedRow, poisoned': seq<PoisonedEvent>)
    requires TypesMatch(rows, poisoned) && r in rows
    requires poisoned' == poisoned || poisoned' == poisoned + [PoisonedEvent(r.id, r.event.envelope.eventType)]
    ensures TypesMatch(rows, poisoned')
  {
  }

  /** One more row settled, listed the way its verdict says. */
  lemma {:induction false} SettleRow(
    rows: seq<ClaimedRow>, publish: ClaimedRow -> Attempt, queue: seq<seq<ClaimedRow>>, pos: seq<nat>, g: nat,
    res: Results, res': Results)
    requires Claimed(rows) && Grouping(rows, queue) && Settled(rows, publish, queue, pos, res)
    requires g < |queue| && pos[g] < |queue[g]|
    requires var r := queue[g][pos[g]];
             && res'.succeeded == (if Succeeds(rows, publish, r) then res.succeeded + [r.id] else res.succeeded)
             && res'.failed == (if Stopped(rows, publish, r) then res.failed + [r.id] else res.failed)
             && res'.poisoned == (if Poisons(rows, publish, r)
                                  then res.poisoned + [PoisonedEvent(r.id, r.event.envelope.eventType)]
                                  else res.poisoned)
    ensures Settled(rows, publish, queue, pos[g := pos[g] + 1], res')
  {
    var r := queue[g][pos[g]];
    assert r in queue[g];
    assert r in rows;
    hide Accounts;
    hide TypesMatch;
    hide Grouping;
    hide Claimed;
    hide Succeeds;
    hide Stopped;
    hide Poisons;
    PoisonedMore(res.poisoned, r, res'.poisoned, Poisons(rows, publish, r));
    hide PoisonedIds;
    AccountsStep(rows, res.succeeded, queue, pos, r => Succeeds(rows, publish, r), g, res'.succeeded);
    AccountsStep(rows, res.failed, queue, pos, r => Stopped(rows, publish, r), g, res'.failed);
    AccountsStep(rows, PoisonedIds(res.poisoned), queue, pos, r => Poisons(rows, publish, r), g,
                 PoisonedIds(res'.poisoned));
    TypesStep(rows, res.poisoned, r, res'.poisoned);
  }

  lemma {:induction false} PoisonedMore(
    poisoned: seq<PoisonedEvent>, r: ClaimedRow, poisoned': seq<PoisonedEvent>, more: bool)
    requires poisoned' == if more then poisoned + [PoisonedEvent(r.id, r.event.envelope.eventType)] else poisoned
    ensures PoisonedIds(poisoned') == if more then PoisonedIds(poisoned) + [r.id] else PoisonedIds(poisoned)
  {
  }

  /** One more row called. */
  lemma {:induction false} CallRow(
    rows: seq<ClaimedRow>, publish: ClaimedRow -> Attempt, queue: seq<seq<ClaimedRow>>, called: seq<nat>, g: nat,
    i: nat, r: ClaimedRow, calls: seq<ClaimedRow>)
    requires Claimed(rows) && Grouping(rows, queue) && Called(rows, publish, queue, called, calls)
    requires |called| == |queue| && g < |queue| && called[g] == i < |queue[g]| && queue[g][i] == r
    requires Reached(rows, publish, r)
    ensures Called(rows, publish, queue, called[g := i + 1], calls + [r])
  {
    var calls' := calls + [queue[g][called[g]]];
    assert Ids(calls') == Ids(calls) + [queue[g][called[g]].id];
    AccountsStep(rows, Ids(calls), queue, called, r => Reached(rows, publish, r), g, Ids(calls'));
    CallsStep(rows, calls, queue, called, g, calls');
    hide *;
  }

  /** The rows of a group behind a transient failure count as dealt with, uncalled. */
  lemma {:induction false} RestUncalled(
    rows: seq<ClaimedRow>, publish: ClaimedRow -> Attempt, queue: seq<seq<ClaimedRow>>, called: seq<nat>, g: nat,
    calls: seq<ClaimedRow>)
    requires Called(rows, publish, queue, called, calls) && g < |queue| && called[g] <= |queue[g]|
    requires forall j :: called[g] <= j < |queue[g]| ==> !Reached(rows, publish, queue[g][j])
    ensures Called(rows, publish, queue, called[g := |queue[g]|], calls)
  {
    hide Reached;
    hide CallsInOrder;
    var called' := called[g := |queue[g]|];
    forall c | c in calls
      ensures exists h, i :: 0 <= h < |queue| && 0 <= i < called'[h] && i < |queue[h]| && queue[h][i] == c
    {
      var h, i :| 0 <= h < |queue| && 0 <= i < called[h] && i < |queue[h]| && queue[h][i] == c;
      assert 0 <= i < called'[h];
    }
  }

  /** With every row settled and called the records are final. */
  lemma {:induction false} RecordsFinal(
    rows: seq<ClaimedRow>, publish: ClaimedRow -> Attempt, queue: seq<seq<ClaimedRow>>, m: Progress, res: Results)
    requires Grouping(rows, queue) && Begun(rows, queue, |queue|, res.calls)
    requires Settled(rows, publish, queue, m.pos, res) && Called(rows, publish, queue, m.called, res.calls)
    requires forall g :: 0 <= g < |queue| ==> m.pos[g] == m.called[g] == |queue[g]|
    ensures Outcome(rows, publish, res.succeeded, res.failed, res.poisoned, res.calls)
  {
    AccountsIsLists(rows, res.succeeded, queue, m.pos, r => Succeeds(rows, publish, r));
    AccountsIsLists(rows, res.failed, queue, m.pos, r => Stopped(rows, publish, r));
    AccountsIsLists(rows, PoisonedIds(res.poisoned), queue, m.pos, r => Poisons(rows, publish, r));
    AccountsIsLists(rows, Ids(res.calls), queue, m.called, r => Reached(rows, publish, r));
    forall r | r in res.calls ensures r in rows {
      var g, i :| 0 <= g < |queue| && 0 <= i < m.called[g] && i < |queue[g]| && queue[g][i] == r;
      assert r in queue[g];
    }
    hide Accounts;
    hide Grouping;
  }

  /** What a publish phase over these rows comes to, whoever ran it in whatever order. */
  ghost predicate Outcome(
    rows: seq<ClaimedRow>, publish: ClaimedRow -> Attempt,
    succeeded: seq<Id>, failed: seq<Id>, poisoned: seq<PoisonedEvent>, calls: seq<ClaimedRow>)
  {
    && Lists(succeeded, rows, r => Succeeds(rows, publish, r))
    && Lists(failed, rows, r => Stopped(rows, publish, r))
    && Lists(PoisonedIds(poisoned), rows, r => Poisons(rows, publish, r))
    && Lists(Ids(calls), rows, r => Reached(rows, publish, r))
    && (forall r :: r in calls ==> r in rows)
    && CallsInOrder(calls) && HeadsInOrder(rows, calls) && TypesMatch(rows, poisoned)
  }

  /** Which group is whose, and which row its worker awaits. */
  ghost predicate Dispatched(queue: seq<seq<ClaimedRow>>, next: nat, workers: seq<Worker>, m: Progress) {
    && next <= |queue| && |m.pos| == |m.called| == |m.holder| == |queue|
    && (forall w :: 0 <= w < |workers| && workers[w].Waiting? ==>
          var g, i := workers[w].g, workers[w].i;
          g < next && m.holder[g] == w && m.pos[g] == i < |queue[g]| && m.called[g] == i + 1)
    && (forall g :: 0 <= g < next && m.holder[g] < 0 ==> m.pos[g] == m.called[g] == |queue[g]|)
    && (forall g :: 0 <= g < |queue| && m.holder[g] >= 0 ==>
          g < next && m.holder[g] < |workers| && workers[m.holder[g]] == Waiting(g, m.pos[g]))
    && (forall g :: next <= g < |queue| ==> m.pos[g] == m.called[g] == 0)
  }

  /** A group still being worked on has had no transient failure. */
  ghost predicate CleanSoFar(publish: ClaimedRow -> Attempt, queue: seq<seq<ClaimedRow>>, m: Progress)
    requires |m.pos| == |m.holder| == |queue|
  {
    forall g, i :: 0 <= g < |queue| && m.holder[g] >= 0 && 0 <= i < m.pos[g] && i < |queue[g]| ==>
      !Transient(publish(queue[g][i]))
  }

  /** Rows not yet settled. */
  ghost function InFront(queue: seq<seq<ClaimedRow>>, pos: seq<nat>): set<(int, int)>
    requires |pos| == |queue|
  {
    set g, i | 0 <= g < |queue| && pos[g] <= i < |queue[g]| :: (g, i)
  }

  ghost predicate PoolState(
    publish: ClaimedRow -> Attempt, queue: seq<seq<ClaimedRow>>, next: nat, workers: seq<Worker>, m: Progress)
  {
    Dispatched(queue, next, workers, m) && CleanSoFar(publish, queue, m)
  }

  /** Everything the pool keeps. */
  ghost predicate PoolInv(
    rows: seq<ClaimedRow>, publish: ClaimedRow -> Attempt, queue: seq<seq<ClaimedRow>>, next: nat, workers: seq<Worker>,
    m: Progress, res: Results)
  {
    && Claimed(rows) && Grouping(rows, queue) && QueueInOrder(queue)
    && PoolState(publish, queue, next, workers, m)
    && Settled(rows, publish, queue, m.pos, res) && Called(rows, publish, queue, m.called, res.calls)
    && Begun(rows, queue, next, res.calls)
  }

  lemma {:induction false} TakeGroup(
    publish: ClaimedRow -> Attempt, queue: seq<seq<ClaimedRow>>, next: nat, workers: seq<Worker>, m: Progress, w: nat)
    requires PoolState(publish, queue, next, workers, m)
    requires w < |workers| && workers[w].Free? && next < |queue| && queue[next] != []
    ensures PoolState(publish, queue, next + 1, workers[w := Waiting(next, 0)],
                      m.(called := m.called[next := 1], holder := m.holder[next := w]))
  {
  }

  /** The worker is done with its group. */
  lemma {:induction false} PutDown(
    publish: ClaimedRow -> Attempt, queue: seq<seq<ClaimedRow>>, next: nat, workers: seq<Worker>, m: Progress, w: nat)
    requires PoolState(publish, queue, next, workers, m) && w < |workers| && workers[w].Waiting?
    ensures var g := workers[w].g;
            var n := |queue[g]|;
            && PoolState(publish, queue, next, workers[w := Free],
                         Progress(m.pos[g := n], m.called[g := n], m.holder[g := -1]))
            && InFront(queue, m.pos[g := n]) < InFront(queue, m.pos)
  {
    var g := workers[w].g;
    assert (g, m.pos[g]) in InFront(queue, m.pos) && (g, m.pos[g]) !in InFront(queue, m.pos[g := |queue[g]|]);
  }

  /** The worker goes on to the next row of its group. */
  lemma {:induction false} MoveOn(
    publish: ClaimedRow -> Attempt, queue: seq<seq<ClaimedRow>>, next: nat, workers: seq<Worker>, m: Progress, w: nat)
    requires PoolState(publish, queue, next, workers, m) && w < |workers| && workers[w].Waiting?
    requires workers[w].i + 1 < |queue[workers[w].g]|
    requires !Transient(publish(queue[workers[w].g][workers[w].i]))
    ensures var g, i := workers[w].g, workers[w].i;
            && PoolState(publish, queue, next, workers[w := Waiting(g, i + 1)],
                         m.(pos := m.pos[g := i + 1], called := m.called[g := i + 2]))
            && InFront(queue, m.pos[g := i + 1]) < InFront(queue, m.pos)
  {
    var g, i := workers[w].g, workers[w].i;
    assert (g, i) in InFront(queue, m.pos) && (g, i) !in InFront(queue, m.pos[g := i + 1]);
  }

  /** The row a worker awaits was rightly called, and so is the next one if it does not fail transiently. */
  lemma {:induction false} WaitingIsReached(
    rows: seq<ClaimedRow>, publish: ClaimedRow -> Attempt, queue: seq<seq<ClaimedRow>>, next: nat, workers: seq<Worker>,
    m: Progress, w: nat)
    requires Grouping(rows, queue) && PoolState(publish, queue, next, workers, m)
    requires w < |workers| && workers[w].Waiting?
    ensures var g, i := workers[w].g, workers[w].i;
            && g < |queue| && i < |queue[g]| && |m.pos| == |m.called| == |m.holder| == |queue|
            && m.pos[g] == i && m.called[g] == i + 1
            && Reached(rows, publish, queue[g][i])
            && (i + 1 < |queue[g]| && !Transient(publish(queue[g][i])) ==> Reached(rows, publish, queue[g][i + 1]))
            && (forall j :: i < j < |queue[g]| && Transient(publish(queue[g][i])) ==>
               !Reached(rows, publish, queue[g][j]))
  {
    var g, i := workers[w].g, workers[w].i;
    StoppedInGroup(rows, queue, publish, g, i);
    if i + 1 < |queue[g]| {
      StoppedInGroup(rows, queue, publish, g, i + 1);
    }
    forall j | i < j < |queue[g]| && Transient(publish(queue[g][i])) ensures !Reached(rows, publish, queue[g][j]) {
      StoppedInGroup(rows, queue, publish, g, j);
    }
  }

  /** A free worker takes the group at the front of the queue and calls publish for its oldest row. */
  method CallHead(
    rows: seq<ClaimedRow>, publish: ClaimedRow -> Attempt, queue: seq<seq<ClaimedRow>>, next: nat, workers: seq<Worker>,
    ghost m: Progress, w: nat, res: Results)
    returns (next': nat, workers': seq<Worker>, ghost m': Progress, res': Results)
    requires PoolInv(rows, publish, queue, next, workers, m, res)
    requires w < |workers| && workers[w].Free? && next <= |queue| == |m.pos|
    ensures PoolInv(rows, publish, queue, next', workers', m', res')
    ensures |workers'| == |workers| && workers' == workers[w := workers'[w]]
    ensures next <= next' <= |queue| && (workers'[w].Free? ==> next' == |queue|) && m'.pos == m.pos
    ensures next < |queue| ==> workers'[w].Waiting? && next' == next + 1
  {
    next', workers', m', res' := next, workers, m, res;
    if next < |queue| {
      HeadCalled(rows, publish, queue, next, workers, m, w, res);
      next' := next + 1;
      workers' := workers[w := Waiting(next, 0)];
      m' := m.(called := m.called[next := 1], holder := m.holder[next := w]);
      res' := res.(calls := res.calls + [queue[next][0]]);
    }
    hide PoolInv;
  }

  lemma {:induction false} HeadCalled(
    rows: seq<ClaimedRow>, publish: ClaimedRow -> Attempt, queue: seq<seq<ClaimedRow>>, next: nat, workers: seq<Worker>,
    m: Progress, w: nat, res: Results)
    requires PoolInv(rows, publish, queue, next, workers, m, res)
    requires w < |workers| && workers[w].Free? && next < |queue|
    ensures |m.called| == |m.holder| == |queue| && queue[next] != []
    ensures PoolInv(rows, publish, queue, next + 1, workers[w := Waiting(next, 0)],
                    m.(called := m.called[next := 1], holder := m.holder[next := w]),
                    res.(calls := res.calls + [queue[next][0]]))
  {
    hide *;
    PoolParts(rows, publish, queue, next, workers, m, res);
    BeginGroup(rows, queue, next, res.calls);
    TakeGroup(publish, queue, next, workers, m, w);
    StoppedInGroup(rows, queue, publish, next, 0);
    NotBegun(publish, queue, next, workers, m);
    CallRow(rows, publish, queue, m.called, next, 0, queue[next][0], res.calls);
    var res' := res.(calls := res.calls + [queue[next][0]]);
    SettledIsListsOnly(rows, publish, queue, m.pos, res, res');
    Together(rows, publish, queue, next + 1, workers[w := Waiting(next, 0)],
             m.(called := m.called[next := 1], holder := m.holder[next := w]), res');
  }

  lemma {:induction false} NotBegun(
    publish: ClaimedRow -> Attempt, queue: seq<seq<ClaimedRow>>, next: nat, workers: seq<Worker>, m: Progress)
    requires PoolState(publish, queue, next, workers, m) && next < |queue|
    ensures |m.called| == |queue| && m.called[next] == 0
  {
  }

  lemma {:induction false} SettledIsListsOnly(
    rows: seq<ClaimedRow>, publish: ClaimedRow -> Attempt, queue: seq<seq<ClaimedRow>>, pos: seq<nat>,
    res: Results, res': Results)
    requires Settled(rows, publish, queue, pos, res)
    requires res'.succeeded == res.succeeded && res'.failed == res.failed && res'.poisoned == res.poisoned
    ensures Settled(rows, publish, queue, pos, res')
  {
    hide Accounts;
    hide TypesMatch;
  }

  /** The results with one row more, by what its publish came to. */
  function Pushed(res: Results, r: ClaimedRow, attempt: Attempt): Results {
    match attempt
    case Published => res.(succeeded := res.succeeded + [r.id])
    case Threw(error) =>
      if IsPermanentPublishError(error)
      then res.(poisoned := res.poisoned + [PoisonedEvent(r.id, r.event.envelope.eventType)])
      else res.(failed := res.failed + [r.id])
  }

  /** A row that was rightly called is settled by its own attempt. */
  lemma {:induction false} CalledRowSettles(
    rows: seq<ClaimedRow>, publish: ClaimedRow -> Attempt, queue: seq<seq<ClaimedRow>>, pos: seq<nat>, g: nat, i: nat,
    r: ClaimedRow, res: Results)
    requires Claimed(rows) && Grouping(rows, queue) && Settled(rows, publish, queue, pos, res)
    requires |pos| == |queue| && g < |queue| && pos[g] == i < |queue[g]| && queue[g][i] == r
    requires Reached(rows, publish, r)
    ensures Settled(rows, publish, queue, pos[g := i + 1], Pushed(res, r, publish(r)))
  {
    hide Settled;
    hide Reached;
    SettleRow(rows, publish, queue, pos, g, res, Pushed(res, r, publish(r)));
  }

  /** A transient failure: the rows behind it in the group go to `failed`, uncalled. */
  method FailRest(
    rows: seq<ClaimedRow>, publish: ClaimedRow -> Attempt, queue: seq<seq<ClaimedRow>>, g: nat, i: nat,
    ghost pos: seq<nat>, res: Results)
    returns (res': Results)
    requires Claimed(rows) && Grouping(rows, queue) && g < |queue| == |pos| && i < |queue[g]|
    requires Settled(rows, publish, queue, pos[g := i + 1], res)
    requires forall j :: i < j < |queue[g]| ==> !Reached(rows, publish, queue[g][j])
    ensures Settled(rows, publish, queue, pos[g := |queue[g]|], res') && res'.calls == res.calls
  {
    res' := res;
    var rest := i + 1;
    hide *;
    while rest < |queue[g]|
      invariant i < rest <= |queue[g]| && res'.calls == res.calls
      invariant Settled(rows, publish, queue, pos[g := rest], res')
    {
      RestRow(rows, publish, queue, pos, g, rest, res');
      res' := res'.(failed := res'.failed + [queue[g][rest].id]);
      rest := rest + 1;
    }
  }

  lemma {:induction false} RestRow(
    rows: seq<ClaimedRow>, publish: ClaimedRow -> Attempt, queue: seq<seq<ClaimedRow>>, pos: seq<nat>, g: nat, i: nat,
    res: Results)
    requires Claimed(rows) && Grouping(rows, queue) && g < |queue| == |pos| && i < |queue[g]|
    requires Settled(rows, publish, queue, pos[g := i], res) && !Reached(rows, publish, queue[g][i])
    ensures Settled(rows, publish, queue, pos[g := i + 1], res.(failed := res.failed + [queue[g][i].id]))
  {
    hide Settled;
    hide Reached;
    assert pos[g := i][g := i + 1] == pos[g := i + 1];
    SettleRow(rows, publish, queue, pos[g := i], g, res, res.(failed := res.failed + [queue[g][i].id]));
  }

  /**
    The publish a worker awaits is answered: the row is settled, and the worker calls publish for the next row of the
    group, or is done with the group.
   */
  method Answered(
    rows: seq<ClaimedRow>, publish: ClaimedRow -> Attempt, queue: seq<seq<ClaimedRow>>, ghost next: nat,
    workers: seq<Worker>, ghost m: Progress, w: nat, res: Results)
    returns (workers': seq<Worker>, ghost m': Progress, res': Results)
    requires PoolInv(rows, publish, queue, next, workers, m, res)
    requires w < |workers| && workers[w].Waiting? && |m.pos| == |queue|
    requires workers[w].g < |queue| && workers[w].i < |queue[workers[w].g]|
    ensures PoolInv(rows, publish, queue, next, workers', m', res')
    ensures |workers'| == |workers| && workers' == workers[w := workers'[w]]
    ensures |m'.pos| == |queue| && InFront(queue, m'.pos) < InFront(queue, m.pos)
  {
    var g, i := workers[w].g, workers[w].i;
    var r := queue[g][i];
    var attempt := publish(r);
    hide *;
    PoolParts(rows, publish, queue, next, workers, m, res);
    WaitingIsReached(rows, publish, queue, next, workers, m, w);
    CalledRowSettles(rows, publish, queue, m.pos, g, i, r, res);
    PushedCalls(res, r, attempt);
    res' := Pushed(res, r, attempt);
    if !Transient(attempt) && i + 1 < |queue[g]| {
      res' := res'.(calls := res'.calls + [queue[g][i + 1]]);
      GoesOn(rows, publish, queue, next, workers, m, w, res, res');
      m' := m.(pos := m.pos[g := i + 1], called := m.called[g := i + 2]);
      workers' := workers[w := Waiting(g, i + 1)];
    } else {
      if Transient(attempt) {
        res' := FailRest(rows, publish, queue, g, i, m.pos, res');
      }
      LeavesGroup(rows, publish, queue, next, workers, m, w, res, res');
      m' := Progress(m.pos[g := |queue[g]|], m.called[g := |queue[g]|], m.holder[g := -1]);
      workers' := workers[w := Free];
    }
  }

  lemma {:induction false} GoesOn(
    rows: seq<ClaimedRow>, publish: ClaimedRow -> Attempt, queue: seq<seq<ClaimedRow>>, next: nat, workers: seq<Worker>,
    m: Progress, w: nat, res: Results, res': Results)
    requires PoolInv(rows, publish, queue, next, workers, m, res)
    requires w < |workers| && workers[w].Waiting? && |m.pos| == |m.called| == |queue| && workers[w].g < |queue|
    requires workers[w].i + 1 < |queue[workers[w].g]|
    requires !Transient(publish(queue[workers[w].g][workers[w].i]))
    requires var g, i := workers[w].g, workers[w].i;
             var pushed := Pushed(res, queue[g][i], publish(queue[g][i]));
             res' == pushed.(calls := res.calls + [queue[g][i + 1]])
    ensures var g, i := workers[w].g, workers[w].i;
            && PoolInv(rows, publish, queue, next, workers[w := Waiting(g, i + 1)],
                       m.(pos := m.pos[g := i + 1], called := m.called[g := i + 2]), res')
            && InFront(queue, m.pos[g := i + 1]) < InFront(queue, m.pos)
  {
    var g, i := workers[w].g, workers[w].i;
    var m' := m.(pos := m.pos[g := i + 1], called := m.called[g := i + 2]);
    GoesOnLists(rows, publish, queue, next, workers, m, w, res, res');
    hide *;
    PoolParts(rows, publish, queue, next, workers, m, res);
    MoveOn(publish, queue, next, workers, m, w);
    Together(rows, publish, queue, next, workers[w := Waiting(g, i + 1)], m', res');
  }

  lemma {:induction false} GoesOnLists(
    rows: seq<ClaimedRow>, publish: ClaimedRow -> Attempt, queue: seq<seq<ClaimedRow>>, next: nat, workers: seq<Worker>,
    m: Progress, w: nat, res: Results, res': Results)
    requires PoolInv(rows, publish, queue, next, workers, m, res)
    requires w < |workers| && workers[w].Waiting? && |m.pos| == |m.called| == |queue| && workers[w].g < |queue|
    requires workers[w].i + 1 < |queue[workers[w].g]|
    requires !Transient(publish(queue[workers[w].g][workers[w].i]))
    requires var g, i := workers[w].g, workers[w].i;
             res' == Pushed(res, queue[g][i], publish(queue[g][i])).(calls := res.calls + [queue[g][i + 1]])
    ensures var g, i := workers[w].g, workers[w].i;
            && Settled(rows, publish, queue, m.pos[g := i + 1], res')
            && Called(rows, publish, queue, m.called[g := i + 2], res'.calls)
            && Begun(rows, queue, next, res'.calls)
  {
    var g, i := workers[w].g, workers[w].i;
    var r := queue[g][i];
    var pushed := Pushed(res, r, publish(r));
    hide *;
    PoolParts(rows, publish, queue, next, workers, m, res);
    WaitingIsReached(rows, publish, queue, next, workers, m, w);
    CalledRowSettles(rows, publish, queue, m.pos, g, i, r, res);
    SettledIsListsOnly(rows, publish, queue, m.pos[g := i + 1], pushed, res');
    GoOnInGroup(rows, queue, next, res.calls, g, i + 1);
    CallRow(rows, publish, queue, m.called, g, i + 1, queue[g][i + 1], res.calls);
  }

  lemma {:induction false} LeavesGroup(
    rows: seq<ClaimedRow>, publish: ClaimedRow -> Attempt, queue: seq<seq<ClaimedRow>>, next: nat, workers: seq<Worker>,
    m: Progress, w: nat, res: Results, res': Results)
    requires PoolInv(rows, publish, queue, next, workers, m, res) && w < |workers| && workers[w].Waiting?
    requires |m.pos| == |m.called| == |m.holder| == |queue| && workers[w].g < |queue| && res'.calls == res.calls
    requires var g, i := workers[w].g, workers[w].i;
             && Settled(rows, publish, queue, m.pos[g := |queue[g]|], res')
             && i < |queue[g]| && (Transient(publish(queue[g][i])) || i + 1 == |queue[g]|)
    ensures var g := workers[w].g;
            var n := |queue[g]|;
            && PoolInv(rows, publish, queue, next, workers[w := Free],
                       Progress(m.pos[g := n], m.called[g := n], m.holder[g := -1]), res')
            && InFront(queue, m.pos[g := n]) < InFront(queue, m.pos)
  {
    var g := workers[w].g;
    var n := |queue[g]|;
    hide *;
    PoolParts(rows, publish, queue, next, workers, m, res);
    WaitingIsReached(rows, publish, queue, next, workers, m, w);
    PutDown(publish, queue, next, workers, m, w);
    RestUncalled(rows, publish, queue, m.called, g, res.calls);
    Together(rows, publish, queue, next, workers[w := Free],
             Progress(m.pos[g := n], m.called[g := n], m.holder[g := -1]), res');
  }

  lemma {:induction false} PoolParts(
    rows: seq<ClaimedRow>, publish: ClaimedRow -> Attempt, queue: seq<seq<ClaimedRow>>, next: nat, workers: seq<Worker>,
    m: Progress, res: Results)
    requires PoolInv(rows, publish, queue, next, workers, m, res)
    ensures Claimed(rows) && Grouping(rows, queue) && QueueInOrder(queue)
    ensures PoolState(publish, queue, next, workers, m) && Settled(rows, publish, queue, m.pos, res)
    ensures Called(rows, publish, queue, m.called, res.calls)
    ensures Begun(rows, queue, next, res.calls) && |m.pos| == |m.called| == |m.holder| == |queue|
  {
    hide Claimed;
    hide Grouping;
    hide QueueInOrder;
    hide Settled;
    hide Called;
    hide Begun;
    hide CleanSoFar;
  }

  lemma {:induction false} PushedCalls(res: Results, r: ClaimedRow, attempt: Attempt)
    ensures Pushed(res, r, attempt).calls == res.calls
  {
  }

  lemma {:induction false} Together(
    rows: seq<ClaimedRow>, publish: ClaimedRow -> Attempt, queue: seq<seq<ClaimedRow>>, next: nat, workers: seq<Worker>,
    m: Progress, res: Results)
    requires Claimed(rows) && Grouping(rows, queue) && QueueInOrder(queue)
    requires PoolState(publish, queue, next, workers, m) && Settled(rows, publish, queue, m.pos, res)
    requires Called(rows, publish, queue, m.called, res.calls)
    requires Begun(rows, queue, next, res.calls)
    ensures PoolInv(rows, publish, queue, next, workers, m, res)
  {
    hide Claimed;
    hide Grouping;
    hide QueueInOrder;
    hide PoolState;
    hide Settled;
    hide Called;
    hide Begun;
  }

  lemma {:induction false} SameGrouping(ordered: seq<ClaimedRow>, rows: seq<ClaimedRow>, queue: seq<seq<ClaimedRow>>)
    requires Grouping(ordered, queue) && forall r :: r in rows <==> r in ordered
    ensures Grouping(rows, queue)
  {
  }

  lemma {:induction false} PoolStart(
    rows: seq<ClaimedRow>, publish: ClaimedRow -> Attempt, queue: seq<seq<ClaimedRow>>, workers: seq<Worker>,
      m: Progress)
    requires Claimed(rows) && Grouping(rows, queue) && QueueInOrder(queue)
    requires |m.pos| == |m.called| == |m.holder| == |queue|
    requires forall w :: 0 <= w < |workers| ==> workers[w].Free?
    requires forall g :: 0 <= g < |queue| ==> m.pos[g] == m.called[g] == 0 && m.holder[g] == -1
    ensures PoolInv(rows, publish, queue, 0, workers, m, Results([], [], [], []))
  {
    NoneBegun(rows, queue);
    NothingSettled(rows, publish, queue, m.pos, m.called);
    hide Grouping;
    hide Claimed;
    hide Begun;
    hide QueueInOrder;
    hide Settled;
    hide Called;
  }

  lemma {:induction false} NothingSettled(
    rows: seq<ClaimedRow>, publish: ClaimedRow -> Attempt, queue: seq<seq<ClaimedRow>>, pos: seq<nat>, called: seq<nat>)
    requires |pos| == |called| == |queue| && forall g :: 0 <= g < |queue| ==> pos[g] == called[g] == 0
    ensures Settled(rows, publish, queue, pos, Results([], [], [], [])) && Called(rows, publish, queue, called, [])
  {
  }

  /** With no worker waiting and the queue at its end everything is settled. */
  lemma {:induction false} PoolDone(
    rows: seq<ClaimedRow>, publish: ClaimedRow -> Attempt, queue: seq<seq<ClaimedRow>>, next: nat, workers: seq<Worker>,
    m: Progress, res: Results)
    requires PoolInv(rows, publish, queue, next, workers, m, res)
    requires next == |queue| && forall w :: 0 <= w < |workers| ==> workers[w].Free?
    ensures Outcome(rows, publish, res.succeeded, res.failed, res.poisoned, res.calls)
  {
    assert forall g :: 0 <= g < |queue| ==> m.holder[g] < 0;
    assert forall g :: 0 <= g < |queue| ==> m.pos[g] == m.called[g] == |queue[g]|;
    RecordsFinal(rows, publish, queue, m, res);
  }

  /** What a waiting worker awaits exists. */
  lemma {:induction false} WaitingInRange(
    rows: seq<ClaimedRow>, publish: ClaimedRow -> Attempt, queue: seq<seq<ClaimedRow>>, next: nat, workers: seq<Worker>,
    m: Progress, res: Results, w: nat)
    requires PoolInv(rows, publish, queue, next, workers, m, res) && w < |workers|
    ensures |m.pos| == |queue|
    ensures workers[w].Waiting? ==> workers[w].g < |queue| && workers[w].i < |queue[workers[w].g]|
  {
    hide Settled;
    hide Called;
    hide Grouping;
    hide Begun;
  }

  /** The workers that await an answer. */
  function WaitingOnes(workers: seq<Worker>): set<nat> {
    set w: nat | w < |workers| && workers[w].Waiting?
  }

  /** The publishes under way when an answer comes, and the aggregates begun by then. */
  datatype Load = Load(underWay: nat, begun: nat)

  /** No more than the setting allows or aggregates there are, but one at least. */
  function WorkerCount(concurrency: int, aggregates: nat): (workers: nat)
    ensures workers >= 1 && (aggregates >= 1 ==> workers <= aggregates) && (concurrency >= 1 ==> workers <= concurrency)
    ensures workers == 1 || workers == concurrency || workers == aggregates
    ensures workers < concurrency ==> workers >= aggregates
  {
    if concurrency < 1 || aggregates < 1 then 1 else if concurrency < aggregates then concurrency else aggregates
  }

  lemma {:induction false} WorkerCountIs(concurrency: int, aggregates: nat)
    ensures WorkerCount(concurrency, aggregates) ==
            if Min(concurrency, aggregates) < 1 then 1 else Min(concurrency, aggregates)
  {
  }

  lemma {:induction false} NoLoads(workers: nat, aggregates: nat)
    ensures PoolFull([], workers, aggregates)
  {
  }

  function Aggregates(rows: seq<ClaimedRow>): set<Aggregate> {
    set r | r in rows :: r.event.aggregate
  }

  /** Never more publishes under way than workers, and no worker without one while an aggregate is still to begin. */
  ghost predicate PoolFull(loads: seq<Load>, workers: nat, aggregates: nat) {
    forall l :: l in loads ==> 1 <= l.underWay <= workers && (l.begun < aggregates ==> l.underWay == workers)
  }

  lemma {:induction false} Numbers(n: nat) returns (ws: set<nat>)
    ensures |ws| == n && forall w :: w in ws <==> 0 <= w < n
  {
    if n == 0 {
      ws := {};
    } else {
      var less := Numbers(n - 1);
      ws := less + {n - 1};
    }
  }

  lemma {:induction false} LoadFits(workers: seq<Worker>, waiting: set<nat>, next: nat, aggregates: nat)
    requires forall w :: w in waiting <==> 0 <= w < |workers| && workers[w].Waiting?
    requires waiting != {} && forall w :: 0 <= w < |workers| && workers[w].Free? ==> next == aggregates
    ensures PoolFull([Load(|waiting|, next)], |workers|, aggregates)
    ensures (forall w :: 0 <= w < |workers| ==> workers[w].Waiting?) ==> |waiting| == |workers|
  {
    var ws := Numbers(|workers|);
    SubsetSize(waiting, ws);
    assert |waiting| >= 1;
    if forall w :: 0 <= w < |workers| ==> workers[w].Waiting? {
      assert waiting == ws;
    }
  }

  lemma {:induction false} FullJoins(loads: seq<Load>, more: seq<Load>, workers: nat, aggregates: nat)
    requires PoolFull(loads, workers, aggregates) && PoolFull(more, workers, aggregates)
    ensures PoolFull(loads + more, workers, aggregates)
  {
  }

  lemma {:induction false} HeadOfGroup(rows: seq<ClaimedRow>, queue: seq<seq<ClaimedRow>>, r: ClaimedRow)
    requires Grouping(rows, queue) && QueueInOrder(queue) && r in rows
    ensures exists g :: 0 <= g < |queue| && queue[g] != [] && queue[g][0].event.aggregate == r.event.aggregate
  {
    var g :| 0 <= g < |queue| && r in queue[g];
    assert queue[g][0] in queue[g] && SameAggregate(queue[g][0], r);
  }

  lemma {:induction false} HeadIsRow(rows: seq<ClaimedRow>, queue: seq<seq<ClaimedRow>>, g: nat)
    requires Grouping(rows, queue) && QueueInOrder(queue) && g < |queue|
    ensures queue[g] != [] && queue[g][0].event.aggregate in Aggregates(rows)
  {
    assert queue[g][0] in queue[g];
  }

  /** As many groups as aggregates. */
  lemma {:induction false} GroupCount(rows: seq<ClaimedRow>, queue: seq<seq<ClaimedRow>>)
    requires Grouping(rows, queue) && QueueInOrder(queue)
    ensures |queue| == |Aggregates(rows)|
  {
    var heads := set g | 0 <= g < |queue| :: queue[g][0].event.aggregate;
    forall r | r in rows ensures r.event.aggregate in heads {
      HeadOfGroup(rows, queue, r);
    }
    forall g | 0 <= g < |queue| ensures queue[g][0].event.aggregate in Aggregates(rows) {
      HeadIsRow(rows, queue, g);
    }
    hide Grouping;
    assert heads == Aggregates(rows);
    HeadCount(rows, queue, |queue|);
  }

  lemma {:induction false} HeadCount(rows: seq<ClaimedRow>, queue: seq<seq<ClaimedRow>>, n: nat)
    requires Grouping(rows, queue) && QueueInOrder(queue) && n <= |queue|
    ensures |set g | 0 <= g < n :: queue[g][0].event.aggregate| == n
  {
    var heads := set g | 0 <= g < n :: queue[g][0].event.aggregate;
    if n > 0 {
      HeadCount(rows, queue, n - 1);
      var less := set g | 0 <= g < n - 1 :: queue[g][0].event.aggregate;
      var last := queue[n - 1][0];
      forall g | 0 <= g < n - 1 ensures queue[g][0].event.aggregate != last.event.aggregate {
        assert queue[g][0] in queue[g] && last in queue[n - 1];
        assert !SameAggregate(queue[g][0], last);
      }
      assert heads == less + {last.event.aggregate};
    } else {
      assert heads == {};
    }
  }

  /**
    The pool: `workerCount` workers start one after the other, each taking the group at the front of the queue and
    calling publish for its first row. From then on the event loop answers, in any order, one of the publishes under
    way; its worker goes on without a pause to its next call, of the next row or of the next group's first, and awaits
    that. `loads` says how many publishes were under way at each answer.
   */
  method PublishGrouped(rows: seq<ClaimedRow>, concurrency: int, publish: ClaimedRow -> Attempt)
    returns (succeeded: seq<Id>, failed: seq<Id>, poisoned: seq<PoisonedEvent>, calls: seq<ClaimedRow>,
             ghost loads: seq<Load>)
    requires Claimed(rows)
    ensures Outcome(rows, publish, succeeded, failed, poisoned, calls)
    ensures var aggregates := |Aggregates(rows)|;
            var workers := WorkerCount(concurrency, aggregates);
            && PoolFull(loads, workers, aggregates)
            && (aggregates > 0 ==> loads != [] && loads[0].underWay == workers)
  {
    hide *;
    var ordered := SortByKey(rows);
    SortSorted(rows);
    var queue := GroupByAggregate(ordered);
    SameGrouping(ordered, rows, queue);
    GroupCount(rows, queue);
    var res := Results([], [], [], []);
    var next: nat := 0;
    var workerCount := if Min(concurrency, |queue|) < 1 then 1 else Min(concurrency, |queue|);
    WorkerCountIs(concurrency, |queue|);
    NoLoads(workerCount, |queue|);
    var workers: seq<Worker> := seq(workerCount, _ => Free);
    ghost var m := Progress(seq(|queue|, _ => 0), seq(|queue|, _ => 0), seq(|queue|, _ => -1));
    PoolStart(rows, publish, queue, workers, m);
    loads := [];
    for w := 0 to workerCount
      invariant |workers| == workerCount && next <= |queue| && |m.pos| == |queue|
      invariant forall v :: w <= v < workerCount ==> workers[v].Free?
      invariant |queue| > 0 ==> next == w && forall v :: 0 <= v < w ==> workers[v].Waiting?
      invariant forall v :: 0 <= v < w && workers[v].Free? ==> next == |queue|
      invariant PoolInv(rows, publish, queue, next, workers, m, res)
    {
      next, workers, m, res := CallHead(rows, publish, queue, next, workers, m, w, res);
    }
    var waiting := WaitingOnes(workers);
    WaitingOnesAre(workers);
    while waiting != {}
      invariant |workers| == workerCount && next <= |queue| && |m.pos| == |queue|
      invariant forall w :: w in waiting <==> 0 <= w < workerCount && workers[w].Waiting?
      invariant forall w :: 0 <= w < workerCount && workers[w].Free? ==> next == |queue|
      invariant PoolInv(rows, publish, queue, next, workers, m, res)
      invariant PoolFull(loads, workerCount, |queue|)
      invariant |queue| > 0 && loads == [] ==> forall w :: 0 <= w < workerCount ==> workers[w].Waiting?
      invariant |queue| > 0 && loads != [] ==> loads[0].underWay == workerCount
      decreases InFront(queue, m.pos)
    {
      LoadFits(workers, waiting, next, |queue|);
      FullJoins(loads, [Load(|waiting|, next)], workerCount, |queue|);
      loads := loads + [Load(|waiting|, next)];
      var w :| w in waiting;
      WaitingInRange(rows, publish, queue, next, workers, m, res, w);
      workers, m, res := Answered(rows, publish, queue, next, workers, m, w, res);
      if workers[w].Free? {
        next, workers, m, res := CallHead(rows, publish, queue, next, workers, m, w, res);
      }
      waiting := if workers[w].Waiting? then waiting + {w} else waiting - {w};
    }
    assert workers[0].Free?;
    PoolDone(rows, publish, queue, next, workers, m, res);
    succeeded, failed, poisoned, calls := res.succeeded, res.failed, res.poisoned, res.calls;
  }

  lemma {:induction false} WaitingOnesAre(workers: seq<Worker>)
    ensures forall w :: w in WaitingOnes(workers) <==> 0 <= w < |workers| && workers[w].Waiting?
  {
  }

  // ---------------------------------------------------------------- the sequential reference

  /** One row after the other over all aggregates; `stopped` are those with a transient failure behind. */
  function Sequentially(rows: seq<ClaimedRow>, publish: ClaimedRow -> Attempt, stopped: set<Aggregate>): Results {
    if rows == [] then Results([], [], [], [])
    else
      var r := rows[0];
      if r.event.aggregate in stopped then
        var rest := Sequentially(rows[1..], publish, stopped);
        rest.(failed := [r.id] + rest.failed)
      else match publish(r)
        case Published =>
          var rest := Sequentially(rows[1..], publish, stopped);
          rest.(succeeded := [r.id] + rest.succeeded, calls := [r] + rest.calls)
        case Threw(error) =>
          if IsPermanentPublishError(error) then
            var rest := Sequentially(rows[1..], publish, stopped);
            rest.(poisoned := [PoisonedEvent(r.id, r.event.envelope.eventType)] + rest.poisoned,
                  calls := [r] + rest.calls)
          else
            var rest := Sequentially(rows[1..], publish, stopped + {r.event.aggregate});
            rest.(failed := [r.id] + rest.failed, calls := [r] + rest.calls)
  }

  /** The aggregates stopped once the first row has been dealt with. */
  function StoppedAfter(publish: ClaimedRow -> Attempt, stopped: set<Aggregate>, head: ClaimedRow): set<Aggregate> {
    if head.event.aggregate !in stopped && Transient(publish(head)) then stopped + {head.event.aggregate} else stopped
  }

  /** The ids the sequential reference lists: the first row's in one list, the others as for the tail. */
  lemma {:induction false} SequentialHead(
    rows: seq<ClaimedRow>, publish: ClaimedRow -> Attempt, stopped: set<Aggregate>, id: Id)
    requires rows != []
    ensures var head := rows[0];
            var res := Sequentially(rows, publish, stopped);
            var rest := Sequentially(rows[1..], publish, StoppedAfter(publish, stopped, head));
            var halted := head.event.aggregate in stopped;
            && (id in res.succeeded <==> id in rest.succeeded || (id == head.id && !halted && publish(head).Published?))
            && (id in res.failed <==> id in rest.failed || (id == head.id && (halted || Transient(publish(head)))))
            && (id in PoisonedIds(res.poisoned) <==>
                  id in PoisonedIds(rest.poisoned) || (id == head.id && !halted && Permanent(publish(head))))
  {
    var head := rows[0];
    var res := Sequentially(rows, publish, stopped);
    var rest := Sequentially(rows[1..], publish, StoppedAfter(publish, stopped, head));
    if head.event.aggregate !in stopped && Permanent(publish(head)) {
      assert PoisonedIds(res.poisoned) == [head.id] + PoisonedIds(rest.poisoned);
    }
  }

  /** A row is stopped by what is in front of it or by an aggregate stopped before. */
  lemma {:induction false} SequentialVerdict(
    rows: seq<ClaimedRow>, publish: ClaimedRow -> Attempt, stopped: set<Aggregate>, r: ClaimedRow)
    requires Claimed(rows) && Sorted(rows) && r in rows
    ensures var res := Sequentially(rows, publish, stopped);
            var halted := r.event.aggregate in stopped;
            && (r.id in res.succeeded <==> !halted && Succeeds(rows, publish, r))
            && (r.id in res.failed <==> halted || Stopped(rows, publish, r))
            && (r.id in PoisonedIds(res.poisoned) <==> !halted && Poisons(rows, publish, r))
    decreases |rows|
  {
    var head, tail := rows[0], rows[1..];
    var stopped' := StoppedAfter(publish, stopped, head);
    SequentialHead(rows, publish, stopped, r.id);
    HeadDecides(rows, publish, r);
    if r == head {
      SequentialIds(tail, publish, stopped', r.id);
      assert forall q :: q in tail ==> q.id != head.id;
    } else {
      assert r in tail;
      assert r.id != head.id;
      SequentialVerdict(tail, publish, stopped', r);
    }
  }

  lemma {:induction false} HeadDecides(rows: seq<ClaimedRow>, publish: ClaimedRow -> Attempt, r: ClaimedRow)
    requires Claimed(rows) && Sorted(rows) && r in rows
    ensures r == rows[0] ==> Reached(rows, publish, r)
    ensures r != rows[0] ==> (Reached(rows, publish, r) <==>
              Reached(rows[1..], publish, r) && !(SameAggregate(rows[0], r) && Transient(publish(rows[0]))))
  {
    var i :| 0 <= i < |rows| && rows[i] == r;
    if r != rows[0] {
      assert Earlier(rows[0], r);
      assert forall q :: q in rows <==> q == rows[0] || q in rows[1..];
    }
  }

  lemma {:induction false} SequentialIds(
    rows: seq<ClaimedRow>, publish: ClaimedRow -> Attempt, stopped: set<Aggregate>, id: Id)
    ensures var res := Sequentially(rows, publish, stopped);
            id in res.succeeded || id in res.failed || id in PoisonedIds(res.poisoned) ==> exists r ::
              r in rows && r.id == id
    decreases |rows|
  {
    if rows != [] {
      SequentialHead(rows, publish, stopped, id);
      SequentialIds(rows[1..], publish, StoppedAfter(publish, stopped, rows[0]), id);
      assert rows[0] in rows && forall r :: r in rows[1..] ==> r in rows;
    }
  }

  /**
    Confluence: two publish phases over the same claimed rows, in any row order, with any concurrency and any
    interleaving of the workers, list the same ids; and those are the ids the sequential reference lists.
   */
  lemma {:induction false} SameAsSequential(
    rows: seq<ClaimedRow>, publish: ClaimedRow -> Attempt,
    succeeded: seq<Id>, failed: seq<Id>, poisoned: seq<PoisonedEvent>, calls: seq<ClaimedRow>, id: Id)
    requires Claimed(rows) && Outcome(rows, publish, succeeded, failed, poisoned, calls)
    ensures var res := Sequentially(SortByKey(rows), publish, {});
            && (id in succeeded <==> id in res.succeeded)
            && (id in failed <==> id in res.failed)
            && (id in PoisonedIds(poisoned) <==> id in PoisonedIds(res.poisoned))
  {
    var sorted := SortByKey(rows);
    SortSorted(rows);
    SequentialIds(sorted, publish, {}, id);
    if r :| r in rows && r.id == id {
      SortClaimed(rows);
      SequentialVerdict(sorted, publish, {}, r);
    }
  }

  lemma {:induction false} SortClaimed(rows: seq<ClaimedRow>)
    requires Claimed(rows)
    ensures Claimed(SortByKey(rows))
  {
    SortSorted(rows);
    var sorted := SortByKey(rows);
    forall i, j | 0 <= i < j < |sorted|
      ensures sorted[i].id != sorted[j].id && sorted[i].event.seqNo != sorted[j].event.seqNo
    {
      assert Earlier(sorted[i], sorted[j]) && sorted[i] in rows && sorted[j] in rows;
      var m :| 0 <= m < |rows| && rows[m] == sorted[i];
      var n :| 0 <= n < |rows| && rows[n] == sorted[j];
      assert m != n;
    }
  }

  /** Every claimed id is in exactly one of the three lists. */
  lemma {:induction false} OutcomePartitions(
    rows: seq<ClaimedRow>, publish: ClaimedRow -> Attempt,
    succeeded: seq<Id>, failed: seq<Id>, poisoned: seq<PoisonedEvent>, calls: seq<ClaimedRow>)
    requires Claimed(rows) && Outcome(rows, publish, succeeded, failed, poisoned, calls)
    ensures NoRepeat(succeeded + failed + PoisonedIds(poisoned))
    ensures forall id :: id in succeeded + failed + PoisonedIds(poisoned) <==> exists r :: r in rows && r.id == id
  {
    var ids := PoisonedIds(poisoned);
    forall id | id in succeeded ensures id !in failed && id !in ids {
      var r :| r in rows && r.id == id;
    }
    forall id | id in failed ensures id !in ids {
      var r :| r in rows && r.id == id;
    }
    JoinNoRepeat(succeeded, failed);
    JoinNoRepeat(succeeded + failed, ids);
    forall r | r in rows ensures r.id in succeeded + failed + ids {
    }
  }

  lemma {:induction false} JoinNoRepeat<T>(a: seq<T>, b: seq<T>)
    requires NoRepeat(a) && NoRepeat(b) && forall x :: x in a ==> x !in b
    ensures NoRepeat(a + b)
  {
    var c := a + b;
    forall i, j | 0 <= i < j < |c| ensures c[i] != c[j] {
      if i < |a| <= j {
        assert c[i] == a[i] && c[i] in a && c[j] == b[j - |a|];
      }
    }
  }

  /**
    In the key order of an aggregate the failed rows are a suffix, and the calls are the prefix up to the first of
    them.
   */
  lemma {:induction false} FailedIsSuffix(
    rows: seq<ClaimedRow>, publish: ClaimedRow -> Attempt,
    succeeded: seq<Id>, failed: seq<Id>, poisoned: seq<PoisonedEvent>, calls: seq<ClaimedRow>, q: ClaimedRow,
      r: ClaimedRow)
    requires Claimed(rows) && Outcome(rows, publish, succeeded, failed, poisoned, calls)
    requires q in rows && r in rows && SameAggregate(q, r) && Earlier(q, r)
    ensures q.id in failed ==> r.id in failed && r.id !in Ids(calls)
    ensures r.id in Ids(calls) ==> q.id in Ids(calls) && q.id !in failed
  {
  }

  /**
    A row is called exactly when no earlier row of its aggregate failed: all in front of the first failed row, and
    that row.
   */
  lemma {:induction false} CalledIsPrefix(
    rows: seq<ClaimedRow>, publish: ClaimedRow -> Attempt,
    succeeded: seq<Id>, failed: seq<Id>, poisoned: seq<PoisonedEvent>, calls: seq<ClaimedRow>, r: ClaimedRow)
    requires Claimed(rows) && Outcome(rows, publish, succeeded, failed, poisoned, calls) && r in rows
    ensures r.id in Ids(calls) <==> forall q :: q in rows && SameAggregate(q, r) && Earlier(q, r) ==> q.id !in failed
    ensures r.id !in failed ==> r.id in Ids(calls)
  {
    if Reached(rows, publish, r) {
      forall q | q in rows && SameAggregate(q, r) && Earlier(q, r) ensures !Stopped(rows, publish, q) {
        forall p | p in rows && SameAggregate(p, q) && Earlier(p, q) ensures !Transient(publish(p)) {
          assert SameAggregate(p, r) && Earlier(p, r);
        }
      }
    }
  }
}
