/**
  A tick inside the distributed protocol does what the store's `drain` does on its own: whatever the other replicas,
  the clock, inserts and sweeps do in between, it sorts its rows into the same three lists.
 */
module OutboxTick {
  import opened Common
  import opened Outbox
  import opened Poison
  import opened OutboxSystem
  import OutboxExclusivity
  import OutboxStore
  import PP = PublishPhase

  /** The claimed rows carry the events enqueued under their ids. */
  predicate Matches(s: State, claimed: seq<PP.ClaimedRow>) {
    forall q :: q in claimed ==> q.id in s.catalog && s.catalog[q.id] == q.event
  }

  /** A step of somebody else, or a publish step of replica `r` that goes the way `publish` says. */
  predicate Publishes(r: Rid, claimed: seq<PP.ClaimedRow>, publish: PP.ClaimedRow -> Attempt, step: Step) {
    match step
    case Elapse(_) => true
    case Enqueue(_, _) => true
    case Append(_) => true
    case Sweep(_, _) => true
    case StartSend(_, _, _) => true
    case Reject(r', id) => r' == r ==> forall q :: q in claimed && q.id == id ==> Permanent(publish(q))
    case SendOk(r', id) => r' == r ==> forall q :: q in claimed && q.id == id ==> publish(q).Published?
    case SendTransient(r', id) => r' == r ==> forall q :: q in claimed && q.id == id ==> Transient(publish(q))
    case Claim(r', _, _) => r' != r
    case AckPublished(r') => r' != r
    case AckReleased(r') => r' != r
    case AckPoisoned(r') => r' != r
    case Finish(r') => r' != r
    case Crash(r') => r' != r
  }

  /** Where a claimed row stands in the tick agrees with what the publish phase makes of it. */
  predicate RowStands(b: Replica, claimed: seq<PP.ClaimedRow>, publish: PP.ClaimedRow -> Attempt, q: PP.ClaimedRow)
    requires b.Busy?
  {
    && (q.id in b.todo || q.id in b.sending || q.id in b.ok || q.id in b.failed || q.id in b.poisoned)
    && (q.id in b.sending ==> PP.Reached(claimed, publish, q))
    && (q.id in b.ok ==> PP.Succeeds(claimed, publish, q))
    && (q.id in b.failed ==> PP.Stopped(claimed, publish, q))
    && (q.id in b.poisoned ==> PP.Poisons(claimed, publish, q))
  }

  /**
    In one aggregate nothing is still to come behind a failed row, and nothing is still to come before a row under
    way.
   */
  predicate PairStands(b: Replica, p: PP.ClaimedRow, q: PP.ClaimedRow)
    requires b.Busy?
  {
    PP.SameAggregate(p, q) && PP.Earlier(p, q) ==>
      && (q.id in b.todo || q.id in b.sending ==> p.id !in b.failed)
      && (q.id in b.sending ==> p.id !in b.todo && p.id !in b.sending)
  }

  ghost predicate Stands(b: Replica, claimed: seq<PP.ClaimedRow>, publish: PP.ClaimedRow -> Attempt) {
    && b.Busy? && OutboxExclusivity.PartsDisjoint(b)
    && OutboxExclusivity.InFlight(b) <= OutboxStore.IdSet(claimed)
    && (forall q :: q in claimed ==> RowStands(b, claimed, publish, q))
    && (forall p, q :: p in claimed && q in claimed ==> PairStands(b, p, q))
  }

  /** The row a replica of this tick holds under an id. */
  lemma {:induction false} RowOfId(b: Replica, claimed: seq<PP.ClaimedRow>, publish: PP.ClaimedRow -> Attempt, id: Id)
    returns (q: PP.ClaimedRow)
    requires Stands(b, claimed, publish) && id in OutboxExclusivity.InFlight(b)
    ensures q in claimed && q.id == id
  {
    q :| q in claimed && q.id == id;
  }

  /** The publish of a group's head is attempted: everything before it in its aggregate succeeded or was poison. */
  lemma {:induction false} HeadIsReached(
    s: State, b: Replica, claimed: seq<PP.ClaimedRow>, publish: PP.ClaimedRow -> Attempt, q: PP.ClaimedRow)
    requires Stands(b, claimed, publish) && Matches(s, claimed) && q in claimed && Head(s, b, q.id)
    ensures PP.Reached(claimed, publish, q)
    ensures forall p :: p in claimed && PP.SameAggregate(p, q) && PP.Earlier(p, q) ==>
            p.id !in b.todo && p.id !in b.sending
  {
    forall p | p in claimed && PP.SameAggregate(p, q) && PP.Earlier(p, q)
      ensures !Transient(publish(p)) && p.id !in b.todo && p.id !in b.sending
    {
      assert PairStands(b, p, q) && RowStands(b, claimed, publish, p);
      assert SameAggregate(s, p.id, q.id) && !Sorts(s, q.id, p.id);
    }
  }

  lemma {:induction false} StartSendStands(
    c: Config, s: State, r: Rid, id: Id, no: SendNo, claimed: seq<PP.ClaimedRow>, publish: PP.ClaimedRow -> Attempt)
    requires Stands(At(s, r), claimed, publish) && Matches(s, claimed) && PP.Claimed(claimed)
    requires Enabled(c, s, StartSend(r, id, no))
    ensures Stands(At(Apply(c, s, StartSend(r, id, no)), r), claimed, publish)
  {
    var b, b' := At(s, r), At(Apply(c, s, StartSend(r, id, no)), r);
    var q0 := RowOfId(b, claimed, publish, id);
    HeadIsReached(s, b, claimed, publish, q0);
    assert b' == b.(todo := b.todo - {id}, sending := b.sending[id := no]);
    hide Enabled;
    hide Apply;
    forall q | q in claimed ensures RowStands(b', claimed, publish, q) {
      assert RowStands(b, claimed, publish, q);
      SameId(claimed, q, q0);
    }
    forall p, q | p in claimed && q in claimed ensures PairStands(b', p, q) {
      assert PairStands(b, p, q);
      SameId(claimed, q, q0);
      SameId(claimed, p, q0);
    }
  }

  lemma {:induction false} SameId(claimed: seq<PP.ClaimedRow>, p: PP.ClaimedRow, q: PP.ClaimedRow)
    requires PP.Claimed(claimed) && p in claimed && q in claimed
    ensures p.id == q.id <==> p == q
    ensures p != q ==> PP.Earlier(p, q) || PP.Earlier(q, p)
  {
    var i :| 0 <= i < |claimed| && claimed[i] == p;
    var j :| 0 <= j < |claimed| && claimed[j] == q;
  }

  /** A row that leaves the queue, or the wire, for its list. */
  lemma {:induction false} SettleStands(
    b: Replica, b': Replica, claimed: seq<PP.ClaimedRow>, publish: PP.ClaimedRow -> Attempt, q0: PP.ClaimedRow)
    requires Stands(b, claimed, publish) && PP.Claimed(claimed) && q0 in claimed && PP.Reached(claimed, publish, q0)
    requires (q0.id in b.todo && Permanent(publish(q0)) &&
             b' == b.(todo := b.todo - {q0.id}, poisoned := b.poisoned + {q0.id}))
          || (q0.id in b.sending && publish(q0).Published? &&
             b' == b.(sending := b.sending - {q0.id}, ok := b.ok + {q0.id}))
    ensures Stands(b', claimed, publish)
  {
    forall q | q in claimed ensures RowStands(b', claimed, publish, q) {
      assert RowStands(b, claimed, publish, q);
      SameId(claimed, q, q0);
    }
    forall p, q | p in claimed && q in claimed ensures PairStands(b', p, q) {
      assert PairStands(b, p, q);
    }
  }

  /** The rest of a group behind a transient failure is stopped by it. */
  lemma {:induction false} RestIsStopped(
    s: State, b: Replica, claimed: seq<PP.ClaimedRow>, publish: PP.ClaimedRow -> Attempt, q0: PP.ClaimedRow,
      q: PP.ClaimedRow)
    requires Stands(b, claimed, publish) && PP.Claimed(claimed) && q0 in claimed && q in claimed
    requires q0.id in b.sending && Transient(publish(q0)) && q.id in b.todo && PP.SameAggregate(q, q0)
    ensures PP.Stopped(claimed, publish, q)
  {
    SameId(claimed, q, q0);
    assert PairStands(b, q, q0);
    assert PP.Earlier(q0, q) && PP.SameAggregate(q0, q);
  }

  lemma {:induction false} GiveUpStands(
    s: State, b: Replica, claimed: seq<PP.ClaimedRow>, publish: PP.ClaimedRow -> Attempt, q0: PP.ClaimedRow)
    requires Stands(b, claimed, publish) && Matches(s, claimed) && PP.Claimed(claimed)
    requires q0 in claimed && q0.id in b.sending && Transient(publish(q0))
    ensures Stands(GiveUp(s, b, q0.id), claimed, publish)
  {
    var b' := GiveUp(s, b, q0.id);
    forall q | q in claimed ensures RowStands(b', claimed, publish, q) {
      GivenUpRow(s, b, claimed, publish, q0, q);
    }
    hide RowStands;
    hide PP.Earlier;
    forall p, q | p in claimed && q in claimed ensures PairStands(b', p, q) {
      GivenUpPair(s, b, claimed, publish, q0, p, q);
    }
    hide PairStands;
  }

  lemma {:induction false} GivenUpPair(
    s: State, b: Replica, claimed: seq<PP.ClaimedRow>, publish: PP.ClaimedRow -> Attempt, q0: PP.ClaimedRow,
    p: PP.ClaimedRow, q: PP.ClaimedRow)
    requires Stands(b, claimed, publish) && Matches(s, claimed) && PP.Claimed(claimed)
    requires q0 in claimed && q0.id in b.sending && p in claimed && q in claimed
    ensures PairStands(GiveUp(s, b, q0.id), p, q)
  {
    hide RowStands;
    assert PairStands(b, p, q) && PairStands(b, q0, q) && PairStands(b, q, q0);
    SameId(claimed, q, q0);
    SameId(claimed, p, q0);
    hide PP.Earlier;
  }

  lemma {:induction false} GivenUpRow(
    s: State, b: Replica, claimed: seq<PP.ClaimedRow>, publish: PP.ClaimedRow -> Attempt, q0: PP.ClaimedRow,
    q: PP.ClaimedRow)
    requires Stands(b, claimed, publish) && Matches(s, claimed) && PP.Claimed(claimed)
    requires q0 in claimed && q0.id in b.sending && Transient(publish(q0)) && q in claimed
    ensures RowStands(GiveUp(s, b, q0.id), claimed, publish, q)
  {
    assert RowStands(b, claimed, publish, q);
    SameId(claimed, q, q0);
    if q.id in b.todo && PP.SameAggregate(q, q0) {
      RestIsStopped(s, b, claimed, publish, q0, q);
    }
    hide PP.Earlier;
    hide PP.Reached;
  }

  lemma {:induction false} StepStands(
    c: Config, s: State, step: Step, r: Rid, claimed: seq<PP.ClaimedRow>, publish: PP.ClaimedRow -> Attempt)
    requires Stands(At(s, r), claimed, publish) && Matches(s, claimed) && PP.Claimed(claimed)
    requires Enabled(c, s, step) && Publishes(r, claimed, publish, step)
    ensures Stands(At(Apply(c, s, step), r), claimed, publish) && Matches(Apply(c, s, step), claimed)
  {
    StepGrows(c, s, step);
    if Actor(step) != Some(r) {
      OthersUntouched(c, s, step, r);
    } else {
      var b, b' := At(s, r), At(Apply(c, s, step), r);
      var q0 := RowOfId(b, claimed, publish, step.id);
      match step {
        case StartSend(_, id, no) => StartSendStands(c, s, r, id, no, claimed, publish);
        case Reject(_, id) =>
          HeadIsReached(s, b, claimed, publish, q0);
          SettleStands(b, b', claimed, publish, q0);
        case SendOk(_, id) =>
          assert RowStands(b, claimed, publish, q0);
          SettleStands(b, b', claimed, publish, q0);
        case SendTransient(_, id) => GiveUpStands(s, b, claimed, publish, q0);
        case _ =>
      }
    }
  }

  lemma {:induction false} RunStands(
    c: Config, s: State, steps: seq<Step>, r: Rid, claimed: seq<PP.ClaimedRow>, publish: PP.ClaimedRow -> Attempt)
    requires Stands(At(s, r), claimed, publish) && Matches(s, claimed) && PP.Claimed(claimed)
    requires Legal(c, s, steps) && forall step :: step in steps ==> Publishes(r, claimed, publish, step)
    ensures Stands(At(Run(c, s, steps), r), claimed, publish)
    decreases |steps|
  {
    if steps != [] {
      StepStands(c, s, steps[0], r, claimed, publish);
      RunStands(c, Apply(c, s, steps[0]), steps[1..], r, claimed, publish);
    }
  }

  function IdsOf(claimed: seq<PP.ClaimedRow>, p: PP.ClaimedRow -> bool): set<Id> {
    set q | q in claimed && p(q) :: q.id
  }

  /**
    From a claim to the end of the publish phase, with the steps of any other replicas in between: the replica's
    three lists are the rows the publish phase makes succeed, stops and poisons.
   */
  lemma {:induction false} TickSortsLikeDrain(
    c: Config, s: State, r: Rid, ids: set<Id>, locked: set<Id>, steps: seq<Step>,
    claimed: seq<PP.ClaimedRow>, publish: PP.ClaimedRow -> Attempt)
    requires Enabled(c, s, Claim(r, ids, locked)) && ids != {}
    requires PP.Claimed(claimed) && OutboxStore.IdSet(claimed) == ids && Matches(s, claimed)
    requires Legal(c, Apply(c, s, Claim(r, ids, locked)), steps)
    requires forall step :: step in steps ==> Publishes(r, claimed, publish, step)
    requires OutboxSystem.Published(At(Run(c, Apply(c, s, Claim(r, ids, locked)), steps), r))
    ensures var b := At(Run(c, Apply(c, s, Claim(r, ids, locked)), steps), r);
            && b.ok == IdsOf(claimed, q => PP.Succeeds(claimed, publish, q))
            && b.failed == IdsOf(claimed, q => PP.Stopped(claimed, publish, q))
            && b.poisoned == IdsOf(claimed, q => PP.Poisons(claimed, publish, q))
  {
    var s1 := Apply(c, s, Claim(r, ids, locked));
    OutboxExclusivity.ClaimEffect(c, s, r, ids, locked, r);
    assert s1.catalog == s.catalog;
    FreshTickStands(At(s1, r), s.now, ids, claimed, publish);
    RunStands(c, s1, steps, r, claimed, publish);
    var b := At(Run(c, s1, steps), r);
    hide *;
    ListsAreComplete(b, claimed, publish);
  }

  lemma {:induction false} FreshTickStands(
    b: Replica, now: int, ids: set<Id>, claimed: seq<PP.ClaimedRow>, publish: PP.ClaimedRow -> Attempt)
    requires b == Busy(now, ids, map[], {}, {}, {}) && OutboxStore.IdSet(claimed) == ids
    ensures Stands(b, claimed, publish)
  {
    forall q | q in claimed ensures RowStands(b, claimed, publish, q) {
      assert q.id in ids;
    }
  }

  lemma {:induction false} ListsAreComplete(b: Replica, claimed: seq<PP.ClaimedRow>, publish: PP.ClaimedRow -> Attempt)
    requires Stands(b, claimed, publish) && OutboxSystem.Published(b)
    ensures b.ok == IdsOf(claimed, q => PP.Succeeds(claimed, publish, q))
    ensures b.failed == IdsOf(claimed, q => PP.Stopped(claimed, publish, q))
    ensures b.poisoned == IdsOf(claimed, q => PP.Poisons(claimed, publish, q))
  {
    assert forall q :: q in claimed ==> RowStands(b, claimed, publish, q);
    forall id | id in b.ok + b.failed + b.poisoned ensures exists q :: q in claimed && q.id == id {
      var q := RowOfId(b, claimed, publish, id);
    }
  }

  // ---------------------------------------------------------------- the acks of an undisturbed tick

  /** A step of replica `r`, time passing, or a send landing: none of these writes the table before the acks. */
  predicate Undisturbed(r: Rid, step: Step) {
    Actor(step) == Some(r) || step.Elapse? || step.Append?
  }

  lemma {:induction false} PublishKeepsTable(
    c: Config, s: State, steps: seq<Step>, r: Rid, claimed: seq<PP.ClaimedRow>, publish: PP.ClaimedRow -> Attempt)
    requires Legal(c, s, steps)
    requires forall step :: step in steps ==> Publishes(r, claimed, publish, step) && Undisturbed(r, step)
    ensures Run(c, s, steps).table == s.table
    decreases |steps|
  {
    if steps != [] {
      assert Publishes(r, claimed, publish, steps[0]) && Undisturbed(r, steps[0]);
      PublishKeepsTable(c, Apply(c, s, steps[0]), steps[1..], r, claimed, publish);
    }
  }

  /** The ack statements a replica sends: one for each list that is not empty. */
  function Acks(b: Replica, r: Rid): seq<Step>
    requires b.Busy?
  {
    (if b.ok != {} then [AckPublished(r)] else []) +
    (if b.failed != {} then [AckReleased(r)] else []) +
    (if b.poisoned != {} then [AckPoisoned(r)] else [])
  }

  /** How many of the lists are not empty. */
  function Lists(b: Replica): nat
    requires b.Busy?
  {
    (if b.ok != {} then 1 else 0) + (if b.failed != {} then 1 else 0) + (if b.poisoned != {} then 1 else 0)
  }

  lemma {:induction false} AcksWrite(c: Config, s: State, r: Rid)
    requires OutboxSystem.Published(At(s, r))
    ensures var b := At(s, r);
            Legal(c, s, Acks(b, r)) &&
            Run(c, s, Acks(b, r)).table == OutboxStore.AfterAck(s.table, b.ok, b.failed, b.poisoned, s.now)
    decreases Lists(At(s, r))
  {
    var b := At(s, r);
    var acks := Acks(b, r);
    OutboxStore.NoIds(s.table, s.now);
    if acks != [] {
      var s' := Apply(c, s, acks[0]);
      FirstAck(c, s, r);
      hide *;
      AcksWrite(c, s', r);
      LegalFrom(c, s, acks);
    }
  }

  lemma {:induction false} LegalFrom(c: Config, s: State, steps: seq<Step>)
    requires steps != [] && Enabled(c, s, steps[0]) && Legal(c, Apply(c, s, steps[0]), steps[1..])
    ensures Legal(c, s, steps) && Run(c, s, steps) == Run(c, Apply(c, s, steps[0]), steps[1..])
  {
  }

  /** The first of the acks to be sent, and what is left to do after it. */
  lemma {:induction false} FirstAck(c: Config, s: State, r: Rid)
    requires OutboxSystem.Published(At(s, r)) && Acks(At(s, r), r) != []
    ensures var b, step := At(s, r), Acks(At(s, r), r)[0];
            && Enabled(c, s, step)
            && var s' := Apply(c, s, step);
               var b' := At(s', r);
               && OutboxSystem.Published(b') && s'.now == s.now && Lists(b') < Lists(b)
               && Acks(b, r)[1..] == Acks(b', r)
               && OutboxStore.AfterAck(s'.table, b'.ok, b'.failed, b'.poisoned, s.now) ==
                  OutboxStore.AfterAck(s.table, b.ok, b.failed, b.poisoned, s.now)
  {
    var b := At(s, r);
    FirstWrite(s.table, b.ok, b.failed, b.poisoned, s.now);
    hide MarkPublished;
    hide Release;
    hide MarkFailed;
    hide OutboxStore.AfterAck;
  }

  lemma {:induction false} FirstWrite(t: Table, ok: set<Id>, failed: set<Id>, poisoned: set<Id>, now: int)
    ensures OutboxStore.AfterAck(MarkPublished(t, ok, now), {}, failed, poisoned, now) ==
            OutboxStore.AfterAck(t, ok, failed, poisoned, now)
    ensures OutboxStore.AfterAck(Release(t, failed), {}, {}, poisoned, now) ==
            OutboxStore.AfterAck(t, {}, failed, poisoned, now)
    ensures OutboxStore.AfterAck(MarkFailed(t, poisoned, now), {}, {}, {}, now) ==
            OutboxStore.AfterAck(t, {}, {}, poisoned, now)
  {
    OutboxStore.NoIds(t, now);
    OutboxStore.NoIds(MarkPublished(t, ok, now), now);
    OutboxStore.NoIds(Release(t, failed), now);
    OutboxStore.NoIds(MarkFailed(t, poisoned, now), now);
    hide MarkPublished;
    hide Release;
    hide MarkFailed;
  }

  /** The three statements on the claimed table leave each row as a whole drain does. */
  lemma {:induction false} ListsSettle(
    t: Table, claimed: seq<PP.ClaimedRow>, publish: PP.ClaimedRow -> Attempt, claimNow: int, ackNow: int)
    requires PP.Claimed(claimed) && forall q :: q in claimed ==> q.id in t && q == OutboxStore.RowOf(t, q.id)
    ensures OutboxStore.AfterAck(MarkClaimed(t, OutboxStore.IdSet(claimed), claimNow),
                                 IdsOf(claimed, q => PP.Succeeds(claimed, publish, q)),
                                 IdsOf(claimed, q => PP.Stopped(claimed, publish, q)),
                                 IdsOf(claimed, q => PP.Poisons(claimed, publish, q)), ackNow) ==
            OutboxStore.AfterDrain(t, claimed, publish, claimNow, ackNow)
  {
    hide PP.Reached;
    forall id | id in t
      ensures OutboxStore.RowOf(t, id) in claimed <==> id in OutboxStore.IdSet(claimed)
    {
      if id in OutboxStore.IdSet(claimed) {
        var q :| q in claimed && q.id == id;
      }
    }
    forall id, p: PP.ClaimedRow -> bool | id in t
      ensures id in IdsOf(claimed, p) <==> OutboxStore.RowOf(t, id) in claimed && p(OutboxStore.RowOf(t, id))
    {
    }
  }

  /** A tick nobody disturbs leaves the table of one call of the store's `drain` on the same rows. */
  lemma {:induction false} LoneTickIsDrain(
    c: Config, s: State, r: Rid, ids: set<Id>, locked: set<Id>, steps: seq<Step>,
    claimed: seq<PP.ClaimedRow>, publish: PP.ClaimedRow -> Attempt)
    requires CatalogMatches(s) && Enabled(c, s, Claim(r, ids, locked)) && ids != {}
    requires PP.Claimed(claimed) && OutboxStore.IdSet(claimed) == ids
    requires forall q :: q in claimed ==> q.id in s.table && q == OutboxStore.RowOf(s.table, q.id)
    requires Legal(c, Apply(c, s, Claim(r, ids, locked)), steps)
    requires forall step :: step in steps ==> Publishes(r, claimed, publish, step) && Undisturbed(r, step)
    requires OutboxSystem.Published(At(Run(c, Apply(c, s, Claim(r, ids, locked)), steps), r))
    ensures OutboxStore.IsClaim(s.table, c.batchSize, c.staleMs, s.now, locked, claimed)
    ensures var s' := Run(c, Apply(c, s, Claim(r, ids, locked)), steps);
            && Legal(c, s', Acks(At(s', r), r))
            && Run(c, s', Acks(At(s', r), r)).table == OutboxStore.AfterDrain(s.table, claimed, publish, s.now, s'.now)
  {
    var s1 := Apply(c, s, Claim(r, ids, locked));
    var s' := Run(c, s1, steps);
    OutboxExclusivity.ClaimEffect(c, s, r, ids, locked, r);
    TickSortsLikeDrain(c, s, r, ids, locked, steps, claimed, publish);
    PublishKeepsTable(c, s1, steps, r, claimed, publish);
    AcksWrite(c, s', r);
    ListsSettle(s.table, claimed, publish, s.now, s'.now);
  }
}
