/** When no row is in flight at two replicas at once, and how often a row can be sent. */
module OutboxExclusivity {
  import opened Common
  import opened Outbox
  import opened OutboxSystem

  /** The rows a replica holds: claimed by its tick and not yet acked by it. */
  function InFlight(b: Replica): set<Id> {
    if b.Busy? then b.todo + b.sending.Keys + b.ok + b.failed + b.poisoned else {}
  }

  /** A row is in one place of its replica's tick only. */
  predicate PartsDisjoint(b: Replica) {
    b.Busy? ==> b.todo !! b.sending.Keys !! b.ok !! b.failed !! b.poisoned
  }

  /** The table still shows the replica's own claim on every row it holds. */
  predicate Owns(s: State, b: Replica) {
    forall id :: id in InFlight(b) ==>
      id in s.table && Pending(s.table[id]) && s.table[id].claimedAt == Some(b.claimedAt)
  }

  predicate OwnedBy(s: State, r: Rid) {
    PartsDisjoint(At(s, r)) && (At(s, r).Busy? ==> Owns(s, At(s, r)))
  }

  ghost predicate Exclusive(s: State) {
    forall q, r :: q != r ==> InFlight(At(s, q)) !! InFlight(At(s, r))
  }

  ghost predicate Orderly(s: State) {
    (forall r :: OwnedBy(s, r)) && Exclusive(s)
  }

  /** No replica has been in its tick longer than the stale window. */
  predicate Timely(c: Config, s: State) {
    forall r :: r in s.replicas && s.replicas[r].Busy? ==> s.now <= s.replicas[r].claimedAt + c.staleMs
  }

  predicate TimelyRun(c: Config, s: State, steps: seq<Step>)
    requires Legal(c, s, steps)
    decreases |steps|
  {
    Timely(c, s) && (steps != [] ==> TimelyRun(c, Apply(c, s, steps[0]), steps[1..]))
  }

  // ---------------------------------------------------------------- every timely step keeps it

  /** A step of a replica within its own tick: it drops rows from flight or moves them about. */
  predicate WithinTick(step: Step) {
    step.StartSend? || step.Reject? || step.SendOk? || step.SendTransient? || step.AckPublished? || step.AckReleased? ||
    step.AckPoisoned? || step.Finish? || step.Crash?
  }

  lemma {:induction false} TickLosesRows(c: Config, s: State, step: Step, r: Rid)
    requires Enabled(c, s, step) && WithinTick(step) && Actor(step) == Some(r)
    ensures InFlight(At(Apply(c, s, step), r)) <= InFlight(At(s, r))
  {
  }

  lemma {:induction false} TickKeepsParts(c: Config, s: State, step: Step, r: Rid)
    requires Enabled(c, s, step) && WithinTick(step) && Actor(step) == Some(r) && PartsDisjoint(At(s, r))
    ensures PartsDisjoint(At(Apply(c, s, step), r))
  {
  }

  /** What a step within a tick writes to the table, it writes to rows its replica held and holds no longer. */
  lemma {:induction false} TickWritesOwnRows(c: Config, s: State, step: Step, r: Rid, id: Id)
    requires Enabled(c, s, step) && WithinTick(step) && Actor(step) == Some(r) && PartsDisjoint(At(s, r)) &&
             id in s.table
    ensures var s' := Apply(c, s, step);
            && id in s'.table
            && (s'.table[id] != s.table[id] ==> id in InFlight(At(s, r)) && id !in InFlight(At(s', r)))
  {
    hide Head;
  }

  lemma {:induction false} TickKeepsOwned(c: Config, s: State, step: Step, r: Rid, q: Rid)
    requires Orderly(s) && Enabled(c, s, step) && WithinTick(step) && Actor(step) == Some(r)
    ensures OwnedBy(Apply(c, s, step), q)
  {
    var s' := Apply(c, s, step);
    assert OwnedBy(s, q) && OwnedBy(s, r);
    if q == r {
      TickLosesRows(c, s, step, r);
      TickKeepsParts(c, s, step, r);
    } else {
      OthersUntouched(c, s, step, q);
    }
    forall id | id in InFlight(At(s', q))
      ensures id in s'.table && s'.table[id] == s.table[id]
    {
      TickWritesOwnRows(c, s, step, r, id);
      assert q != r ==> InFlight(At(s, q)) !! InFlight(At(s, r));
    }
    TickKeepsClaimTime(c, s, step, r);
  }

  lemma {:induction false} TickKeepsClaimTime(c: Config, s: State, step: Step, r: Rid)
    requires Enabled(c, s, step) && WithinTick(step) && Actor(step) == Some(r)
    ensures At(s, r).Busy?
    ensures At(Apply(c, s, step), r).Busy? ==> At(Apply(c, s, step), r).claimedAt == At(s, r).claimedAt
  {
    hide Head;
  }

  lemma {:induction false} TickKeepsOrderly(c: Config, s: State, step: Step, r: Rid)
    requires Orderly(s) && Enabled(c, s, step) && WithinTick(step) && Actor(step) == Some(r)
    ensures Orderly(Apply(c, s, step))
  {
    var s' := Apply(c, s, step);
    forall q ensures OwnedBy(s', q) {
      TickKeepsOwned(c, s, step, r, q);
    }
    TickLosesRows(c, s, step, r);
    forall p, q | p != q ensures InFlight(At(s', p)) !! InFlight(At(s', q)) {
      assert InFlight(At(s, p)) !! InFlight(At(s, q));
      if p != r {
        OthersUntouched(c, s, step, p);
      }
      if q != r {
        OthersUntouched(c, s, step, q);
      }
    }
  }

  /** A claim takes no row in flight, as long as nobody has outlived the stale window. */
  lemma {:induction false} ClaimTakesFreeRows(c: Config, s: State, r: Rid, ids: set<Id>, locked: set<Id>, q: Rid)
    requires OwnedBy(s, q) && Enabled(c, s, Claim(r, ids, locked))
    requires At(s, q).Busy? ==> s.now <= At(s, q).claimedAt + c.staleMs
    ensures ids !! InFlight(At(s, q))
  {
    forall id | id in ids ensures id !in InFlight(At(s, q)) {
      assert id in ClaimPool(s.table, s.now, c.staleMs, locked);
    }
  }

  /** What a claim does, to the table and to each replica. */
  lemma {:induction false} ClaimEffect(c: Config, s: State, r: Rid, ids: set<Id>, locked: set<Id>, q: Rid)
    requires Enabled(c, s, Claim(r, ids, locked))
    ensures var s' := Apply(c, s, Claim(r, ids, locked));
            && s'.table == (if ids == {} then s.table else MarkClaimed(s.table, ids, s.now))
            && At(s', q) == if q == r && ids != {} then Busy(s.now, ids, map[], {}, {}, {}) else At(s, q)
    ensures forall id :: id in ids ==> id in s.table && Pending(s.table[id])
  {
    assert ids <= ClaimPool(s.table, s.now, c.staleMs, locked);
    hide FirstByKey;
  }

  lemma {:induction false} FreshBatchOwned(t: Table, s': State, ids: set<Id>, r: Rid, now: int)
    requires s'.table == MarkClaimed(t, ids, now) && At(s', r) == Busy(now, ids, map[], {}, {}, {})
    requires forall id :: id in ids ==> id in t && Pending(t[id])
    ensures OwnedBy(s', r)
  {
    assert InFlight(At(s', r)) == ids;
  }

  lemma {:induction false} UnclaimedStayOwned(s: State, s': State, ids: set<Id>, q: Rid)
    requires OwnedBy(s, q) && At(s', q) == At(s, q) && ids !! InFlight(At(s, q))
    requires s'.table == if ids == {} then s.table else MarkClaimed(s.table, ids, s.now)
    ensures OwnedBy(s', q)
  {
    hide InFlight;
  }

  lemma {:induction false} ClaimKeepsOwned(c: Config, s: State, r: Rid, ids: set<Id>, locked: set<Id>, q: Rid)
    requires OwnedBy(s, q) && Enabled(c, s, Claim(r, ids, locked)) && ids !! InFlight(At(s, q))
    ensures OwnedBy(Apply(c, s, Claim(r, ids, locked)), q)
  {
    ClaimEffect(c, s, r, ids, locked, q);
    hide *;
    var s' := Apply(c, s, Claim(r, ids, locked));
    if q == r && ids != {} {
      FreshBatchOwned(s.table, s', ids, r, s.now);
    } else {
      UnclaimedStayOwned(s, s', ids, q);
    }
  }

  /** A claim puts its rows in flight at its replica and changes nothing about the others. */
  lemma {:induction false} ClaimFlight(c: Config, s: State, r: Rid, ids: set<Id>, locked: set<Id>, q: Rid)
    requires Enabled(c, s, Claim(r, ids, locked))
    ensures InFlight(At(Apply(c, s, Claim(r, ids, locked)), q)) == if q == r then ids else InFlight(At(s, q))
  {
    hide FirstByKey;
  }

  lemma {:induction false} ClaimKeepsOrderly(c: Config, s: State, r: Rid, ids: set<Id>, locked: set<Id>)
    requires Orderly(s) && Enabled(c, s, Claim(r, ids, locked))
    requires forall q :: ids !! InFlight(At(s, q))
    ensures Orderly(Apply(c, s, Claim(r, ids, locked)))
  {
    hide FirstByKey;
    hide InFlight;
    var s' := Apply(c, s, Claim(r, ids, locked));
    forall q ensures OwnedBy(s', q) {
      assert OwnedBy(s, q) && ids !! InFlight(At(s, q));
      ClaimKeepsOwned(c, s, r, ids, locked, q);
    }
    forall p, q | p != q ensures InFlight(At(s', p)) !! InFlight(At(s', q)) {
      assert InFlight(At(s, p)) !! InFlight(At(s, q));
      assert ids !! InFlight(At(s, p)) && ids !! InFlight(At(s, q));
      ClaimFlight(c, s, r, ids, locked, p);
      ClaimFlight(c, s, r, ids, locked, q);
    }
  }

  /** Steps of nobody: time, inserts, the log, the sweep. A sweep deletes published rows, which nobody holds. */
  lemma {:induction false} OutsideKeepsOrderly(c: Config, s: State, step: Step)
    requires Orderly(s) && Enabled(c, s, step) && Actor(step) == None
    requires forall id :: id in s.table ==> id in s.catalog
    ensures Orderly(Apply(c, s, step))
  {
    var s' := Apply(c, s, step);
    assert s'.replicas == s.replicas;
    if step.Sweep? {
      assert step.ids <= SweepPool(s.table, s.now, c.retentionMs, step.locked);
    }
    hide FirstByKey;
    hide FirstBySweep;
    forall q ensures OwnedBy(s', q) {
      assert OwnedBy(s, q);
      assert At(s', q) == At(s, q);
    }
    forall p, q | p != q ensures InFlight(At(s', p)) !! InFlight(At(s', q)) {
      assert InFlight(At(s, p)) !! InFlight(At(s, q));
    }
  }

  lemma {:induction false} StepKeepsOrderly(c: Config, s: State, step: Step)
    requires Orderly(s) && Timely(c, s) && Enabled(c, s, step)
    requires forall id :: id in s.table ==> id in s.catalog
    ensures Orderly(Apply(c, s, step))
  {
    if Actor(step) == None {
      OutsideKeepsOrderly(c, s, step);
    } else if step.Claim? {
      forall q ensures step.ids !! InFlight(At(s, q)) {
        assert OwnedBy(s, q);
        ClaimTakesFreeRows(c, s, step.r, step.ids, step.locked, q);
      }
      ClaimKeepsOrderly(c, s, step.r, step.ids, step.locked);
    } else {
      TickKeepsOrderly(c, s, step, Actor(step).value);
    }
  }

  lemma {:induction false} RunKeepsOrderly(c: Config, s: State, steps: seq<Step>)
    requires Inv(c, s) && Orderly(s) && Legal(c, s, steps) && TimelyRun(c, s, steps)
    ensures Orderly(Run(c, s, steps))
    decreases |steps|
  {
    if steps != [] {
      StepKeepsOrderly(c, s, steps[0]);
      StepKeepsInv(c, s, steps[0]);
      RunKeepsOrderly(c, Apply(c, s, steps[0]), steps[1..]);
    }
  }

  /**
    If every tick of every replica ends within the stale window, no row is ever in flight at two replicas, and every
    ack writes rows of which its replica is the only holder, although acks check no ownership.
   */
  lemma {:induction false} ClaimsAreExclusive(c: Config, steps: seq<Step>, q: Rid, r: Rid)
    requires Legal(c, INITIAL, steps) && TimelyRun(c, INITIAL, steps) && q != r
    ensures var s := Run(c, INITIAL, steps);
            && InFlight(At(s, q)) !! InFlight(At(s, r))
            && (At(s, q).Busy? ==> Owns(s, At(s, q)))
  {
    InitialOrderly();
    RunKeepsOrderly(c, INITIAL, steps);
    var s := Run(c, INITIAL, steps);
    assert OwnedBy(s, q);
  }

  lemma {:induction false} InitialOrderly()
    ensures Orderly(INITIAL)
  {
    forall r ensures OwnedBy(INITIAL, r) && InFlight(At(INITIAL, r)) == {} {
    }
  }

  // ---------------------------------------------------------------- exactly when a claim breaks it

  /** A tick that has outlived its claim and still holds rows. */
  predicate Overrun(c: Config, s: State, r: Rid) {
    At(s, r).Busy? && InFlight(At(s, r)) != {} && s.now > At(s, r).claimedAt + c.staleMs
  }

  ghost predicate SomeClaimOverlaps(c: Config, s: State) {
    exists r, ids, locked :: Enabled(c, s, Claim(r, ids, locked)) && !Exclusive(Apply(c, s, Claim(r, ids, locked)))
  }

  /**
    From a state where rows are held exclusively, some claim can break that exactly when some replica has overrun the
    stale window.
   */
  lemma {:induction false} OverlapNeedsOverrun(c: Config, s: State)
    requires Orderly(s) && c.batchSize >= 1
    ensures SomeClaimOverlaps(c, s) <==> exists q :: Overrun(c, s, q)
  {
    if SomeClaimOverlaps(c, s) {
      var r, ids, locked :| Enabled(c, s, Claim(r, ids, locked)) && !Exclusive(Apply(c, s, Claim(r, ids, locked)));
      if !exists q :: Overrun(c, s, q) {
        forall q ensures ids !! InFlight(At(s, q)) {
          assert OwnedBy(s, q) && !Overrun(c, s, q);
          if InFlight(At(s, q)) != {} {
            ClaimTakesFreeRows(c, s, r, ids, locked, q);
          }
        }
        ClaimKeepsOrderly(c, s, r, ids, locked);
        assert false;
      }
    }
    if q :| Overrun(c, s, q) {
      OverrunIsReclaimable(c, s, q);
    }
  }

  lemma {:induction false} OverrunIsReclaimable(c: Config, s: State, q: Rid)
    requires Orderly(s) && c.batchSize >= 1 && Overrun(c, s, q)
    ensures SomeClaimOverlaps(c, s)
  {
    var id :| id in InFlight(At(s, q));
    assert OwnedBy(s, q);
    var r := Unused(s.replicas.Keys);
    var locked := s.table.Keys - {id};
    assert ClaimPool(s.table, s.now, c.staleMs, locked) == {id};
    var step := Claim(r, {id}, locked);
    assert Enabled(c, s, step);
    var s' := Apply(c, s, step);
    assert id in InFlight(At(s', r)) && id in InFlight(At(s', q));
    assert !Exclusive(s');
  }

  // ---------------------------------------------------------------- how often a row is sent

  /** Sends of a row started in a run. */
  function Sends(c: Config, s: State, steps: seq<Step>, id: Id): nat
    requires Legal(c, s, steps)
    decreases |steps|
  {
    if steps == [] then 0
    else (if steps[0].StartSend? && steps[0].id == id then 1 else 0) + Sends(c, Apply(c, s, steps[0]), steps[1..], id)
  }

  /** Claims of a row whose claim column was empty. */
  function FreshClaims(c: Config, s: State, steps: seq<Step>, id: Id): nat
    requires Legal(c, s, steps)
    decreases |steps|
  {
    if steps == [] then 0
    else (if steps[0].Claim? && id in steps[0].ids && id in s.table && s.table[id].claimedAt.None? then 1 else 0) +
         FreshClaims(c, Apply(c, s, steps[0]), steps[1..], id)
  }

  /** Claims of a row over somebody's stale claim. */
  function StaleClaims(c: Config, s: State, steps: seq<Step>, id: Id): nat
    requires Legal(c, s, steps)
    decreases |steps|
  {
    if steps == [] then 0
    else (if steps[0].Claim? && id in steps[0].ids && id in s.table && s.table[id].claimedAt.Some? then 1 else 0) +
         StaleClaims(c, Apply(c, s, steps[0]), steps[1..], id)
  }

  /** Acks that put a row back for retry. */
  function Resets(c: Config, s: State, steps: seq<Step>, id: Id): nat
    requires Legal(c, s, steps)
    decreases |steps|
  {
    if steps == [] then 0
    else (if steps[0].AckReleased? && id in At(s, steps[0].r).failed then 1 else 0) +
         Resets(c, Apply(c, s, steps[0]), steps[1..], id)
  }

  predicate ToSend(b: Replica, id: Id)
  {
    b.Busy? && id in b.todo
  }

  /** Replicas that may still send the row on the claim they have. */
  function Senders(s: State, id: Id): set<Rid> {
    set r | r in s.replicas && ToSend(s.replicas[r], id)
  }

  /**
    A claim on an empty column is still to come without any reset: the row is not there yet, or is pending and free.
   */
  function Available(s: State, id: Id): nat {
    if id !in s.catalog then 1
    else if id in s.table && Pending(s.table[id]) && s.table[id].claimedAt.None? then 1
    else 0
  }

  lemma {:induction false} StepSenders(c: Config, s: State, step: Step, id: Id)
    requires Enabled(c, s, step)
    ensures (if step.StartSend? && step.id == id then 1 else 0) + |Senders(Apply(c, s, step), id)| <=
            |Senders(s, id)| + (if step.Claim? && id in step.ids then 1 else 0)
  {
    var s' := Apply(c, s, step);
    var r := if Actor(step).Some? then Actor(step).value else 0;
    hide FirstByKey;
    if step.Claim? && id in step.ids {
      assert Senders(s', id) <= Senders(s, id) + {r};
      SubsetSize(Senders(s', id), Senders(s, id) + {r});
    } else {
      forall q | q in Senders(s', id) ensures q in Senders(s, id) {
        if Actor(step) != Some(q) {
          OthersUntouched(c, s, step, q);
          assert At(s', q) == At(s, q);
        }
      }
      SubsetSize(Senders(s', id), Senders(s, id));
      if step.StartSend? && step.id == id {
        assert r in Senders(s, id) && r !in Senders(s', id);
      }
    }
  }

  lemma {:induction false} StepAvailable(c: Config, s: State, step: Step, id: Id)
    requires Enabled(c, s, step) && (id in s.table ==> id in s.catalog)
    ensures (if step.Claim? && id in step.ids && id in s.table && s.table[id].claimedAt.None? then 1 else 0) +
            Available(Apply(c, s, step), id) <=
            Available(s, id) + (if step.AckReleased? && id in At(s, step.r).failed then 1 else 0)
  {
    if step.Claim? {
      assert step.ids <= ClaimPool(s.table, s.now, c.staleMs, step.locked);
    }
    hide FirstByKey;
  }

  lemma {:induction false} RunSends(c: Config, s: State, steps: seq<Step>, id: Id)
    requires Inv(c, s) && Legal(c, s, steps)
    ensures Sends(c, s, steps, id) <= |Senders(s, id)| + FreshClaims(c, s, steps, id) + StaleClaims(c, s, steps, id)
    ensures FreshClaims(c, s, steps, id) <= Available(s, id) + Resets(c, s, steps, id)
    decreases |steps|
  {
    if steps != [] {
      var s' := Apply(c, s, steps[0]);
      StepKeepsInv(c, s, steps[0]);
      StepSenders(c, s, steps[0], id);
      StepAvailable(c, s, steps[0], id);
      if steps[0].Claim? && id in steps[0].ids {
        assert id in s.table;
      }
      RunSends(c, s', steps[1..], id);
    }
  }

  /**
    In any run a row is sent at most once, plus once for each retry it was put back for, plus once for each stale
    re-claim.
   */
  lemma {:induction false} SendsAreBounded(c: Config, steps: seq<Step>, id: Id)
    requires Legal(c, INITIAL, steps)
    ensures Sends(c, INITIAL, steps, id) <= 1 + Resets(c, INITIAL, steps, id) + StaleClaims(c, INITIAL, steps, id)
  {
    RunSends(c, INITIAL, steps, id);
    assert Senders(INITIAL, id) == {};
  }
}
