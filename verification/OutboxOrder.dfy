/** Per-aggregate order of deliveries over whole runs. */
module OutboxOrder {
  import opened Common
  import opened Outbox
  import opened OutboxSystem

  const RELAY: Rid := 0

  /**
    A valid row of the same aggregate that every batch with both puts first: the claim prefers it, and so does the
    sort, if a batch can hold the two at all.
   */
  predicate Precedes(c: Config, s: State, i: Id, j: Id) {
    i != j && SameAggregate(s, i, j) && Older(s, i, j) && Valid(c, s, i) && (Sorts(s, i, j) || c.batchSize <= 1)
  }

  /** A row still to be published in this tick. */
  predicate Unsettled(b: Replica, id: Id) {
    b.Busy? && (id in b.todo || id in b.sending)
  }

  /** Row `i` is not inserted behind a row `j` it then precedes. */
  predicate InTurn(c: Config, s: State, step: Step, i: Id, j: Id)
    requires Enabled(c, s, step)
  {
    step.Enqueue? && step.id == i && j in s.catalog ==> !Precedes(c, Apply(c, s, step), i, j)
  }

  /** A claim that takes `j` leaves no undelivered `i` behind. */
  predicate ClosedClaim(c: Config, s: State, step: Step, i: Id, j: Id) {
    step.Claim? && j in step.ids && Precedes(c, s, i, j) ==> i in s.log || i in step.ids
  }

  predicate ClosedRun(c: Config, s: State, steps: seq<Step>, i: Id, j: Id)
    requires Legal(c, s, steps)
    decreases |steps|
  {
    steps == [] ||
    (InTurn(c, s, steps[0], i, j) && ClosedClaim(c, s, steps[0], i, j) &&
     ClosedRun(c, Apply(c, s, steps[0]), steps[1..], i, j))
  }

  /** Once `j` is sent, `i` is in the log. */
  predicate SentAfter(s: State, i: Id, j: Id) {
    forall no :: no in s.sends && s.sends[no] == j ==> i in s.log
  }

  /** Whoever has still to publish `j` has `i` before it, if `i` is not yet in the log. */
  ghost predicate HeldAfter(s: State, i: Id, j: Id) {
    forall r :: Unsettled(At(s, r), j) ==> i in s.log || (Unsettled(At(s, r), i) && Sorts(s, i, j))
  }

  /** Wherever `j` stands in the log, `i` stands in front of it. */
  predicate LoggedAfter(s: State, i: Id, j: Id) {
    forall n :: 0 <= n < |s.log| && s.log[n] == j ==> i in s.log[..n]
  }

  ghost predicate PairInOrder(c: Config, s: State, i: Id, j: Id) {
    Precedes(c, s, i, j) ==> SentAfter(s, i, j) && HeldAfter(s, i, j) && LoggedAfter(s, i, j)
  }

  /** Somewhere in the log `j` stands with no `i` in front of it. */
  predicate Overtakes(log: seq<Id>, i: Id, j: Id) {
    exists n :: 0 <= n < |log| && log[n] == j && i !in log[..n]
  }

  // ---------------------------------------------------------------- any replicas

  /** A row that is not in the catalog is nowhere. */
  lemma {:induction false} NewRowIsNowhere(c: Config, s: State, i: Id, j: Id)
    requires Inv(c, s) && j !in s.catalog
    ensures SentAfter(s, i, j) && HeldAfter(s, i, j) && LoggedAfter(s, i, j)
  {
    forall r: Rid ensures !Unsettled(At(s, r), j) {
      if r in s.replicas {
        assert ReplicaMatches(c, s, At(s, r));
      }
    }
    forall n | 0 <= n < |s.log| ensures s.log[n] != j {
      assert s.log[n] in s.log;
    }
  }

  /** Unless `j` is new, what precedes it did so before the step. */
  lemma {:induction false} PrecedesBack(c: Config, s: State, step: Step, i: Id, j: Id)
    requires Enabled(c, s, step) && InTurn(c, s, step, i, j) && j in s.catalog
    requires Precedes(c, Apply(c, s, step), i, j)
    ensures Precedes(c, s, i, j)
  {
    hide Head;
    hide FirstByKey;
    hide FirstBySweep;
  }

  /** An enqueue touches neither sends, replicas nor log. */
  lemma {:induction false} EnqueueKeepsPair(c: Config, s: State, step: Step, i: Id, j: Id)
    requires Enabled(c, s, step) && step.Enqueue?
    requires SentAfter(s, i, j) && HeldAfter(s, i, j) && LoggedAfter(s, i, j)
    ensures var s' := Apply(c, s, step); SentAfter(s', i, j) && HeldAfter(s', i, j) && LoggedAfter(s', i, j)
  {
    var s' := Apply(c, s, step);
    forall r: Rid | Unsettled(At(s', r), j) ensures i in s'.log || (Unsettled(At(s', r), i) && Sorts(s', i, j)) {
      assert At(s', r) == At(s, r);
    }
  }

  lemma {:induction false} HeadIsNext(c: Config, s: State, r: Rid, i: Id, j: Id)
    requires At(s, r).Busy? && Head(s, At(s, r), j) && Precedes(c, s, i, j) && HeldAfter(s, i, j) && CatalogMatches(s)
    ensures i in s.log
  {
    assert Unsettled(At(s, r), j);
    assert SameAggregate(s, i, j);
  }

  lemma {:induction false} StepSentAfter(c: Config, s: State, step: Step, i: Id, j: Id)
    requires Inv(c, s) && Enabled(c, s, step) && Precedes(c, s, i, j) && SentAfter(s, i, j) && HeldAfter(s, i, j)
    ensures SentAfter(Apply(c, s, step), i, j)
  {
    Written(c, s, step);
    if step.StartSend? && step.id == j {
      HeadIsNext(c, s, step.r, i, j);
    }
    hide Enabled;
    hide Apply;
    hide Inv;
  }

  lemma {:induction false} StepLoggedAfter(c: Config, s: State, step: Step, i: Id, j: Id)
    requires Enabled(c, s, step) && SentAfter(s, i, j) && LoggedAfter(s, i, j)
    ensures LoggedAfter(Apply(c, s, step), i, j)
  {
    var s' := Apply(c, s, step);
    Written(c, s, step);
    hide Enabled;
    hide Apply;
    forall n | 0 <= n < |s'.log| && s'.log[n] == j ensures i in s'.log[..n] {
      if n < |s.log| {
        assert s'.log[..n] == s.log[..n];
      } else {
        assert s'.log[..n] == s.log;
      }
    }
  }

  /**
    Within a tick rows leave the unsettled ones by being delivered, rejected, or given up with all that follow them.
   */
  lemma {:induction false} TickHeldAfter(c: Config, s: State, step: Step, r: Rid, i: Id, j: Id)
    requires Inv(c, s) && Enabled(c, s, step) && !step.Claim? && !step.Enqueue?
    requires Precedes(c, s, i, j) && HeldAfter(s, i, j) && SentAfter(s, i, j)
    requires Actor(step) == Some(r) && Unsettled(At(Apply(c, s, step), r), j)
    ensures i in s.log || (Unsettled(At(Apply(c, s, step), r), i) && Sorts(s, i, j))
  {
    TickSettles(c, s, step, r, j);
    if Unsettled(At(s, r), i) && !Unsettled(At(Apply(c, s, step), r), i) {
      TickSettlesInTurn(c, s, step, r, i, j);
    }
  }

  /** Nothing becomes unsettled within a tick. */
  lemma {:induction false} TickSettles(c: Config, s: State, step: Step, r: Rid, j: Id)
    requires Enabled(c, s, step) && !step.Claim? && Actor(step) == Some(r) && Unsettled(At(Apply(c, s, step), r), j)
    ensures Unsettled(At(s, r), j)
  {
    hide FirstBySweep;
  }

  /** A valid row that is settled with a later one of its aggregate still unsettled was delivered. */
  lemma {:induction false} TickSettlesInTurn(c: Config, s: State, step: Step, r: Rid, i: Id, j: Id)
    requires LogMatches(c, s) && ReplicaMatches(c, s, At(s, r)) && Enabled(c, s, step) && !step.Claim?
    requires Actor(step) == Some(r) && SameAggregate(s, i, j) && Valid(c, s, i) && SentAfter(s, i, j)
    requires Unsettled(At(s, r), i) && !Unsettled(At(Apply(c, s, step), r), i) && Unsettled(At(Apply(c, s, step), r), j)
    ensures i in s.log
  {
    hide FirstBySweep;
    if step.SendTransient? {
      assert i == step.id || SameAggregate(s, i, step.id);
      assert SameAggregate(s, j, step.id);
      assert j in At(s, r).sending;
    }
  }

  lemma {:induction false} ClaimHeldAfter(c: Config, s: State, step: Step, i: Id, j: Id)
    requires Enabled(c, s, step) && step.Claim? && Precedes(c, s, i, j) && HeldAfter(s, i, j) &&
             ClosedClaim(c, s, step, i, j)
    ensures HeldAfter(Apply(c, s, step), i, j)
  {
    var s' := Apply(c, s, step);
    assert |step.ids| <= if c.batchSize < 0 then 0 else c.batchSize;
    hide FirstByKey;
    forall r: Rid | Unsettled(At(s', r), j) ensures i in s'.log || (Unsettled(At(s', r), i) && Sorts(s', i, j)) {
      if r == step.r {
        assert j in step.ids;
        if i in step.ids {
          SubsetSize({i, j}, step.ids);
          assert |{i, j}| == 2;
        }
      } else {
        assert At(s', r) == At(s, r);
      }
    }
  }

  lemma {:induction false} StepHeldAfter(c: Config, s: State, step: Step, i: Id, j: Id)
    requires Inv(c, s) && Enabled(c, s, step) && !step.Enqueue?
    requires Precedes(c, s, i, j) && HeldAfter(s, i, j) && SentAfter(s, i, j)
    requires ClosedClaim(c, s, step, i, j)
    ensures HeldAfter(Apply(c, s, step), i, j)
  {
    var s' := Apply(c, s, step);
    StepGrows(c, s, step);
    if step.Claim? {
      ClaimHeldAfter(c, s, step, i, j);
    } else {
      forall r: Rid | Unsettled(At(s', r), j) ensures i in s'.log || (Unsettled(At(s', r), i) && Sorts(s', i, j)) {
        if Actor(step) == Some(r) {
          TickHeldAfter(c, s, step, r, i, j);
        } else {
          OthersUntouched(c, s, step, r);
        }
      }
    }
  }

  lemma {:induction false} StepKeepsPair(c: Config, s: State, step: Step, i: Id, j: Id)
    requires Inv(c, s) && Enabled(c, s, step) && PairInOrder(c, s, i, j)
    requires InTurn(c, s, step, i, j) && ClosedClaim(c, s, step, i, j)
    ensures PairInOrder(c, Apply(c, s, step), i, j)
  {
    if Precedes(c, Apply(c, s, step), i, j) {
      if j !in s.catalog {
        NewRowIsNowhere(c, s, i, j);
      } else {
        PrecedesBack(c, s, step, i, j);
      }
      if step.Enqueue? {
        EnqueueKeepsPair(c, s, step, i, j);
      } else {
        StepKeepsCatalogKeys(c, s, step);
        StepSentAfter(c, s, step, i, j);
        StepHeldAfter(c, s, step, i, j);
        StepLoggedAfter(c, s, step, i, j);
      }
    }
  }

  lemma {:induction false} StepKeepsCatalogKeys(c: Config, s: State, step: Step)
    requires Enabled(c, s, step) && !step.Enqueue?
    ensures Apply(c, s, step).catalog == s.catalog
  {
  }

  lemma {:induction false} RunKeepsPair(c: Config, s: State, steps: seq<Step>, i: Id, j: Id)
    requires Inv(c, s) && PairInOrder(c, s, i, j) && Legal(c, s, steps) && ClosedRun(c, s, steps, i, j)
    ensures PairInOrder(c, Run(c, s, steps), i, j)
    decreases |steps|
  {
    if steps != [] {
      StepKeepsInv(c, s, steps[0]);
      StepKeepsPair(c, s, steps[0], i, j);
      RunKeepsPair(c, Apply(c, s, steps[0]), steps[1..], i, j);
    }
  }

  /**
    With any number of replicas, crashes, failures, re-claims and late sends: if no claim that takes `j` leaves an
    undelivered valid predecessor `i` behind, `i` stands in the log in front of every `j`.
   */
  lemma {:induction false} ClosedClaimsKeepOrder(c: Config, steps: seq<Step>, i: Id, j: Id, n: nat)
    requires Legal(c, INITIAL, steps) && ClosedRun(c, INITIAL, steps, i, j)
    ensures var s := Run(c, INITIAL, steps);
            n < |s.log| && s.log[n] == j && Precedes(c, s, i, j) ==> i in s.log[..n]
  {
    RunKeepsPair(c, INITIAL, steps, i, j);
  }

  // ---------------------------------------------------------------- a lone relay

  /** The relay is alone and its acks succeed. */
  predicate Lone(step: Step) {
    !step.Crash? && (step.Claim? ==> step.locked == {}) && (Actor(step) == None || Actor(step) == Some(RELAY))
  }

  /** The relay still has the row in its tick. */
  predicate Held(b: Replica, id: Id) {
    b.Busy? && (id in b.todo || id in b.sending || id in b.ok || id in b.failed || id in b.poisoned)
  }

  /** A pending row is free, or held by the relay. */
  predicate FreeOrHeld(s: State, id: Id)
    requires id in s.table
  {
    Pending(s.table[id]) && s.table[id].claimedAt.Some? ==> Held(At(s, RELAY), id)
  }

  ghost predicate AllFreeOrHeld(s: State) {
    (forall id :: id in s.table ==> FreeOrHeld(s, id)) && (forall r :: r in s.replicas ==> r == RELAY)
  }

  lemma {:induction false} StepFreeOrHeld(c: Config, s: State, step: Step)
    requires AllFreeOrHeld(s) && Enabled(c, s, step) && Lone(step)
    ensures AllFreeOrHeld(Apply(c, s, step))
  {
    var s' := Apply(c, s, step);
    hide FirstByKey;
    hide FirstBySweep;
    forall id | id in s'.table ensures FreeOrHeld(s', id) {
      assert id in s.table ==> FreeOrHeld(s, id);
    }
  }

  /** A claim of the lone relay takes an initial part of the pending rows. */
  lemma {:induction false} LoneClaimIsClosed(c: Config, s: State, step: Step, i: Id, j: Id)
    requires Inv(c, s) && AllFreeOrHeld(s) && Enabled(c, s, step) && Lone(step)
    ensures ClosedClaim(c, s, step, i, j)
  {
    if step.Claim? && j in step.ids && Precedes(c, s, i, j) && i in s.table && i !in s.log {
      var pool := ClaimPool(s.table, s.now, c.staleMs, {});
      assert j in pool;
      assert RowMatches(c, s, i) && FreeOrHeld(s, i);
      assert i in pool;
      assert i !in step.ids ==> KeyBefore(s.table, j, i);
      assert s.table[i].event == s.catalog[i] && s.table[j].event == s.catalog[j];
    }
  }

  ghost predicate LoneRun(c: Config, s: State, steps: seq<Step>, i: Id, j: Id)
    requires Legal(c, s, steps)
    decreases |steps|
  {
    steps == [] ||
    (Lone(steps[0]) && InTurn(c, s, steps[0], i, j) && LoneRun(c, Apply(c, s, steps[0]), steps[1..], i, j))
  }

  lemma {:induction false} LoneRunIsClosed(c: Config, s: State, steps: seq<Step>, i: Id, j: Id)
    requires Inv(c, s) && AllFreeOrHeld(s) && Legal(c, s, steps) && LoneRun(c, s, steps, i, j)
    ensures ClosedRun(c, s, steps, i, j)
    decreases |steps|
  {
    if steps != [] {
      LoneClaimIsClosed(c, s, steps[0], i, j);
      StepKeepsInv(c, s, steps[0]);
      StepFreeOrHeld(c, s, steps[0]);
      LoneRunIsClosed(c, Apply(c, s, steps[0]), steps[1..], i, j);
    }
  }

  /**
    In any run of a lone relay whose acks succeed, over any pattern of transient failures, batch cuts, retries and late
    sends: wherever a row stands in the log, every valid row that precedes it in its aggregate, and was not inserted
    behind it, stands in front of it.
   */
  lemma {:induction false} DeliveredInOrder(c: Config, steps: seq<Step>, i: Id, j: Id, n: nat)
    requires Legal(c, INITIAL, steps) && LoneRun(c, INITIAL, steps, i, j)
    ensures var s := Run(c, INITIAL, steps);
            n < |s.log| && s.log[n] == j && Precedes(c, s, i, j) ==> i in s.log[..n]
  {
    LoneRunIsClosed(c, INITIAL, steps, i, j);
    ClosedClaimsKeepOrder(c, steps, i, j, n);
  }
}
