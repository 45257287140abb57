/** When each event is logged once: timely ticks, no crash and no transient failure. */
module OutboxOnce {
  import opened Common
  import opened Outbox
  import opened OutboxSystem
  import opened OutboxExclusivity

  /** Nothing fails for a time only. */
  predicate Smooth(step: Step) {
    !step.Crash? && !step.SendTransient?
  }

  /** Some send of the row was started. */
  predicate SentOnce(s: State, id: Id) {
    exists no :: no in s.sends && s.sends[no] == id
  }

  predicate NoRepeats(log: seq<Id>) {
    forall m, n :: 0 <= m < n < |log| ==> log[m] != log[n]
  }

  /** No two sends are of one row, and each entry of the log is a send that landed. */
  predicate SendsDiffer(s: State) {
    && (forall n, m :: n in s.sends && m in s.sends && s.sends[n] == s.sends[m] ==> n == m)
    && (forall id :: id in s.log ==> exists no :: no in s.landed && no in s.sends && s.sends[no] == id)
    && NoRepeats(s.log)
  }

  /** A replica has failed no row, and sent none of those it has still to send. */
  predicate Unsent(s: State, b: Replica) {
    b.Busy? ==> b.failed == {} && forall id :: id in b.todo ==> !SentOnce(s, id)
  }

  /** A pending row was never claimed and never sent, or some replica holds it. */
  ghost predicate FreshOrHeld(s: State, id: Id)
    requires id in s.table
  {
    Pending(s.table[id]) ==>
      (s.table[id].claimedAt.None? && !SentOnce(s, id)) || exists r :: id in InFlight(At(s, r))
  }

  ghost predicate Once(s: State) {
    && SendsDiffer(s)
    && (forall r: Rid :: Unsent(s, At(s, r)))
    && (forall id :: id in s.table ==> FreshOrHeld(s, id))
  }

  // ---------------------------------------------------------------- steps

  /** A claim takes rows nobody has claimed before: the others are held, and not stale. */
  lemma {:induction false} ClaimTakesFresh(c: Config, s: State, r: Rid, ids: set<Id>, locked: set<Id>, id: Id)
    requires Orderly(s) && Timely(c, s) && Once(s) && Enabled(c, s, Claim(r, ids, locked)) && id in ids
    ensures id in s.table && Pending(s.table[id]) && !SentOnce(s, id)
  {
    assert id in ClaimPool(s.table, s.now, c.staleMs, locked);
    assert FreshOrHeld(s, id);
    hide FirstByKey;
    if q: Rid :| id in InFlight(At(s, q)) {
      assert OwnedBy(s, q);
    }
  }

  lemma {:induction false} ClaimOnce(c: Config, s: State, r: Rid, ids: set<Id>, locked: set<Id>)
    requires Orderly(s) && Timely(c, s) && Once(s) && Enabled(c, s, Claim(r, ids, locked))
    ensures Once(Apply(c, s, Claim(r, ids, locked)))
  {
    var s' := Apply(c, s, Claim(r, ids, locked));
    forall id | id in ids ensures id in s.table && Pending(s.table[id]) && !SentOnce(s, id) {
      ClaimTakesFresh(c, s, r, ids, locked, id);
    }
    assert s'.sends == s.sends && s'.landed == s.landed && s'.log == s.log;
    forall q: Rid ensures Unsent(s', At(s', q)) {
      ClaimEffect(c, s, r, ids, locked, q);
      assert Unsent(s, At(s, q));
    }
    forall id | id in s'.table ensures FreshOrHeld(s', id) {
      ClaimRow(c, s, r, ids, locked, id);
    }
  }

  lemma {:induction false} ClaimRow(c: Config, s: State, r: Rid, ids: set<Id>, locked: set<Id>, id: Id)
    requires Enabled(c, s, Claim(r, ids, locked)) && id in Apply(c, s, Claim(r, ids, locked)).table
    requires id in s.table && FreshOrHeld(s, id)
    ensures FreshOrHeld(Apply(c, s, Claim(r, ids, locked)), id)
  {
    var s' := Apply(c, s, Claim(r, ids, locked));
    ClaimEffect(c, s, r, ids, locked, r);
    ClaimFlight(c, s, r, ids, locked, r);
    if id in ids {
      assert id in InFlight(At(s', r));
    } else if q: Rid :| id in InFlight(At(s, q)) {
      ClaimFlight(c, s, r, ids, locked, q);
      assert At(s, r).Idle?;
      assert id in InFlight(At(s', q));
    }
    hide FirstByKey;
  }

  lemma {:induction false} StartOnce(c: Config, s: State, r: Rid, id: Id, no: SendNo)
    requires Orderly(s) && Once(s) && LogMatches(c, s) && Enabled(c, s, StartSend(r, id, no))
    ensures Once(Apply(c, s, StartSend(r, id, no)))
  {
    var s' := Apply(c, s, StartSend(r, id, no));
    assert Unsent(s, At(s, r)) && id in At(s, r).todo && !SentOnce(s, id);
    hide Head;
    assert s'.sends == s.sends[no := id] && s'.table == s.table && s'.log == s.log && s'.landed == s.landed;
    assert SendsDiffer(s');
    assert id in InFlight(At(s, r)) && id in InFlight(At(s', r));
    forall x ensures SentOnce(s', x) <==> SentOnce(s, x) || x == id {
      SentMore(s, s', no, id, x);
    }
    forall q: Rid ensures Unsent(s', At(s', q)) {
      assert Unsent(s, At(s, q));
      if q != r {
        assert InFlight(At(s, q)) !! InFlight(At(s, r));
        OthersUntouched(c, s, StartSend(r, id, no), q);
      }
    }
    forall x | x in s'.table ensures FreshOrHeld(s', x) {
      assert FreshOrHeld(s, x);
      HeldStill(c, s, StartSend(r, id, no), r, x);
    }
  }

  lemma {:induction false} SentMore(s: State, s': State, no: SendNo, id: Id, x: Id)
    requires s'.sends == s.sends[no := id] && no !in s.sends
    ensures SentOnce(s', x) <==> SentOnce(s, x) || x == id
  {
    if SentOnce(s, x) {
      var n :| n in s.sends && s.sends[n] == x;
      assert n in s'.sends && s'.sends[n] == x;
    }
    if x == id {
      assert no in s'.sends && s'.sends[no] == x;
    }
  }

  /** A step of one replica that keeps its rows in flight keeps each row held by whom it was. */
  lemma {:induction false} HeldStill(c: Config, s: State, step: Step, r: Rid, x: Id)
    requires Enabled(c, s, step) && Actor(step) == Some(r) && (step.StartSend? || step.Reject? || step.SendOk?)
    ensures (exists q: Rid :: x in InFlight(At(s, q))) ==> exists q: Rid :: x in InFlight(At(Apply(c, s, step), q))
  {
    var s' := Apply(c, s, step);
    if q: Rid :| x in InFlight(At(s, q)) {
      if q == r {
        KeepsFlight(c, s, step, r);
      } else {
        OthersUntouched(c, s, step, q);
      }
      assert x in InFlight(At(s', q));
    }
  }

  lemma {:induction false} KeepsFlight(c: Config, s: State, step: Step, r: Rid)
    requires Enabled(c, s, step) && Actor(step) == Some(r) && (step.StartSend? || step.Reject? || step.SendOk?)
    ensures InFlight(At(s, r)) <= InFlight(At(Apply(c, s, step), r))
  {
  }

  lemma {:induction false} SettleOnce(c: Config, s: State, step: Step, r: Rid)
    requires Once(s) && Enabled(c, s, step) && Actor(step) == Some(r) && (step.Reject? || step.SendOk?)
    ensures Once(Apply(c, s, step))
  {
    var s' := Apply(c, s, step);
    assert s'.sends == s.sends && s'.table == s.table && s'.log == s.log && s'.landed == s.landed;
    forall q: Rid ensures Unsent(s', At(s', q)) {
      assert Unsent(s, At(s, q));
      SettleKeepsTodo(c, s, step, r, q);
    }
    forall x | x in s'.table ensures FreshOrHeld(s', x) {
      assert FreshOrHeld(s, x);
      HeldStill(c, s, step, r, x);
    }
  }

  lemma {:induction false} SettleKeepsTodo(c: Config, s: State, step: Step, r: Rid, q: Rid)
    requires Enabled(c, s, step) && Actor(step) == Some(r) && WithinTick(step) && Smooth(step)
    ensures At(Apply(c, s, step), q).Busy? ==>
              && At(s, q).Busy? && At(Apply(c, s, step), q).todo <= At(s, q).todo
              && At(Apply(c, s, step), q).failed <= At(s, q).failed
  {
    if q != r {
      OthersUntouched(c, s, step, q);
    }
    hide Head;
  }

  /** An ack writes only rows of its replica, and those are pending no more; nothing is released. */
  lemma {:induction false} AckOnce(c: Config, s: State, step: Step, r: Rid)
    requires Orderly(s) && Once(s) && Enabled(c, s, step) && Actor(step) == Some(r) && Smooth(step)
    requires step.AckPublished? || step.AckReleased? || step.AckPoisoned? || step.Finish?
    ensures Once(Apply(c, s, step))
  {
    var s' := Apply(c, s, step);
    assert Unsent(s, At(s, r));
    assert s'.sends == s.sends && s'.log == s.log && s'.landed == s.landed;
    forall q: Rid ensures Unsent(s', At(s', q)) {
      assert Unsent(s, At(s, q));
      SettleKeepsTodo(c, s, step, r, q);
    }
    forall x | x in s'.table ensures FreshOrHeld(s', x) {
      AckRow(c, s, step, r, x);
    }
  }

  lemma {:induction false} AckRow(c: Config, s: State, step: Step, r: Rid, x: Id)
    requires Orderly(s) && Once(s) && Enabled(c, s, step) && Actor(step) == Some(r)
    requires step.AckPublished? || step.AckReleased? || step.AckPoisoned? || step.Finish?
    requires x in Apply(c, s, step).table
    ensures FreshOrHeld(Apply(c, s, step), x)
  {
    var s' := Apply(c, s, step);
    assert Unsent(s, At(s, r));
    assert x in s.table && FreshOrHeld(s, x);
    if Pending(s'.table[x]) && (exists q: Rid :: x in InFlight(At(s, q))) {
      var q: Rid :| x in InFlight(At(s, q));
      if q == r {
        AckKeepsPendingFlight(c, s, step, r, x);
      } else {
        OthersUntouched(c, s, step, q);
      }
      assert x in InFlight(At(s', q));
    }
  }

  lemma {:induction false} AckKeepsPendingFlight(c: Config, s: State, step: Step, r: Rid, x: Id)
    requires Enabled(c, s, step) && Actor(step) == Some(r) && Unsent(s, At(s, r)) && x in s.table
    requires step.AckPublished? || step.AckReleased? || step.AckPoisoned? || step.Finish?
    requires x in InFlight(At(s, r)) && Pending(Apply(c, s, step).table[x])
    ensures x in InFlight(At(Apply(c, s, step), r))
  {
  }

  /** A send lands at most once, and no other was of its row. */
  lemma {:induction false} AppendOnce(c: Config, s: State, no: SendNo)
    requires Once(s) && Enabled(c, s, Append(no))
    ensures Once(Apply(c, s, Append(no)))
  {
    var s' := Apply(c, s, Append(no));
    var id := s.sends[no];
    assert id !in s.log;
    assert s'.landed == s.landed + {no} && s'.log == s.log + [id] && s'.sends == s.sends;
    forall x | x in s'.log ensures exists n :: n in s'.landed && n in s'.sends && s'.sends[n] == x {
      if x in s.log {
        var n :| n in s.landed && n in s.sends && s.sends[n] == x;
        assert n in s'.landed;
      } else {
        assert no in s'.landed && s'.sends[no] == x;
      }
    }
    forall q: Rid ensures Unsent(s', At(s', q)) {
      assert Unsent(s, At(s, q)) && At(s', q) == At(s, q);
    }
    forall x | x in s'.table ensures FreshOrHeld(s', x) {
      assert FreshOrHeld(s, x);
      SameFlight(s, s', x);
    }
  }

  lemma {:induction false} SameFlight(s: State, s': State, x: Id)
    requires s'.replicas == s.replicas
    ensures (exists q: Rid :: x in InFlight(At(s, q))) <==> exists q: Rid :: x in InFlight(At(s', q))
  {
    assert forall q: Rid :: At(s', q) == At(s, q);
  }

  /** With the replicas, the sends and the log as they were, it is enough that rows were left alone or are new. */
  lemma {:induction false} OutsideOnce(s: State, s': State)
    requires Once(s) && s'.replicas == s.replicas && s'.sends == s.sends && s'.log == s.log && s'.landed == s.landed
    requires forall x :: x in s'.table ==>
               (x in s.table && s'.table[x] == s.table[x]) || (s'.table[x].claimedAt.None? && !SentOnce(s, x))
    ensures Once(s')
  {
    forall q: Rid ensures Unsent(s', At(s', q)) {
      assert Unsent(s, At(s, q)) && At(s', q) == At(s, q);
    }
    forall x | x in s'.table ensures FreshOrHeld(s', x) {
      SameFlight(s, s', x);
      assert x in s.table ==> FreshOrHeld(s, x);
    }
  }

  lemma {:induction false} EnqueueOnce(c: Config, s: State, id: Id, event: Event)
    requires Inv(c, s) && Once(s) && Enabled(c, s, Enqueue(id, event))
    ensures Once(Apply(c, s, Enqueue(id, event)))
  {
    var s' := Apply(c, s, Enqueue(id, event));
    assert !SentOnce(s, id) by {
      assert forall no :: no in s.sends ==> Valid(c, s, s.sends[no]);
    }
    hide Once;
    hide SentOnce;
    OutsideOnce(s, s');
  }

  lemma {:induction false} SweepOnce(c: Config, s: State, ids: set<Id>, locked: set<Id>)
    requires Once(s) && Enabled(c, s, Sweep(ids, locked))
    ensures Once(Apply(c, s, Sweep(ids, locked)))
  {
    hide Once;
    hide FirstBySweep;
    OutsideOnce(s, Apply(c, s, Sweep(ids, locked)));
  }

  lemma {:induction false} ElapseOnce(c: Config, s: State, to: int)
    requires Once(s) && Enabled(c, s, Elapse(to))
    ensures Once(Apply(c, s, Elapse(to)))
  {
    hide Once;
    OutsideOnce(s, Apply(c, s, Elapse(to)));
  }

  lemma {:induction false} StepOnce(c: Config, s: State, step: Step)
    requires Inv(c, s) && Orderly(s) && Timely(c, s) && Once(s) && Enabled(c, s, step) && Smooth(step)
    ensures Once(Apply(c, s, step))
  {
    hide Once;
    hide Orderly;
    hide Timely;
    match step {
      case Claim(r, ids, locked) => ClaimOnce(c, s, r, ids, locked);
      case StartSend(r, id, no) => StartOnce(c, s, r, id, no);
      case Reject(r, _) => SettleOnce(c, s, step, r);
      case SendOk(r, _) => SettleOnce(c, s, step, r);
      case AckPublished(r) => AckOnce(c, s, step, r);
      case AckReleased(r) => AckOnce(c, s, step, r);
      case AckPoisoned(r) => AckOnce(c, s, step, r);
      case Finish(r) => AckOnce(c, s, step, r);
      case Append(no) => AppendOnce(c, s, no);
      case Enqueue(id, event) => EnqueueOnce(c, s, id, event);
      case Sweep(ids, locked) => SweepOnce(c, s, ids, locked);
      case Elapse(to) => ElapseOnce(c, s, to);
    }
  }

  lemma {:induction false} RunOnce(c: Config, s: State, steps: seq<Step>)
    requires Inv(c, s) && Orderly(s) && Once(s) && Legal(c, s, steps) && TimelyRun(c, s, steps)
    requires forall step :: step in steps ==> Smooth(step)
    ensures Once(Run(c, s, steps))
    decreases |steps|
  {
    if steps != [] {
      assert Smooth(steps[0]);
      StepOnce(c, s, steps[0]);
      StepKeepsOrderly(c, s, steps[0]);
      StepKeepsInv(c, s, steps[0]);
      hide Once;
      hide Orderly;
      RunOnce(c, Apply(c, s, steps[0]), steps[1..]);
    }
  }

  /** With every tick inside the stale window, no crash and no transient failure, no row is in the log twice. */
  lemma {:induction false} LoggedOnce(c: Config, steps: seq<Step>)
    requires Legal(c, INITIAL, steps) && TimelyRun(c, INITIAL, steps) && forall step :: step in steps ==> Smooth(step)
    ensures NoRepeats(Run(c, INITIAL, steps).log)
  {
    InitialOrderly();
    assert Once(INITIAL);
    RunOnce(c, INITIAL, steps);
  }
}
