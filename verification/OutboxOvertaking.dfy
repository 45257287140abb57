/** Exactly which claim puts the order of an aggregate at risk. */
module OutboxOvertaking {
  import opened Common
  import opened Outbox
  import opened OutboxSystem
  import opened OutboxOrder
  import X = OutboxExclusivity

  /** No further claim and no insert. */
  predicate Settling(steps: seq<Step>) {
    forall step :: step in steps ==> !step.Claim? && !step.Enqueue?
  }

  /** Some continuation without claims and inserts logs `j` with no `i` in front of it. */
  ghost predicate CanOvertake(c: Config, s: State, i: Id, j: Id) {
    exists steps :: Settling(steps) && Legal(c, s, steps) && Overtakes(Run(c, s, steps).log, i, j)
  }

  // ---------------------------------------------------------------- a closed claim is safe

  lemma {:induction false} SettlingIsClosed(c: Config, s: State, steps: seq<Step>, i: Id, j: Id)
    requires Settling(steps) && Legal(c, s, steps)
    ensures ClosedRun(c, s, steps, i, j) && Run(c, s, steps).catalog == s.catalog
    decreases |steps|
  {
    if steps != [] {
      assert steps[0] in steps;
      StepKeepsCatalogKeys(c, s, steps[0]);
      hide Apply;
      hide Enabled;
      SettlingIsClosed(c, Apply(c, s, steps[0]), steps[1..], i, j);
    }
  }

  lemma {:induction false} OrderedIsSafe(c: Config, s: State, i: Id, j: Id)
    requires Inv(c, s) && PairInOrder(c, s, i, j) && Precedes(c, s, i, j)
    ensures !CanOvertake(c, s, i, j)
  {
    forall steps | Settling(steps) && Legal(c, s, steps) ensures !Overtakes(Run(c, s, steps).log, i, j) {
      SettlingIsClosed(c, s, steps, i, j);
      RunKeepsPair(c, s, steps, i, j);
      assert Precedes(c, Run(c, s, steps), i, j);
      hide Run;
    }
  }

  // ---------------------------------------------------------------- an open one is not

  /** Of these rows, the one of `j`'s aggregate the sort puts first. */
  lemma {:induction false} FirstOfGroup(s: State, ids: set<Id>, j: Id) returns (first: Id)
    requires CatalogMatches(s) && ids <= s.catalog.Keys && j in ids
    ensures first in ids && SameAggregate(s, first, j)
    ensures forall k :: k in ids && k != first && SameAggregate(s, k, first) ==> Sorts(s, first, k)
    decreases ids
  {
    var rest := ids - {j};
    first := j;
    if k :| k in rest && SameAggregate(s, k, j) {
      var least := FirstOfGroup(s, rest, k);
      assert SameAggregate(s, least, j);
      first := if Sorts(s, j, least) then j else least;
      forall x | x in ids && x != first && SameAggregate(s, x, first) ensures Sorts(s, first, x) {
        assert x == j || x in rest;
        assert x in rest && x != least ==> Sorts(s, least, x);
      }
    }
  }

  lemma {:induction false} Prepend(c: Config, s: State, step: Step, steps: seq<Step>)
    requires Enabled(c, s, step) && !step.Claim? && !step.Enqueue?
    requires Settling(steps) && Legal(c, Apply(c, s, step), steps)
    ensures Settling([step] + steps) && Legal(c, s, [step] + steps)
    ensures Run(c, s, [step] + steps) == Run(c, Apply(c, s, step), steps)
  {
    assert ([step] + steps)[1..] == steps;
    hide Apply;
    hide Enabled;
  }

  lemma {:induction false} PrependAll(c: Config, s: State, first: seq<Step>, steps: seq<Step>)
    requires Settling(first) && Legal(c, s, first) && Settling(steps) && Legal(c, Run(c, s, first), steps)
    ensures Settling(first + steps) && Legal(c, s, first + steps)
    ensures Run(c, s, first + steps) == Run(c, Run(c, s, first), steps)
    decreases |first|
  {
    if first == [] {
      assert first + steps == steps;
    } else {
      assert (first + steps)[1..] == first[1..] + steps;
      hide Apply;
      hide Enabled;
      PrependAll(c, Apply(c, s, first[0]), first[1..], steps);
    }
  }

  /** A replica between two sends that has still to publish `j`, and not `i`, which is not in the log. */
  ghost predicate Ahead(c: Config, s: State, r: Rid, i: Id, j: Id) {
    && CatalogMatches(s) && At(s, r).Busy? && At(s, r).sending == map[]
    && At(s, r).todo <= s.catalog.Keys && j in At(s, r).todo && i !in At(s, r).todo
    && i !in s.log && Valid(c, s, j) && s.landed <= s.sends.Keys
  }

  /** The next row is sent and lands. */
  lemma {:induction false} SendLands(c: Config, s: State, r: Rid, id: Id, no: SendNo) returns (s1: State, s2: State)
    requires At(s, r).Busy? && Head(s, At(s, r), id) && Valid(c, s, id) && no !in s.sends && s.landed <= s.sends.Keys
    ensures Enabled(c, s, StartSend(r, id, no)) && Apply(c, s, StartSend(r, id, no)) == s1
    ensures Enabled(c, s1, Append(no)) && Apply(c, s1, Append(no)) == s2
    ensures s2.log == s.log + [id] && s2.catalog == s.catalog && s2.table == s.table
    ensures no in s2.landed && s2.landed <= s2.sends.Keys
    ensures At(s2, r) == At(s, r).(todo := At(s, r).todo - {id}, sending := At(s, r).sending[id := no])
  {
    s1 := Apply(c, s, StartSend(r, id, no));
    s2 := Apply(c, s1, Append(no));
  }

  lemma {:induction false} SendAnswered(c: Config, s: State, r: Rid, id: Id) returns (s': State)
    requires At(s, r).Busy? && id in At(s, r).sending && At(s, r).sending[id] in s.landed
    ensures Enabled(c, s, SendOk(r, id)) && Apply(c, s, SendOk(r, id)) == s'
    ensures s' == s.(replicas := s'.replicas)
    ensures At(s', r) == At(s, r).(sending := At(s, r).sending - {id}, ok := At(s, r).ok + {id})
  {
    s' := Apply(c, s, SendOk(r, id));
  }

  lemma {:induction false} Rejected(c: Config, s: State, r: Rid, id: Id) returns (s': State)
    requires At(s, r).Busy? && Head(s, At(s, r), id) && !Valid(c, s, id)
    ensures Enabled(c, s, Reject(r, id)) && Apply(c, s, Reject(r, id)) == s'
    ensures s' == s.(replicas := s'.replicas)
    ensures At(s', r) == At(s, r).(todo := At(s, r).todo - {id}, poisoned := At(s, r).poisoned + {id})
  {
    s' := Apply(c, s, Reject(r, id));
  }

  lemma {:induction false} LastOvertakes(log: seq<Id>, i: Id, j: Id)
    requires i !in log
    ensures Overtakes(log + [j], i, j)
  {
    assert (log + [j])[|log|] == j && (log + [j])[..|log|] == log;
  }

  /** Row after row in the order of the sort, until it is `j`'s turn. */
  lemma {:induction false} PublishUpTo(c: Config, s: State, r: Rid, i: Id, j: Id) returns (steps: seq<Step>)
    requires Ahead(c, s, r, i, j)
    ensures Settling(steps) && Legal(c, s, steps) && Overtakes(Run(c, s, steps).log, i, j)
    decreases |At(s, r).todo|
  {
    hide *;
    var id := NextHead(c, s, r, i, j);
    if id == j {
      steps := SendOvertakes(c, s, r, i, j);
    } else {
      var first, s' := PassOver(c, s, r, i, j, id);
      steps := PublishUpTo(c, s', r, i, j);
      PrependAll(c, s, first, steps);
      steps := first + steps;
    }
  }

  lemma {:induction false} NextHead(c: Config, s: State, r: Rid, i: Id, j: Id) returns (id: Id)
    requires Ahead(c, s, r, i, j)
    ensures At(s, r).Busy? && Head(s, At(s, r), id) && (id == j ==> Valid(c, s, j))
  {
    id := FirstOfGroup(s, At(s, r).todo, j);
  }

  lemma {:induction false} SendOvertakes(c: Config, s: State, r: Rid, i: Id, j: Id) returns (steps: seq<Step>)
    requires Ahead(c, s, r, i, j) && Head(s, At(s, r), j) && Valid(c, s, j)
    ensures Settling(steps) && Legal(c, s, steps) && Overtakes(Run(c, s, steps).log, i, j)
  {
    var no := Unused(s.sends.Keys);
    var s1, s2 := SendLands(c, s, r, j, no);
    LastOvertakes(s.log, i, j);
    hide Overtakes;
    Prepend(c, s1, Append(no), []);
    Prepend(c, s, StartSend(r, j, no), [Append(no)] + []);
    steps := [StartSend(r, j, no)] + ([Append(no)] + []);
  }

  /** A row before `j`'s turn is sent and answered, or rejected. */
  lemma {:induction false} PassOver(c: Config, s: State, r: Rid, i: Id, j: Id, id: Id)
    returns (steps: seq<Step>, s': State)
    requires Ahead(c, s, r, i, j) && Head(s, At(s, r), id) && id != j
    ensures Settling(steps) && Legal(c, s, steps) && Run(c, s, steps) == s'
    ensures Ahead(c, s', r, i, j) && |At(s', r).todo| < |At(s, r).todo|
  {
    if Valid(c, s, id) {
      var no := Unused(s.sends.Keys);
      var s1, s2 := SendLands(c, s, r, id, no);
      s' := SendAnswered(c, s2, r, id);
      Prepend(c, s2, SendOk(r, id), []);
      Prepend(c, s1, Append(no), [SendOk(r, id)] + []);
      Prepend(c, s, StartSend(r, id, no), [Append(no)] + ([SendOk(r, id)] + []));
      steps := [StartSend(r, id, no)] + ([Append(no)] + ([SendOk(r, id)] + []));
    } else {
      s' := Rejected(c, s, r, id);
      Prepend(c, s, Reject(r, id), []);
      steps := [Reject(r, id)] + [];
    }
    StillAhead(c, s, s', r, i, j, id);
  }

  lemma {:induction false} StillAhead(c: Config, s: State, s': State, r: Rid, i: Id, j: Id, id: Id)
    requires Ahead(c, s, r, i, j) && id in At(s, r).todo && id != j && CatalogMatches(s') && s'.catalog == s.catalog
    requires At(s', r).Busy? && At(s', r).todo == At(s, r).todo - {id} && At(s', r).sending == map[]
    requires s'.landed <= s'.sends.Keys && (s'.log == s.log || s'.log == s.log + [id])
    ensures Ahead(c, s', r, i, j) && |At(s', r).todo| < |At(s, r).todo|
  {
    hide CatalogMatches;
  }

  lemma {:induction false} OpenClaimIsAhead(c: Config, s: State, r: Rid, ids: set<Id>, locked: set<Id>, i: Id, j: Id)
    requires Inv(c, s) && Enabled(c, s, Claim(r, ids, locked)) && Valid(c, s, j)
    requires j in ids && i !in s.log && i !in ids
    ensures Ahead(c, Apply(c, s, Claim(r, ids, locked)), r, i, j)
  {
    X.ClaimEffect(c, s, r, ids, locked, r);
    StepKeepsCatalog(c, s, Claim(r, ids, locked));
    Written(c, s, Claim(r, ids, locked));
    hide Apply;
    hide Enabled;
  }

  // ---------------------------------------------------------------- exactly

  /**
    With any number of replicas, whatever crashed or was claimed before: as long as a valid row `i` that precedes a
    valid row `j` is in order, a claim makes it possible, without any further claim, that `j` is logged with no `i` in
    front of it if and only if that claim takes `j` and leaves `i` behind, undelivered and not in the same claim.
   */
  lemma {:induction false} ClaimDecidesOrder(
    c: Config, s: State, r: Rid, ids: set<Id>, locked: set<Id>, i: Id, j: Id)
    requires Inv(c, s) && PairInOrder(c, s, i, j) && Precedes(c, s, i, j) && Valid(c, s, j)
    requires Enabled(c, s, Claim(r, ids, locked))
    ensures CanOvertake(c, Apply(c, s, Claim(r, ids, locked)), i, j) <==> j in ids && i !in s.log && i !in ids
  {
    var step := Claim(r, ids, locked);
    var s' := Apply(c, s, step);
    if j in ids && i !in s.log && i !in ids {
      OpenClaimIsAhead(c, s, r, ids, locked, i, j);
      var steps := PublishUpTo(c, s', r, i, j);
    } else {
      StepKeepsInv(c, s, step);
      StepKeepsPair(c, s, step, i, j);
      StepKeepsCatalogKeys(c, s, step);
      assert Precedes(c, s', i, j);
      OrderedIsSafe(c, s', i, j);
    }
  }

  /** Over whole runs: the first claim that is not closed, and no other step, puts the order of the two rows at risk. */
  lemma {:induction false} FirstOpenClaimDecides(
    c: Config, steps: seq<Step>, r: Rid, ids: set<Id>, locked: set<Id>, i: Id, j: Id)
    requires Legal(c, INITIAL, steps) && ClosedRun(c, INITIAL, steps, i, j)
    requires var s := Run(c, INITIAL, steps);
             Precedes(c, s, i, j) && Valid(c, s, j) && Enabled(c, s, Claim(r, ids, locked))
    ensures var s := Run(c, INITIAL, steps);
            && !CanOvertake(c, s, i, j)
            && (CanOvertake(c, Apply(c, s, Claim(r, ids, locked)), i, j) <==> j in ids && i !in s.log && i !in ids)
  {
    RunKeepsInv(c, INITIAL, steps);
    RunKeepsPair(c, INITIAL, steps, i, j);
    OrderedIsSafe(c, Run(c, INITIAL, steps), i, j);
    ClaimDecidesOrder(c, Run(c, INITIAL, steps), r, ids, locked, i, j);
  }
}
