/**
  The outbox as a distributed protocol: any number of relay replicas claiming, publishing and acking over one table,
  with crashes at any point, stale re-claims, late acks, sends that land after their timeout, and retention sweeps.
  One step is one SQL statement, one event of one send, one append to the log, or the passing of time.
 */
module OutboxSystem {
  import opened Common
  import opened Outbox

  type Rid = nat
  type SendNo = nat

  datatype Config = Config(registry: Registry, batchSize: int, staleMs: int, retentionMs: int, retentionBatch: nat)

  /**
    A replica between ticks, or in one: rows not yet attempted, sends under way, and the three outcome lists not yet
    acked. `claimedAt` is the time of its claim.
   */
  datatype Replica =
    | Idle
    | Busy(claimedAt: int, todo: set<Id>, sending: map<Id, SendNo>, ok: set<Id>, failed: set<Id>, poisoned: set<Id>)

  /**
    `catalog` remembers every event ever enqueued and `sends` every send ever started; a send in `landed` has been
    appended to the log. A send that has not landed may land at any time, also after its replica gave it up.
   */
  datatype State = State(
    now: int, table: Table, catalog: map<Id, Event>, replicas: map<Rid, Replica>,
    sends: map<SendNo, Id>, landed: set<SendNo>, log: seq<Id>)

  const INITIAL := State(0, map[], map[], map[], map[], {}, [])

  datatype Step =
    | Elapse(to: int)
    | Enqueue(id: Id, event: Event)
    | Claim(r: Rid, ids: set<Id>, locked: set<Id>)
    | StartSend(r: Rid, id: Id, no: SendNo)
    | Reject(r: Rid, id: Id)
    | Append(no: SendNo)
    | SendOk(r: Rid, id: Id)
    | SendTransient(r: Rid, id: Id)
    | AckPublished(r: Rid)
    | AckReleased(r: Rid)
    | AckPoisoned(r: Rid)
    | Finish(r: Rid)
    | Crash(r: Rid)
    | Sweep(ids: set<Id>, locked: set<Id>)

  function At(s: State, r: Rid): Replica {
    if r in s.replicas then s.replicas[r] else Idle
  }

  predicate Valid(c: Config, s: State, id: Id) {
    id in s.catalog && Validates(c.registry, s.catalog[id].envelope)
  }

  predicate SameAggregate(s: State, i: Id, j: Id) {
    i in s.catalog && j in s.catalog && s.catalog[i].aggregate == s.catalog[j].aggregate
  }

  predicate Older(s: State, i: Id, j: Id) {
    i in s.catalog && j in s.catalog && Before(s.catalog[i], s.catalog[j])
  }

  /** Before it in the order a tick publishes in. */
  predicate Sorts(s: State, i: Id, j: Id) {
    i in s.catalog && j in s.catalog && SortsBefore(s.catalog[i], s.catalog[j])
  }

  /** The next row of its group: the rows of an aggregate are published one at a time, oldest first. */
  predicate Head(s: State, b: Replica, id: Id)
    requires b.Busy?
  {
    && id in b.todo && id in s.catalog
    && forall j :: j in b.todo + b.sending.Keys && j != id && SameAggregate(s, j, id) ==> Sorts(s, id, j)
  }

  /** Nothing left to publish. */
  predicate Published(b: Replica) {
    b.Busy? && b.todo == {} && b.sending == map[]
  }

  predicate Enabled(c: Config, s: State, step: Step) {
    match step
    case Elapse(to) => s.now <= to
    case Enqueue(id, event) => id !in s.catalog && forall j :: j in s.catalog ==> s.catalog[j].seqNo != event.seqNo
    case Claim(r, ids, locked) =>
      At(s, r).Idle? && FirstByKey(s.table, ClaimPool(s.table, s.now, c.staleMs, locked), c.batchSize, ids)
    case StartSend(r, id, no) => At(s, r).Busy? && Head(s, At(s, r), id) && Valid(c, s, id) && no !in s.sends
    case Reject(r, id) => At(s, r).Busy? && Head(s, At(s, r), id) && !Valid(c, s, id)
    case Append(no) => no in s.sends && no !in s.landed
    case SendOk(r, id) => At(s, r).Busy? && id in At(s, r).sending && At(s, r).sending[id] in s.landed
    case SendTransient(r, id) => At(s, r).Busy? && id in At(s, r).sending
    case AckPublished(r) => Published(At(s, r)) && At(s, r).ok != {}
    case AckReleased(r) => Published(At(s, r)) && At(s, r).ok == {} && At(s, r).failed != {}
    case AckPoisoned(r) => Published(At(s, r)) && At(s, r).ok == {} && At(s, r).failed == {} && At(s, r).poisoned != {}
    case Finish(r) => Published(At(s, r)) && At(s, r).ok == At(s, r).failed == At(s, r).poisoned == {}
    case Crash(r) => At(s, r).Busy?
    case Sweep(ids, locked) => FirstBySweep(s.table, SweepPool(s.table, s.now, c.retentionMs, locked),
      c.retentionBatch, ids)
  }

  function Put(s: State, r: Rid, b: Replica): State {
    s.(replicas := s.replicas[r := b])
  }

  /** A transient failure takes the rest of the group with it. */
  function GiveUp(s: State, b: Replica, id: Id): Replica
    requires b.Busy?
  {
    var rest := set j | j in b.todo && SameAggregate(s, j, id);
    b.(todo := b.todo - rest, sending := b.sending - {id}, failed := b.failed + {id} + rest)
  }

  function Apply(c: Config, s: State, step: Step): State
    requires Enabled(c, s, step)
  {
    match step
    case Elapse(to) => s.(now := to)
    case Enqueue(id, event) =>
      s.(table := s.table[id := Row(event, None, None, None)], catalog := s.catalog[id := event])
    case Claim(r, ids, _) =>
      if ids == {} then s
      else Put(s.(table := MarkClaimed(s.table, ids, s.now)), r, Busy(s.now, ids, map[], {}, {}, {}))
    case StartSend(r, id, no) =>
      var b := At(s, r);
      Put(s.(sends := s.sends[no := id]), r, b.(todo := b.todo - {id}, sending := b.sending[id := no]))
    case Reject(r, id) =>
      var b := At(s, r);
      Put(s, r, b.(todo := b.todo - {id}, poisoned := b.poisoned + {id}))
    case Append(no) => s.(landed := s.landed + {no}, log := s.log + [s.sends[no]])
    case SendOk(r, id) =>
      var b := At(s, r);
      Put(s, r, b.(sending := b.sending - {id}, ok := b.ok + {id}))
    case SendTransient(r, id) => Put(s, r, GiveUp(s, At(s, r), id))
    case AckPublished(r) =>
      Put(s.(table := MarkPublished(s.table, At(s, r).ok, s.now)), r, At(s, r).(ok := {}))
    case AckReleased(r) => Put(s.(table := Release(s.table, At(s, r).failed)), r, At(s, r).(failed := {}))
    case AckPoisoned(r) =>
      Put(s.(table := MarkFailed(s.table, At(s, r).poisoned, s.now)), r, At(s, r).(poisoned := {}))
    case Finish(r) => Put(s, r, Idle)
    case Crash(r) => Put(s, r, Idle)
    case Sweep(ids, _) => s.(table := DeleteRows(s.table, ids))
  }

  predicate Legal(c: Config, s: State, steps: seq<Step>)
    decreases |steps|
  {
    steps == [] || (Enabled(c, s, steps[0]) && Legal(c, Apply(c, s, steps[0]), steps[1..]))
  }

  function Run(c: Config, s: State, steps: seq<Step>): State
    requires Legal(c, s, steps)
    decreases |steps|
  {
    if steps == [] then s else Run(c, Apply(c, s, steps[0]), steps[1..])
  }

  // ---------------------------------------------------------------- the invariant

  predicate CatalogMatches(s: State) {
    && (forall id :: id in s.table ==> id in s.catalog && s.table[id].event == s.catalog[id])
    && (forall i, j :: i in s.catalog && j in s.catalog && i != j ==> s.catalog[i].seqNo != s.catalog[j].seqNo)
  }

  /** Only valid events are sent, what is in the log was sent, and a landed send is in the log. */
  predicate LogMatches(c: Config, s: State) {
    && (forall no :: no in s.sends ==> Valid(c, s, s.sends[no]))
    && (forall no :: no in s.landed ==> no in s.sends && s.sends[no] in s.log)
    && (forall id :: id in s.log ==> Valid(c, s, id))
  }

  /** What a replica believes of its rows is true. */
  predicate ReplicaMatches(c: Config, s: State, b: Replica) {
    b.Busy? ==>
      && b.todo + b.sending.Keys + b.ok + b.failed + b.poisoned <= s.catalog.Keys
      && (forall id :: id in b.sending ==> b.sending[id] in s.sends && s.sends[b.sending[id]] == id)
      && (forall id :: id in b.ok ==> id in s.log)
      && (forall id :: id in b.poisoned ==> !Valid(c, s, id))
  }

  /** A row marked published was delivered, and one marked failed is invalid; no claim is in the future. */
  predicate RowMatches(c: Config, s: State, id: Id)
    requires id in s.table
  {
    && (s.table[id].publishedAt.Some? ==> id in s.log)
    && (s.table[id].failedAt.Some? ==> !Valid(c, s, id))
    && (s.table[id].claimedAt.Some? ==> s.table[id].claimedAt.value <= s.now)
  }

  predicate Inv(c: Config, s: State) {
    && CatalogMatches(s)
    && LogMatches(c, s)
    && (forall r :: r in s.replicas ==> ReplicaMatches(c, s, s.replicas[r]))
    && (forall id :: id in s.table ==> RowMatches(c, s, id))
    && (forall id :: id in s.catalog && id !in s.table ==> id in s.log)
  }

  // ---------------------------------------------------------------- every step keeps it

  /** The catalog, the sends and the log only grow. */
  ghost predicate Grows(s: State, s': State) {
    && (forall id :: id in s.catalog ==> id in s'.catalog && s'.catalog[id] == s.catalog[id])
    && (forall no :: no in s.sends ==> no in s'.sends && s'.sends[no] == s.sends[no])
    && (forall id :: id in s.log ==> id in s'.log)
  }

  lemma {:induction false} GrowthKeepsReplica(c: Config, s: State, s': State, b: Replica)
    requires Grows(s, s') && ReplicaMatches(c, s, b)
    ensures ReplicaMatches(c, s', b)
  {
  }

  lemma {:induction false} StepGrows(c: Config, s: State, step: Step)
    requires Enabled(c, s, step)
    ensures Grows(s, Apply(c, s, step))
  {
  }

  /** Only an insert writes the catalog, only the start of a send the sends, only an append the log. */
  lemma {:induction false} Written(c: Config, s: State, step: Step)
    requires Enabled(c, s, step)
    ensures var s' := Apply(c, s, step);
            && s'.catalog == (if step.Enqueue? then s.catalog[step.id := step.event] else s.catalog)
            && s'.sends == (if step.StartSend? then s.sends[step.no := step.id] else s.sends)
            && s'.landed == (if step.Append? then s.landed + {step.no} else s.landed)
            && s'.log == (if step.Append? then s.log + [s.sends[step.no]] else s.log)
    ensures step.StartSend? ==> step.no !in s.sends && Valid(c, s, step.id)
    ensures step.Enqueue? ==>
              step.id !in s.catalog && forall j :: j in s.catalog ==> s.catalog[j].seqNo != step.event.seqNo
    ensures step.Append? ==> step.no in s.sends && step.no !in s.landed
  {
    hide Head;
    hide Valid;
    hide FirstByKey;
    hide FirstBySweep;
  }

  /** The replica a step belongs to. */
  function Actor(step: Step): Option<Rid> {
    match step
    case Elapse(_) => None
    case Enqueue(_, _) => None
    case Append(_) => None
    case Sweep(_, _) => None
    case Claim(r, _, _) => Some(r)
    case StartSend(r, _, _) => Some(r)
    case Reject(r, _) => Some(r)
    case SendOk(r, _) => Some(r)
    case SendTransient(r, _) => Some(r)
    case AckPublished(r) => Some(r)
    case AckReleased(r) => Some(r)
    case AckPoisoned(r) => Some(r)
    case Finish(r) => Some(r)
    case Crash(r) => Some(r)
  }

  lemma {:induction false} OthersUntouched(c: Config, s: State, step: Step, r: Rid)
    requires Enabled(c, s, step) && Actor(step) != Some(r)
    ensures At(Apply(c, s, step), r) == At(s, r)
  {
  }

  lemma {:induction false} ClaimKeepsActor(c: Config, s: State, r: Rid, ids: set<Id>, locked: set<Id>)
    requires CatalogMatches(s) && Enabled(c, s, Claim(r, ids, locked))
    ensures ReplicaMatches(c, Apply(c, s, Claim(r, ids, locked)), At(Apply(c, s, Claim(r, ids, locked)), r))
  {
    assert ids <= s.table.Keys;
  }

  lemma {:induction false} StartSendKeepsActor(c: Config, s: State, r: Rid, id: Id, no: SendNo)
    requires ReplicaMatches(c, s, At(s, r)) && Enabled(c, s, StartSend(r, id, no))
    ensures ReplicaMatches(c, Apply(c, s, StartSend(r, id, no)), At(Apply(c, s, StartSend(r, id, no)), r))
  {
    hide Head;
  }

  lemma {:induction false} RejectKeepsActor(c: Config, s: State, r: Rid, id: Id)
    requires ReplicaMatches(c, s, At(s, r)) && Enabled(c, s, Reject(r, id)) && id in At(s, r).todo
    ensures ReplicaMatches(c, Apply(c, s, Reject(r, id)), At(Apply(c, s, Reject(r, id)), r))
  {
    hide Head;
  }

  lemma {:induction false} SendOkKeepsActor(c: Config, s: State, r: Rid, id: Id)
    requires ReplicaMatches(c, s, At(s, r)) && LogMatches(c, s) && Enabled(c, s, SendOk(r, id))
    ensures ReplicaMatches(c, Apply(c, s, SendOk(r, id)), At(Apply(c, s, SendOk(r, id)), r))
  {
  }

  lemma {:induction false} TransientKeepsActor(c: Config, s: State, r: Rid, id: Id)
    requires ReplicaMatches(c, s, At(s, r)) && Enabled(c, s, SendTransient(r, id))
    ensures ReplicaMatches(c, Apply(c, s, SendTransient(r, id)), At(Apply(c, s, SendTransient(r, id)), r))
  {
  }

  lemma {:induction false} AckKeepsActor(c: Config, s: State, step: Step, r: Rid)
    requires ReplicaMatches(c, s, At(s, r)) && Enabled(c, s, step) && Actor(step) == Some(r)
    requires step.AckPublished? || step.AckReleased? || step.AckPoisoned? || step.Finish? || step.Crash?
    ensures ReplicaMatches(c, Apply(c, s, step), At(Apply(c, s, step), r))
  {
  }

  lemma {:induction false} StepKeepsActor(c: Config, s: State, step: Step, r: Rid)
    requires CatalogMatches(s) && LogMatches(c, s) && ReplicaMatches(c, s, At(s, r)) && Enabled(c, s, step) &&
             Actor(step) == Some(r)
    ensures ReplicaMatches(c, Apply(c, s, step), At(Apply(c, s, step), r))
  {
    hide ReplicaMatches;
    hide CatalogMatches;
    hide LogMatches;
    match step {
      case Claim(_, ids, locked) => ClaimKeepsActor(c, s, r, ids, locked);
      case StartSend(_, id, no) => StartSendKeepsActor(c, s, r, id, no);
      case Reject(_, id) => RejectKeepsActor(c, s, r, id);
      case SendOk(_, id) => SendOkKeepsActor(c, s, r, id);
      case SendTransient(_, id) => TransientKeepsActor(c, s, r, id);
      case _ => AckKeepsActor(c, s, step, r);
    }
  }

  lemma {:induction false} StepKeepsReplicas(c: Config, s: State, step: Step)
    requires Inv(c, s) && Enabled(c, s, step)
    ensures var s' := Apply(c, s, step); forall r :: r in s'.replicas ==> ReplicaMatches(c, s', s'.replicas[r])
  {
    var s' := Apply(c, s, step);
    StepGrows(c, s, step);
    forall r | r in s'.replicas ensures ReplicaMatches(c, s', s'.replicas[r]) {
      assert s'.replicas[r] == At(s', r);
      if Actor(step) == Some(r) {
        StepKeepsActor(c, s, step, r);
      } else {
        OthersUntouched(c, s, step, r);
        assert ReplicaMatches(c, s, At(s, r));
        GrowthKeepsReplica(c, s, s', At(s, r));
      }
    }
  }

  lemma {:induction false} StepKeepsLog(c: Config, s: State, step: Step)
    requires CatalogMatches(s) && LogMatches(c, s) && Enabled(c, s, step)
    ensures LogMatches(c, Apply(c, s, step))
  {
    var s' := Apply(c, s, step);
    Written(c, s, step);
    hide Enabled;
    hide Apply;
    forall no | no in s'.sends ensures Valid(c, s', s'.sends[no]) {
      assert no in s.sends ==> Valid(c, s, s.sends[no]);
    }
    forall id | id in s'.log ensures Valid(c, s', id) {
      assert id in s.log ==> Valid(c, s, id);
    }
  }

  lemma {:induction false} StepKeepsCatalog(c: Config, s: State, step: Step)
    requires CatalogMatches(s) && Enabled(c, s, step)
    ensures CatalogMatches(Apply(c, s, step))
  {
    Written(c, s, step);
    if step.Enqueue? {
    } else {
      KeepsEvents(c, s, step);
      hide Enabled;
      hide Apply;
    }
  }

  /** What a row says of its event never changes. */
  lemma {:induction false} KeepsEvents(c: Config, s: State, step: Step)
    requires Enabled(c, s, step) && !step.Enqueue?
    ensures forall id :: id in Apply(c, s, step).table ==>
              id in s.table && Apply(c, s, step).table[id].event == s.table[id].event
  {
    hide Head;
    hide FirstByKey;
    hide FirstBySweep;
  }

  lemma {:induction false} StepKeepsRow(c: Config, s: State, step: Step, id: Id)
    requires CatalogMatches(s) && Enabled(c, s, step) && id in Apply(c, s, step).table
    requires id in s.table ==> RowMatches(c, s, id)
    requires Actor(step).Some? ==> ReplicaMatches(c, s, At(s, Actor(step).value))
    ensures RowMatches(c, Apply(c, s, step), id)
  {
    StepGrows(c, s, step);
    RowWritten(c, s, step, id);
    hide Apply;
    hide Enabled;
  }

  /** A step that marks a row does so with cause, and claims are stamped with the time. */
  lemma {:induction false} RowWritten(c: Config, s: State, step: Step, id: Id)
    requires Enabled(c, s, step) && id in Apply(c, s, step).table
    requires Actor(step).Some? ==> ReplicaMatches(c, s, At(s, Actor(step).value))
    ensures var s' := Apply(c, s, step);
            var row' := s'.table[id];
            && s.now <= s'.now
            && (row'.publishedAt.Some? ==> (id in s.table && s.table[id].publishedAt.Some?) || id in s.log)
            && (row'.failedAt.Some? ==> (id in s.table && s.table[id].failedAt.Some?) || !Valid(c, s, id))
            && (row'.claimedAt.Some? ==>
                  row'.claimedAt.value == s.now || (id in s.table && row'.claimedAt == s.table[id].claimedAt))
            && (id !in s.table ==> row'.publishedAt.None? && row'.failedAt.None?)
  {
    hide Head;
    hide FirstByKey;
    hide FirstBySweep;
  }

  lemma {:induction false} StepKeepsRows(c: Config, s: State, step: Step)
    requires Inv(c, s) && Enabled(c, s, step)
    ensures var s' := Apply(c, s, step);
            && (forall id :: id in s'.table ==> RowMatches(c, s', id))
            && (forall id :: id in s'.catalog && id !in s'.table ==> id in s'.log)
  {
    var s' := Apply(c, s, step);
    if Actor(step).Some? {
      assert ReplicaMatches(c, s, At(s, Actor(step).value));
    }
    forall id | id in s'.table ensures RowMatches(c, s', id) {
      StepKeepsRow(c, s, step, id);
    }
    DeletedWasPublished(c, s, step);
  }

  lemma {:induction false} DeletedWasPublished(c: Config, s: State, step: Step)
    requires Enabled(c, s, step) && CatalogMatches(s)
    requires forall id :: id in s.table ==> RowMatches(c, s, id)
    requires forall id :: id in s.catalog && id !in s.table ==> id in s.log
    ensures var s' := Apply(c, s, step); forall id :: id in s'.catalog && id !in s'.table ==> id in s'.log
  {
    var s' := Apply(c, s, step);
    hide Head;
    hide FirstByKey;
    forall id | id in s'.catalog && id !in s'.table ensures id in s'.log {
      if step.Sweep? && id in step.ids {
        assert RowMatches(c, s, id);
      }
    }
  }

  lemma {:induction false} StepKeepsInv(c: Config, s: State, step: Step)
    requires Inv(c, s) && Enabled(c, s, step)
    ensures Inv(c, Apply(c, s, step))
  {
    StepKeepsLog(c, s, step);
    StepKeepsCatalog(c, s, step);
    StepKeepsReplicas(c, s, step);
    StepKeepsRows(c, s, step);
  }

  lemma {:induction false} RunKeepsInv(c: Config, s: State, steps: seq<Step>)
    requires Inv(c, s) && Legal(c, s, steps)
    ensures Inv(c, Run(c, s, steps))
    decreases |steps|
  {
    if steps != [] {
      StepKeepsInv(c, s, steps[0]);
      RunKeepsInv(c, Apply(c, s, steps[0]), steps[1..]);
    }
  }

  // ---------------------------------------------------------------- no event is lost

  /**
    After any run, of any number of replicas with any crashes, every event ever enqueued is delivered, or still a
    pending row, or a row marked poison; what the sweep deleted was delivered; and nothing else was: poison never
    reached the log and no row is both published and failed.
   */
  lemma {:induction false} NothingIsLost(c: Config, steps: seq<Step>, id: Id)
    requires Legal(c, INITIAL, steps) && id in Run(c, INITIAL, steps).catalog
    ensures var s := Run(c, INITIAL, steps);
            && (id in s.log || (id in s.table && (Pending(s.table[id]) || s.table[id].failedAt.Some?)))
            && (id !in s.table ==> id in s.log)
            && (id in s.log ==> Valid(c, s, id))
            && (id in s.table && s.table[id].failedAt.Some? ==> id !in s.log && s.table[id].publishedAt.None?)
  {
    RunKeepsInv(c, INITIAL, steps);
    var s := Run(c, INITIAL, steps);
    assert id in s.table ==> RowMatches(c, s, id);
  }

  predicate Terminal(r: Row) {
    r.publishedAt.Some? || r.failedAt.Some?
  }

  lemma {:induction false} StepKeepsTerminal(c: Config, s: State, step: Step, id: Id)
    requires Enabled(c, s, step) && id in s.catalog
    requires id in s.table ==> Terminal(s.table[id])
    ensures var s' := Apply(c, s, step);
            && id in s'.catalog
            && (id in s'.table ==> id in s.table && Terminal(s'.table[id]))
            && (id in s'.table && s.table[id].failedAt.Some? ==> s'.table[id].failedAt.Some?)
            && (id in s'.table && s.table[id].publishedAt.Some? ==> s'.table[id].publishedAt.Some?)
  {
  }

  /**
    A terminal row stays terminal, or is swept: no later step, no late ack of a stale replica makes it claimable
    again.
   */
  lemma {:induction false} TerminalIsForGood(c: Config, s: State, steps: seq<Step>, id: Id, staleMs: int)
    requires Legal(c, s, steps) && id in s.catalog
    requires id in s.table ==> Terminal(s.table[id])
    ensures var s' := Run(c, s, steps);
            && (id in s'.table ==> id in s.table && Terminal(s'.table[id]) && !Claimable(s'.table[id], s'.now, staleMs))
            && (id in s'.table && s.table[id].failedAt.Some? ==> s'.table[id].failedAt.Some?)
            && (id in s'.table && s.table[id].publishedAt.Some? ==> s'.table[id].publishedAt.Some?)
    decreases |steps|
  {
    if steps != [] {
      StepKeepsTerminal(c, s, steps[0], id);
      TerminalIsForGood(c, Apply(c, s, steps[0]), steps[1..], id, staleMs);
    }
  }

  /**
    No pending row is stuck: whoever holds its claim, crashed or not, it is claimable once the stale window has
    passed.
   */
  lemma {:induction false} PendingBecomesClaimable(c: Config, steps: seq<Step>, id: Id, later: int)
    requires Legal(c, INITIAL, steps) && c.staleMs >= 0
    requires var s := Run(c, INITIAL, steps); id in s.table && Pending(s.table[id]) && later > s.now + c.staleMs
    ensures var s := Run(c, INITIAL, steps);
            Enabled(c, s, Elapse(later)) && id in ClaimPool(Apply(c, s, Elapse(later)).table, later, c.staleMs, {})
  {
    RunKeepsInv(c, INITIAL, steps);
    assert RowMatches(c, Run(c, INITIAL, steps), id);
  }

  /** Published at `p` or again since, and not swept. */
  predicate Kept(s: State, id: Id, p: int) {
    p <= s.now && id in s.table && s.table[id].publishedAt.Some? && s.table[id].publishedAt.value >= p
  }

  lemma {:induction false} StepKeepsPublished(c: Config, s: State, step: Step, id: Id, p: int)
    requires Enabled(c, s, step) && Kept(s, id, p) && Apply(c, s, step).now <= p + c.retentionMs && id in s.catalog
    ensures Kept(Apply(c, s, step), id, p)
  {
    if step.Sweep? {
      assert step.ids <= SweepPool(s.table, s.now, c.retentionMs, step.locked);
    }
    hide Head;
    hide FirstByKey;
    hide FirstBySweep;
  }

  lemma {:induction false} ClockAdvances(c: Config, s: State, steps: seq<Step>)
    requires Legal(c, s, steps)
    ensures s.now <= Run(c, s, steps).now
    decreases |steps|
  {
    if steps != [] {
      ClockAdvances(c, Apply(c, s, steps[0]), steps[1..]);
    }
  }

  lemma {:induction false} RunKeepsPublished(c: Config, s: State, steps: seq<Step>, id: Id, p: int)
    requires Legal(c, s, steps) && Kept(s, id, p) && Run(c, s, steps).now <= p + c.retentionMs && id in s.catalog
    ensures Kept(Run(c, s, steps), id, p)
    decreases |steps|
  {
    if steps != [] {
      var s' := Apply(c, s, steps[0]);
      ClockAdvances(c, s', steps[1..]);
      StepKeepsPublished(c, s, steps[0], id, p);
      StepGrows(c, s, steps[0]);
      hide Apply;
      hide Enabled;
      RunKeepsPublished(c, s', steps[1..], id, p);
    }
  }

  lemma {:induction false} AckedIsKept(c: Config, s: State, r: Rid, id: Id)
    requires Enabled(c, s, AckPublished(r)) && id in At(s, r).ok && id in s.table && id in s.catalog
    ensures var s' := Apply(c, s, AckPublished(r)); Kept(s', id, s.now) && id in s'.catalog
  {
  }

  /**
    The retention: from the ack that marks a row published, whatever any replica or sweep does, the row stays in the
    table, marked published no earlier than that ack, until the retention has passed.
   */
  lemma {:induction false} KeptForRetention(c: Config, before: seq<Step>, r: Rid, steps: seq<Step>, id: Id)
    requires Legal(c, INITIAL, before)
    requires var s := Run(c, INITIAL, before);
             && Enabled(c, s, AckPublished(r)) && id in At(s, r).ok && id in s.table
             && Legal(c, Apply(c, s, AckPublished(r)), steps)
             && Run(c, Apply(c, s, AckPublished(r)), steps).now <= s.now + c.retentionMs
    ensures var s := Run(c, INITIAL, before);
            var s' := Run(c, Apply(c, s, AckPublished(r)), steps);
            id in s'.table && s'.table[id].publishedAt.Some? && s'.table[id].publishedAt.value >= s.now
  {
    RunKeepsInv(c, INITIAL, before);
    var s := Run(c, INITIAL, before);
    AckedIsKept(c, s, r, id);
    hide Apply;
    hide Enabled;
    RunKeepsPublished(c, Apply(c, s, AckPublished(r)), steps, id, s.now);
  }
}
