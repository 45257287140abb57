/** The consuming side (packages/events/src/kafka.ts, dedup.ts): skip, commit or retry, and once-only processing. */
module Consumer {
  import opened Common
  import opened Outbox

  /** The value of a message as the consumer gets to see it. */
  datatype Body = Absent | NotJson | NotEnvelope | Parsed(envelope: Envelope)

  datatype Decision = Skip | Handle(envelope: Envelope)

  /** Skip what can never be processed or is not for this consumer; hand the rest to the handler. */
  function Decide(registry: Registry, eventTypes: set<string>, body: Body): Decision {
    match body
    case Parsed(envelope) =>
      if envelope.eventType in eventTypes && Validates(registry, envelope) then Handle(envelope) else Skip
    case _ => Skip
  }

  /**
    What goes wrong with one delivery: nothing; the dedup read or the handler fails before it has an effect; it fails,
    or the process dies, with part of the handler's effect done, or all of it, and before the mark; the process dies
    before the offset is committed.
   */
  datatype Fault = NoFault | BeforeEffect | PartEffect(progress: nat) | AfterEffect | BeforeCommit

  /**
    A registered handler: whether it goes through `processEventOnce`, what it does to the state, and what it leaves
    when it is cut short.
   */
  datatype Handler<!S> = Handler(once: bool, run: (Envelope, S) -> S, part: (Envelope, S, nat) -> S)

  type Handlers<!S> = map<string, Handler<S>>

  /** The handler's own state and the dedup marks in Redis. */
  datatype Service<S> = Service(state: S, marks: set<nat>)

  /** One delivery: the service after it, and whether the offset advanced. */
  function Delivered<S>(hs: Handlers<S>, v: Service<S>, d: Decision, fault: Fault): (Service<S>, bool)
    requires d.Handle? ==> d.envelope.eventType in hs
  {
    match d
    case Skip => (v, !fault.BeforeCommit?)
    case Handle(e) =>
      var h := hs[e.eventType];
      if fault.BeforeEffect? then (v, false)
      else if h.once && e.eventId in v.marks then (v, fault.NoFault?)
      else if fault.PartEffect? then (v.(state := h.part(e, v.state, fault.progress)), false)
      else if fault.AfterEffect? then (v.(state := h.run(e, v.state)), false)
      else (Service(h.run(e, v.state), if h.once then v.marks + {e.eventId} else v.marks), fault.NoFault?)
  }

  datatype Processed = NotExecuted | Executed | Failed

  class KafkaEventConsumer<S> {
    const registry: Registry
    const topicForEvent: string -> string
    var handlers: Handlers<S>
    var topics: set<string>
    var state: S
    var marks: set<nat>

    function Current(): Service<S>
      reads this
    {
      Service(state, marks)
    }

    constructor (registry: Registry, topicForEvent: string -> string, initial: S)
      ensures this.registry == registry && handlers == map[] && topics == {} && Current() == Service(initial, {})
    {
      this.registry := registry;
      this.topicForEvent := topicForEvent;
      handlers := map[];
      topics := {};
      state := initial;
      marks := {};
    }

    method On(eventType: string, handler: Handler<S>)
      modifies this`handlers, this`topics
      ensures handlers.Keys == old(handlers).Keys + {eventType} && topics == old(topics) + {topicForEvent(eventType)}
      ensures handlers[eventType] == handler
      ensures forall t :: t in old(handlers) && t != eventType ==> handlers[t] == old(handlers)[t]
    {
      handlers := handlers[eventType := handler];
      topics := topics + {topicForEvent(eventType)};
    }

    /** The handler alone, cut short where the fault says. */
    method RunHandler(envelope: Envelope, fault: Fault) returns (failed: bool)
      requires envelope.eventType in handlers && !fault.BeforeEffect?
      modifies this`state
      ensures failed == (fault.PartEffect? || fault.AfterEffect?)
      ensures var h := handlers[envelope.eventType];
              state == if fault.PartEffect? then h.part(envelope, old(state), fault.progress)
                       else h.run(envelope, old(state))
    {
      var h := handlers[envelope.eventType];
      if fault.PartEffect? {
        state := h.part(envelope, state, fault.progress);
        return true;
      }
      state := h.run(envelope, state);
      return fault.AfterEffect?;
    }

    /** Check, run, mark after success. */
    method ProcessEventOnce(envelope: Envelope, fault: Fault) returns (r: Processed)
      requires envelope.eventType in handlers && handlers[envelope.eventType].once
      modifies this`state, this`marks
      ensures Current() == Delivered(handlers, old(Current()), Handle(envelope), fault).0
      ensures r == if fault.BeforeEffect? then Failed
                   else if envelope.eventId in old(marks) then NotExecuted
                   else if fault.PartEffect? || fault.AfterEffect? then Failed
                   else Executed
    {
      if fault.BeforeEffect? {
        return Failed;
      }
      if envelope.eventId in marks {
        return NotExecuted;
      }
      var failed := RunHandler(envelope, fault);
      if failed {
        return Failed;
      }
      marks := marks + {envelope.eventId};
      return Executed;
    }

    /** Returning lets the client commit the offset; a failing handler makes it deliver the same message again. */
    method EachMessage(body: Body, fault: Fault) returns (committed: bool)
      modifies this`state, this`marks
      ensures (Current(), committed) ==
              Delivered(handlers, old(Current()), Decide(registry, handlers.Keys, body), fault)
    {
      if !body.Parsed? {
        return !fault.BeforeCommit?;
      }
      var envelope := body.envelope;
      if envelope.eventType !in handlers {
        return !fault.BeforeCommit?;
      }
      if !Validates(registry, envelope) {
        return !fault.BeforeCommit?;
      }
      if handlers[envelope.eventType].once {
        var r := ProcessEventOnce(envelope, fault);
        if r.Failed? {
          return false;
        }
      } else {
        if fault.BeforeEffect? {
          return false;
        }
        var failed := RunHandler(envelope, fault);
        if failed {
          return false;
        }
      }
      return fault.NoFault?;
    }
  }

  /**
    A message that can never be processed never holds up its partition: a delivery that is not cut short commits it.
   */
  lemma {:induction false} MalformedNeverBlocks<S>(
    registry: Registry, hs: Handlers<S>, body: Body, v: Service<S>, fault: Fault)
    ensures Decide(registry, hs.Keys, body).Skip? <==>
            forall e :: body == Parsed(e) ==>
              e.eventType !in hs || (e.eventType in registry && !registry[e.eventType](e.payload))
    ensures Decide(registry, hs.Keys, body).Skip? && !fault.BeforeCommit? ==>
            Delivered(hs, v, Decide(registry, hs.Keys, body), fault) == (v, true)
    ensures Delivered(hs, v, Decide(registry, hs.Keys, body), NoFault).1
  {
  }

  /**
    The offset of a handled message moves exactly when nothing went wrong, with the dedup or without it; and then its
    handler has run to the end on the state, or the event was marked already.
   */
  lemma {:induction false} FailureHoldsOffset<S>(hs: Handlers<S>, v: Service<S>, e: Envelope, fault: Fault)
    requires e.eventType in hs
    ensures var (v', committed) := Delivered(hs, v, Handle(e), fault);
            && (committed <==> fault == NoFault)
            && (committed ==>
                  (hs[e.eventType].once && e.eventId in v.marks && v' == v) ||
                  v'.state == hs[e.eventType].run(e, v.state))
  {
  }

  // ---------------------------------------------------------------- a partition over time

  /** What the consumer of a partition is set up with. */
  datatype Setup<!S> = Setup(registry: Registry, handlers: Handlers<S>, initial: S)

  /** The effect of handling an event. */
  function Effect<S>(x: Setup<S>, e: Envelope, st: S): S {
    if e.eventType in x.handlers then x.handlers[e.eventType].run(e, st) else st
  }

  /**
    A partition and its consumer: `offset` is the next message to deliver, `reached` the highest offset ever passed,
    `halfAt` the offset of a handler that ran and did not complete.
   */
  datatype Partition<S> = Partition(
    log: seq<Body>, offset: nat, reached: nat, service: Service<S>, halfAt: Option<nat>)

  datatype Happening =
    | Produce(body: Body)
    | Deliver(fault: Fault)
    | Rewind(to: nat)
    | Expire(eventId: nat)

  function Start<S>(x: Setup<S>): Partition<S> {
    Partition([], 0, 0, Service(x.initial, {}), None)
  }

  function DecideAt<S>(x: Setup<S>, log: seq<Body>, n: nat): Decision
    requires n < |log|
  {
    Decide(x.registry, x.handlers.Keys, log[n])
  }

  /** A delivery needs a message; after a restart the offset is an earlier one; a mark may expire at any time. */
  predicate Possible<S>(x: Setup<S>, p: Partition<S>, h: Happening) {
    match h
    case Produce(_) => true
    case Deliver(_) => p.offset < |p.log|
    case Rewind(to) => to <= p.offset
    case Expire(_) => true
  }

  /** The handler of the next message runs, at least in part. */
  predicate Runs<S>(x: Setup<S>, p: Partition<S>, fault: Fault)
    requires p.offset < |p.log|
  {
    var d := DecideAt(x, p.log, p.offset);
    d.Handle? && !fault.BeforeEffect? && d.envelope.eventId !in p.service.marks
  }

  function After<S>(x: Setup<S>, p: Partition<S>, h: Happening): Partition<S>
    requires Possible(x, p, h)
  {
    match h
    case Produce(body) => p.(log := p.log + [body])
    case Deliver(fault) =>
      var (service, committed) := Delivered(x.handlers, p.service, DecideAt(x, p.log, p.offset), fault);
      var passed := committed || fault.BeforeCommit?;
      p.(service := service, offset := if committed then p.offset + 1 else p.offset,
         reached := if passed && p.reached == p.offset then p.offset + 1 else p.reached,
         halfAt := if Runs(x, p, fault) then (if passed then None else Some(p.offset)) else p.halfAt)
    case Rewind(to) => p.(offset := to)
    case Expire(eventId) => p.(service := p.service.(marks := p.service.marks - {eventId}))
  }

  predicate AllPossible<S>(x: Setup<S>, p: Partition<S>, hs: seq<Happening>)
    decreases |hs|
  {
    hs == [] || (Possible(x, p, hs[0]) && AllPossible(x, After(x, p, hs[0]), hs[1..]))
  }

  function AfterAll<S>(x: Setup<S>, p: Partition<S>, hs: seq<Happening>): Partition<S>
    requires AllPossible(x, p, hs)
    decreases |hs|
  {
    if hs == [] then p else AfterAll(x, After(x, p, hs[0]), hs[1..])
  }

  // ---------------------------------------------------------------- at least once, for every handler

  /** The delivery runs the handler of message `n` to the end, or finds its event marked by an earlier run. */
  predicate Handles<S(==)>(x: Setup<S>, p: Partition<S>, h: Happening, n: nat)
    requires Possible(x, p, h)
  {
    && h.Deliver? && p.offset == n && DecideAt(x, p.log, n).Handle?
    && var e := DecideAt(x, p.log, n).envelope;
       && e.eventType in x.handlers
       && var handler, v' := x.handlers[e.eventType], After(x, p, h).service;
          if handler.once && e.eventId in p.service.marks then v' == p.service
          else v'.state == handler.run(e, p.service.state) && !h.fault.BeforeEffect? && !h.fault.PartEffect?
  }

  predicate HandledIn<S(==)>(x: Setup<S>, p: Partition<S>, hs: seq<Happening>, n: nat)
    requires AllPossible(x, p, hs)
    decreases |hs|
  {
    hs != [] && (Handles(x, p, hs[0], n) || HandledIn(x, After(x, p, hs[0]), hs[1..], n))
  }

  /** The highest offset passed is moved by a delivery of the message there, and only by one that handles it. */
  lemma {:induction false} PassedIsHandled<S>(x: Setup<S>, p: Partition<S>, h: Happening, n: nat)
    requires Possible(x, p, h) && p.offset <= p.reached <= |p.log| && p.reached <= n
    ensures var p' := After(x, p, h);
            && p'.offset <= p'.reached <= |p'.log| && p.log <= p'.log
            && (n < p'.reached && DecideAt(x, p'.log, n).Handle? ==> Handles(x, p, h, n))
  {
  }

  lemma {:induction false} LogGrows<S>(x: Setup<S>, p: Partition<S>, hs: seq<Happening>)
    requires AllPossible(x, p, hs)
    ensures p.log <= AfterAll(x, p, hs).log
    decreases |hs|
  {
    if hs != [] {
      LogGrows(x, After(x, p, hs[0]), hs[1..]);
    }
  }

  lemma {:induction false} AllPassedHandled<S>(x: Setup<S>, p: Partition<S>, hs: seq<Happening>, n: nat)
    requires AllPossible(x, p, hs) && p.offset <= p.reached <= |p.log| && p.reached <= n
    ensures var p' := AfterAll(x, p, hs);
            && p'.offset <= p'.reached <= |p'.log|
            && (n < p'.reached && DecideAt(x, p'.log, n).Handle? ==> HandledIn(x, p, hs, n))
    decreases |hs|
  {
    if hs != [] {
      var p1 := After(x, p, hs[0]);
      PassedIsHandled(x, p, hs[0], n);
      LogGrows(x, p1, hs[1..]);
      if p1.reached <= n {
        AllPassedHandled(x, p1, hs[1..], n);
      } else {
        StaysBounded(x, p1, hs[1..]);
      }
    }
  }

  lemma {:induction false} StaysBounded<S>(x: Setup<S>, p: Partition<S>, hs: seq<Happening>)
    requires AllPossible(x, p, hs) && p.offset <= p.reached <= |p.log|
    ensures var p' := AfterAll(x, p, hs); p'.offset <= p'.reached <= |p'.log|
    decreases |hs|
  {
    if hs != [] {
      StaysBounded(x, After(x, p, hs[0]), hs[1..]);
    }
  }

  /**
    At least once: after any happenings, of handlers with the dedup or without, each message below the highest offset
    ever passed that is to be handled was handled, by a run of its handler to the end or because its event was marked.
   */
  lemma {:induction false} AtLeastOnce<S>(x: Setup<S>, hs: seq<Happening>, n: nat)
    requires AllPossible(x, Start(x), hs)
    ensures var p := AfterAll(x, Start(x), hs);
            && p.offset <= p.reached <= |p.log|
            && (n < p.reached && DecideAt(x, p.log, n).Handle? ==> HandledIn(x, Start(x), hs, n))
  {
    AllPassedHandled(x, Start(x), hs, n);
  }

  // ---------------------------------------------------------------- one pass over the duplicate-free log

  predicate Knows(es: seq<Envelope>, eventId: nat) {
    exists i :: 0 <= i < |es| && es[i].eventId == eventId
  }

  /** The valid events of the log, each at its first occurrence. */
  function Effective<S>(x: Setup<S>, log: seq<Body>): seq<Envelope> {
    if log == [] then []
    else
      var before := Effective(x, log[..|log| - 1]);
      match DecideAt(x, log, |log| - 1)
      case Skip => before
      case Handle(e) => if Knows(before, e.eventId) then before else before + [e]
  }

  /** The event is the last one the log passed so far has come to, and no other is half done. */
  predicate Latest<S>(x: Setup<S>, p: Partition<S>, e: Envelope)
    requires p.reached <= |p.log|
  {
    var es := Effective(x, p.log[..p.reached]);
    && es != [] && es[|es| - 1] == e
    && (p.halfAt.Some? ==> p.halfAt.value < |p.log| && DecideAt(x, p.log, p.halfAt.value) == Handle(e))
  }

  /** A handler runs only for an event not come to before, or for the latest: what the dedup is there for. */
  predicate InTurn<S>(x: Setup<S>, p: Partition<S>, h: Happening)
    requires Possible(x, p, h)
  {
    && p.reached <= |p.log|
    && (h.Deliver? && Runs(x, p, h.fault) ==>
          var e := DecideAt(x, p.log, p.offset).envelope;
          !Knows(Effective(x, p.log[..p.reached]), e.eventId) || Latest(x, p, e))
  }

  predicate AllInTurn<S>(x: Setup<S>, p: Partition<S>, hs: seq<Happening>)
    requires AllPossible(x, p, hs)
    decreases |hs|
  {
    hs == [] || (InTurn(x, p, hs[0]) && AllInTurn(x, After(x, p, hs[0]), hs[1..]))
  }

  function OnePass<S>(x: Setup<S>, es: seq<Envelope>): S {
    if es == [] then x.initial else Effect(x, es[|es| - 1], OnePass(x, es[..|es| - 1]))
  }

  /** Every handler runs under the dedup; handling an event again, also after a part of it, is handling it once. */
  ghost predicate Repeatable<S(!new)>(x: Setup<S>) {
    && (forall t :: t in x.handlers ==> x.handlers[t].once)
    && (forall e, st :: Effect(x, e, Effect(x, e, st)) == Effect(x, e, st))
    && (forall e: Envelope, st, n :: e.eventType in x.handlers ==>
          Effect(x, e, x.handlers[e.eventType].part(e, st, n)) == Effect(x, e, st))
  }

  lemma {:induction false} EffectiveStep<S>(x: Setup<S>, log: seq<Body>, n: nat)
    requires n < |log|
    ensures var es := Effective(x, log[..n]);
            match DecideAt(x, log, n)
            case Skip => Effective(x, log[..n + 1]) == es
            case Handle(e) => Effective(x, log[..n + 1]) == if Knows(es, e.eventId) then es else es + [e]
  {
    assert log[..n + 1][..n] == log[..n];
  }

  lemma {:induction false} OnePassStep<S>(x: Setup<S>, es: seq<Envelope>, e: Envelope)
    ensures OnePass(x, es + [e]) == Effect(x, e, OnePass(x, es))
  {
    assert (es + [e])[..|es|] == es;
  }

  lemma {:induction false} KnowsStep(es: seq<Envelope>, e: Envelope, eventId: nat)
    ensures Knows(es + [e], eventId) <==> Knows(es, eventId) || e.eventId == eventId
  {
    var longer := es + [e];
    if Knows(es, eventId) {
      var i :| 0 <= i < |es| && es[i].eventId == eventId;
      assert longer[i].eventId == eventId;
    }
    if e.eventId == eventId {
      assert longer[|es|].eventId == eventId;
    }
  }

  lemma {:induction false} EffectiveGrows<S>(x: Setup<S>, log: seq<Body>, m: nat, n: nat, eventId: nat)
    requires m <= n <= |log|
    ensures Knows(Effective(x, log[..m]), eventId) ==> Knows(Effective(x, log[..n]), eventId)
    decreases n
  {
    if m < n {
      EffectiveGrows(x, log, m, n - 1, eventId);
      EffectiveStep(x, log, n - 1);
      var d := DecideAt(x, log, n - 1);
      if d.Handle? {
        KnowsStep(Effective(x, log[..n - 1]), d.envelope, eventId);
      }
    }
  }

  /** What was passed was marked: every handled event up to `reached` is known there. */
  lemma {:induction false} PassedIsKnown<S>(x: Setup<S>, log: seq<Body>, m: nat, n: nat)
    requires m < n <= |log| && DecideAt(x, log, m).Handle?
    ensures Knows(Effective(x, log[..n]), DecideAt(x, log, m).envelope.eventId)
  {
    var e := DecideAt(x, log, m).envelope;
    EffectiveStep(x, log, m);
    KnowsStep(Effective(x, log[..m]), e, e.eventId);
    EffectiveGrows(x, log, m + 1, n, e.eventId);
  }

  /** Up to an event half done, the handler's state is that of one pass up to `reached`. */
  ghost predicate StateMatches<S>(x: Setup<S>, p: Partition<S>)
    requires p.reached <= |p.log|
  {
    var es := Effective(x, p.log[..p.reached]);
    match p.halfAt
    case None => p.service.state == OnePass(x, es)
    case Some(at) =>
      && p.offset <= at <= p.reached && at < |p.log| && DecideAt(x, p.log, at).Handle?
      && var e := DecideAt(x, p.log, at).envelope;
         && e.eventId !in p.service.marks
         && Effect(x, e, p.service.state) == Effect(x, e, OnePass(x, es))
         && ((at == p.reached && !Knows(es, e.eventId)) || (es != [] && es[|es| - 1] == e))
  }

  ghost predicate MarksMatch<S>(x: Setup<S>, p: Partition<S>)
    requires p.reached <= |p.log|
  {
    forall id :: id in p.service.marks ==> Knows(Effective(x, p.log[..p.reached]), id)
  }

  ghost predicate Inv<S>(x: Setup<S>, p: Partition<S>) {
    p.offset <= p.reached <= |p.log| && StateMatches(x, p) && MarksMatch(x, p)
  }

  /** The last event handled once more changes nothing. */
  lemma {:induction false} LatestAgain<S(!new)>(x: Setup<S>, es: seq<Envelope>)
    requires Repeatable(x) && es != []
    ensures Effect(x, es[|es| - 1], OnePass(x, es)) == OnePass(x, es)
  {
  }

  /** The handler about to run finds a state it brings to that of one pass with its event. */
  lemma {:induction false} RunsOnGoodState<S(!new)>(x: Setup<S>, p: Partition<S>, fault: Fault)
    requires Repeatable(x) && Inv(x, p) && Possible(x, p, Deliver(fault)) && Runs(x, p, fault)
    requires InTurn(x, p, Deliver(fault))
    ensures var es := Effective(x, p.log[..p.reached]);
            var e := DecideAt(x, p.log, p.offset).envelope;
            && Effect(x, e, p.service.state) == Effect(x, e, OnePass(x, es))
            && (Knows(es, e.eventId) ==> es != [] && es[|es| - 1] == e)
            && (p.offset < p.reached ==> Knows(es, e.eventId))
  {
    if p.offset < p.reached {
      PassedIsKnown(x, p.log, p.offset, p.reached);
    }
  }

  /** What a run, whole or cut short, leaves of the state. */
  function Ran<S>(x: Setup<S>, e: Envelope, st: S, fault: Fault): S
    requires e.eventType in x.handlers
  {
    var h := x.handlers[e.eventType];
    if fault.PartEffect? then h.part(e, st, fault.progress) else h.run(e, st)
  }

  /** What a delivery that runs a handler writes. */
  lemma {:induction false} RunWrites<S>(x: Setup<S>, p: Partition<S>, fault: Fault)
    requires forall t :: t in x.handlers ==> x.handlers[t].once
    requires Possible(x, p, Deliver(fault)) && Runs(x, p, fault)
    ensures var e := DecideAt(x, p.log, p.offset).envelope;
            var passed := fault.NoFault? || fault.BeforeCommit?;
            var marks := if passed then p.service.marks + {e.eventId} else p.service.marks;
            After(x, p, Deliver(fault)) ==
            Partition(p.log, if fault.NoFault? then p.offset + 1 else p.offset,
                      if passed && p.reached == p.offset then p.offset + 1 else p.reached,
                      Service(Ran(x, e, p.service.state, fault), marks), if passed then None else Some(p.offset))
  {
  }

  /** What a delivery that runs none does. */
  lemma {:induction false} PassWrites<S>(x: Setup<S>, p: Partition<S>, fault: Fault)
    requires forall t :: t in x.handlers ==> x.handlers[t].once
    requires Possible(x, p, Deliver(fault)) && !Runs(x, p, fault)
    ensures var p' := After(x, p, Deliver(fault));
            && p'.service == p.service && p'.log == p.log && p'.halfAt == p.halfAt
            && (p'.reached == p.reached || p'.reached == p.offset + 1 == p.reached + 1)
            && (p'.offset == p.offset ||
                (p'.offset == p.offset + 1 && (p.reached == p.offset ==> p'.reached == p.offset + 1)))
    ensures var d, p' := DecideAt(x, p.log, p.offset), After(x, p, Deliver(fault));
            d.Handle? && p' != p ==> d.envelope.eventId in p.service.marks
  {
  }

  lemma {:induction false} RanAgain<S(!new)>(x: Setup<S>, e: Envelope, st: S, good: S, fault: Fault)
    requires Repeatable(x) && e.eventType in x.handlers && Effect(x, e, st) == Effect(x, e, good)
    ensures Effect(x, e, Ran(x, e, st, fault)) == Effect(x, e, good)
    ensures !fault.PartEffect? ==> Ran(x, e, st, fault) == Effect(x, e, good)
  {
  }

  lemma {:induction false} RunKeepsInv<S(!new)>(x: Setup<S>, p: Partition<S>, fault: Fault)
    requires Repeatable(x) && Inv(x, p) && Possible(x, p, Deliver(fault)) && Runs(x, p, fault)
    requires InTurn(x, p, Deliver(fault))
    ensures Inv(x, After(x, p, Deliver(fault)))
  {
    var e := DecideAt(x, p.log, p.offset).envelope;
    var es := Effective(x, p.log[..p.reached]);
    RunsOnGoodState(x, p, fault);
    RunWrites(x, p, fault);
    RanAgain(x, e, p.service.state, OnePass(x, es), fault);
    if es != [] {
      LatestAgain(x, es);
    }
    if p.offset == p.reached {
      EffectiveStep(x, p.log, p.reached);
      OnePassStep(x, es, e);
    }
    forall id ensures Knows(es + [e], id) <==> Knows(es, id) || e.eventId == id {
      KnowsStep(es, e, id);
    }
    hide After;
    hide Ran;
    hide Effect;
    hide Effective;
    hide OnePass;
    hide Knows;
    hide Repeatable;
  }

  /** A delivery that runs no handler. */
  lemma {:induction false} PassKeepsInv<S(!new)>(x: Setup<S>, p: Partition<S>, fault: Fault)
    requires Repeatable(x) && Inv(x, p) && Possible(x, p, Deliver(fault)) && !Runs(x, p, fault)
    ensures Inv(x, After(x, p, Deliver(fault)))
  {
    PassWrites(x, p, fault);
    if p.offset == p.reached {
      EffectiveStep(x, p.log, p.reached);
    }
    hide After;
    hide Effect;
    hide Effective;
    hide OnePass;
    hide Knows;
    hide Repeatable;
  }

  lemma {:induction false} StepKeepsInv<S(!new)>(x: Setup<S>, p: Partition<S>, h: Happening)
    requires Repeatable(x) && Inv(x, p) && Possible(x, p, h) && InTurn(x, p, h)
    ensures Inv(x, After(x, p, h))
  {
    match h {
      case Produce(body) =>
        assert (p.log + [body])[..p.reached] == p.log[..p.reached];
      case Deliver(fault) =>
        if Runs(x, p, fault) {
          RunKeepsInv(x, p, fault);
        } else {
          PassKeepsInv(x, p, fault);
        }
      case Rewind(to) =>
      case Expire(eventId) =>
    }
  }

  lemma {:induction false} AllKeepInv<S(!new)>(x: Setup<S>, p: Partition<S>, hs: seq<Happening>)
    requires Repeatable(x) && Inv(x, p) && AllPossible(x, p, hs) && AllInTurn(x, p, hs)
    ensures Inv(x, AfterAll(x, p, hs))
    decreases |hs|
  {
    if hs != [] {
      StepKeepsInv(x, p, hs[0]);
      AllKeepInv(x, After(x, p, hs[0]), hs[1..]);
    }
  }

  lemma {:induction false} StartInv<S>(x: Setup<S>)
    ensures Inv(x, Start(x))
  {
    var p := Start(x);
    assert p.log[..p.reached] == [];
  }

  /**
    Effectively once: whenever the consumer has caught up with its partition, after any redeliveries, failed and
    half-done attempts, crashes, rewinds and expired marks that made no older event run again, the state of a repeatable
    handler is that of one pass over the valid events of the log without duplicates.
   */
  lemma {:induction false} EffectivelyOnce<S(!new)>(x: Setup<S>, hs: seq<Happening>)
    requires Repeatable(x) && AllPossible(x, Start(x), hs) && AllInTurn(x, Start(x), hs)
    requires var p := AfterAll(x, Start(x), hs); p.offset == |p.log|
    ensures var p := AfterAll(x, Start(x), hs); p.service.state == OnePass(x, Effective(x, p.log))
  {
    StartInv(x);
    AllKeepInv(x, Start(x), hs);
    var p := AfterAll(x, Start(x), hs);
    assert p.log[..p.reached] == p.log;
  }

  /** A delivery without a fault always moves the partition on, and the deliveries that remain are one per message. */
  lemma {:induction false} CatchesUp<S>(x: Setup<S>, p: Partition<S>, n: nat)
    requires p.offset + n == |p.log|
    ensures var hs := seq(n, _ => Deliver(NoFault)); AllPossible(x, p, hs) && AfterAll(x, p, hs).offset == |p.log|
    ensures AfterAll(x, p, seq(n, _ => Deliver(NoFault))).log == p.log
    decreases n
  {
    var hs := seq(n, _ => Deliver(NoFault));
    if n > 0 {
      assert hs[1..] == seq(n - 1, _ => Deliver(NoFault));
      assert Possible(x, p, hs[0]);
      CatchesUp(x, After(x, p, hs[0]), n - 1);
    }
  }

  /** Every event come to is still marked. */
  ghost predicate AllMarked<S>(x: Setup<S>, p: Partition<S>) {
    && p.offset <= p.reached <= |p.log|
    && forall id :: Knows(Effective(x, p.log[..p.reached]), id) ==> id in p.service.marks
  }

  lemma {:induction false} StepAllMarked<S>(x: Setup<S>, p: Partition<S>, h: Happening)
    requires (forall t :: t in x.handlers ==> x.handlers[t].once) && AllMarked(x, p) && Possible(x, p, h) && !h.Expire?
    ensures InTurn(x, p, h) && AllMarked(x, After(x, p, h))
  {
    if h.Produce? {
      assert (p.log + [h.body])[..p.reached] == p.log[..p.reached];
    } else if h.Deliver? && p.offset == p.reached {
      EffectiveStep(x, p.log, p.reached);
      var d, es := DecideAt(x, p.log, p.offset), Effective(x, p.log[..p.reached]);
      if d.Handle? {
        forall id ensures Knows(es + [d.envelope], id) <==> Knows(es, id) || d.envelope.eventId == id {
          KnowsStep(es, d.envelope, id);
        }
      }
    }
    hide Effective;
    hide Knows;
  }

  lemma {:induction false} AllInTurnWhileMarked<S>(x: Setup<S>, p: Partition<S>, hs: seq<Happening>)
    requires (forall t :: t in x.handlers ==> x.handlers[t].once) && AllMarked(x, p) && AllPossible(x, p, hs)
    requires forall h :: h in hs ==> !h.Expire?
    ensures AllInTurn(x, p, hs)
    decreases |hs|
  {
    if hs != [] {
      assert hs[0] in hs;
      StepAllMarked(x, p, hs[0]);
      AllInTurnWhileMarked(x, After(x, p, hs[0]), hs[1..]);
    }
  }

  /** As long as no mark expires, no older event ever runs again, whatever is redelivered or cut short. */
  lemma {:induction false} MarksKeepTurns<S>(x: Setup<S>, hs: seq<Happening>)
    requires (forall t :: t in x.handlers ==> x.handlers[t].once) && AllPossible(x, Start(x), hs)
    requires forall h :: h in hs ==> !h.Expire?
    ensures AllInTurn(x, Start(x), hs)
  {
    assert Start(x).log[..0] == [];
    AllInTurnWhileMarked(x, Start(x), hs);
  }

  // ---------------------------------------------------------------- exactly when

  /** Two consumers that differ in what their handlers do, and in nothing else. */
  ghost predicate SameWiring<S>(x: Setup<S>, y: Setup<S>) {
    x.registry == y.registry && x.handlers.Keys == y.handlers.Keys &&
    forall t :: t in x.handlers ==> x.handlers[t].once && y.handlers[t].once
  }

  predicate SameBooks<S>(p: Partition<S>, q: Partition<S>) {
    && p.log == q.log && p.offset == q.offset && p.reached == q.reached
    && p.service.marks == q.service.marks && p.halfAt == q.halfAt
  }

  lemma {:induction false} SameEffective<S>(x: Setup<S>, y: Setup<S>, log: seq<Body>)
    requires SameWiring(x, y)
    ensures Effective(x, log) == Effective(y, log)
    decreases |log|
  {
    if log != [] {
      SameEffective(x, y, log[..|log| - 1]);
    }
  }

  lemma {:induction false} StepSameBooks<S>(x: Setup<S>, y: Setup<S>, p: Partition<S>, q: Partition<S>, h: Happening)
    requires SameWiring(x, y) && SameBooks(p, q) && Possible(x, p, h)
    ensures Possible(y, q, h) && SameBooks(After(x, p, h), After(y, q, h)) && (InTurn(x, p, h) <==> InTurn(y, q, h))
  {
    if h.Deliver? && p.reached <= |p.log| {
      SameEffective(x, y, p.log[..p.reached]);
    }
  }

  lemma {:induction false} AllSameBooks<S>(
    x: Setup<S>, y: Setup<S>, p: Partition<S>, q: Partition<S>, hs: seq<Happening>)
    requires SameWiring(x, y) && SameBooks(p, q) && AllPossible(x, p, hs)
    ensures AllPossible(y, q, hs) && SameBooks(AfterAll(x, p, hs), AfterAll(y, q, hs))
    ensures AllInTurn(x, p, hs) <==> AllInTurn(y, q, hs)
    decreases |hs|
  {
    if hs != [] {
      StepSameBooks(x, y, p, q, hs[0]);
      AllSameBooks(x, y, After(x, p, hs[0]), After(y, q, hs[0]), hs[1..]);
    }
  }

  /** The event at the end of the list, unless it is there already. */
  function Noted(es: seq<Envelope>, e: Envelope): seq<Envelope> {
    if es != [] && es[|es| - 1] == e then es else es + [e]
  }

  /** The handler that writes down what it is given, also when it is cut short. */
  function WriteDown(): Handler<seq<Envelope>> {
    Handler(true, (e: Envelope, st) => Noted(st, e), (e: Envelope, st, n) => Noted(st, e))
  }

  function WritingDown(x: Setup<seq<Envelope>>): Setup<seq<Envelope>> {
    Setup(x.registry, map t | t in x.handlers :: WriteDown(), [])
  }

  /** Two entries are of one event. */
  predicate Doubled(es: seq<Envelope>) {
    exists i, j :: 0 <= i < j < |es| && es[i].eventId == es[j].eventId
  }

  lemma {:induction false} EffectiveNotDoubled<S>(x: Setup<S>, log: seq<Body>)
    ensures !Doubled(Effective(x, log))
    decreases |log|
  {
    if log != [] {
      EffectiveNotDoubled(x, log[..|log| - 1]);
    }
  }

  lemma {:induction false} WrittenDown(x: Setup<seq<Envelope>>, log: seq<Body>)
    requires forall t :: t in x.handlers ==> x.handlers[t] == WriteDown()
    requires x.initial == []
    ensures OnePass(x, Effective(x, log)) == Effective(x, log)
    decreases |log|
  {
    if log != [] {
      var before := log[..|log| - 1];
      WrittenDown(x, before);
      EffectiveNotDoubled(x, log);
      var d := DecideAt(x, log, |log| - 1);
      if d.Handle? {
        OnePassStep(x, Effective(x, before), d.envelope);
      }
    }
  }

  lemma {:induction false} DoubledStays(es: seq<Envelope>, e: Envelope)
    requires Doubled(es)
    ensures Doubled(Noted(es, e))
  {
    var i, j :| 0 <= i < j < |es| && es[i].eventId == es[j].eventId;
    assert Noted(es, e)[i].eventId == Noted(es, e)[j].eventId;
  }

  lemma {:induction false} AgainDoubles(es: seq<Envelope>, e: Envelope)
    requires Knows(es, e.eventId) && es[|es| - 1] != e
    ensures Doubled(Noted(es, e))
  {
    var i :| 0 <= i < |es| && es[i].eventId == e.eventId;
    assert Noted(es, e)[i].eventId == Noted(es, e)[|es|].eventId;
  }

  /** While handlers run in turn, what is written down is the events passed, and one more half done. */
  ghost predicate Recorded(x: Setup<seq<Envelope>>, p: Partition<seq<Envelope>>) {
    && p.offset <= p.reached <= |p.log| && MarksMatch(x, p)
    && var es := Effective(x, p.log[..p.reached]);
       match p.halfAt
       case None => p.service.state == es
       case Some(at) =>
         && p.offset <= at <= p.reached && at < |p.log| && DecideAt(x, p.log, at).Handle?
         && var e := DecideAt(x, p.log, at).envelope;
            && e.eventId !in p.service.marks
            && ((es != [] && es[|es| - 1] == e && p.service.state == es) ||
                (at == p.reached && !Knows(es, e.eventId) && p.service.state == es + [e]))
  }

  /** The consumer that writes down. */
  ghost predicate Writes(x: Setup<seq<Envelope>>) {
    x.initial == [] && forall t :: t in x.handlers ==> x.handlers[t] == WriteDown()
  }

  /** The event is new, at the end of what was passed. */
  lemma {:induction false} NewRecorded(
    x: Setup<seq<Envelope>>, p: Partition<seq<Envelope>>, e: Envelope, p': Partition<seq<Envelope>>, passed: bool)
    requires Recorded(x, p) && p.offset == p.reached < |p.log| && DecideAt(x, p.log, p.offset) == Handle(e)
    requires !Knows(Effective(x, p.log[..p.reached]), e.eventId)
    requires p'.log == p.log && p'.offset <= p'.reached && p'.service.state == Noted(p.service.state, e)
    requires p.offset <= p'.offset
    requires p'.reached == (if passed then p.offset + 1 else p.offset)
    requires p'.service.marks == if passed then p.service.marks + {e.eventId} else p.service.marks
    requires p'.halfAt == if passed then None else Some(p.offset)
    ensures Recorded(x, p')
  {
    var es := Effective(x, p.log[..p.reached]);
    EffectiveStep(x, p.log, p.reached);
    forall id ensures Knows(es + [e], id) <==> Knows(es, id) || e.eventId == id {
      KnowsStep(es, e, id);
    }
    assert es != [] ==> es[|es| - 1] != e;
    hide Effective;
    hide Knows;
  }

  /** The event is the latest. */
  lemma {:induction false} LatestRecorded(
    x: Setup<seq<Envelope>>, p: Partition<seq<Envelope>>, e: Envelope, p': Partition<seq<Envelope>>, passed: bool)
    requires Recorded(x, p) && p.offset < |p.log| && DecideAt(x, p.log, p.offset) == Handle(e)
    requires e.eventId !in p.service.marks && Latest(x, p, e)
    requires p'.log == p.log && p.offset <= p'.offset <= p'.reached && p'.service.state == Noted(p.service.state, e)
    requires p'.reached == (if passed && p.reached == p.offset then p.offset + 1 else p.reached)
    requires p'.service.marks == if passed then p.service.marks + {e.eventId} else p.service.marks
    requires !passed ==> p'.offset == p.offset
    requires p'.halfAt == if passed then None else Some(p.offset)
    ensures Recorded(x, p')
  {
    var es := Effective(x, p.log[..p.reached]);
    assert Knows(es, e.eventId);
    if p.offset == p.reached {
      EffectiveStep(x, p.log, p.reached);
    }
    hide Effective;
    hide Knows;
  }

  lemma {:induction false} RunRecorded(x: Setup<seq<Envelope>>, p: Partition<seq<Envelope>>, fault: Fault)
    requires Writes(x) && Recorded(x, p) && Possible(x, p, Deliver(fault)) && InTurn(x, p, Deliver(fault))
    requires Runs(x, p, fault)
    ensures Recorded(x, After(x, p, Deliver(fault)))
  {
    var e := DecideAt(x, p.log, p.offset).envelope;
    var p' := After(x, p, Deliver(fault));
    var passed := fault.NoFault? || fault.BeforeCommit?;
    RunWrites(x, p, fault);
    assert p'.service.state == Noted(p.service.state, e);
    hide After;
    if p.offset < p.reached {
      PassedIsKnown(x, p.log, p.offset, p.reached);
    }
    if Latest(x, p, e) {
      hide Latest;
      LatestRecorded(x, p, e, p', passed);
    } else {
      NewRecorded(x, p, e, p', passed);
    }
  }

  lemma {:induction false} StepRecorded(x: Setup<seq<Envelope>>, p: Partition<seq<Envelope>>, h: Happening)
    requires Writes(x) && Recorded(x, p) && Possible(x, p, h) && InTurn(x, p, h)
    ensures Recorded(x, After(x, p, h))
  {
    match h {
      case Produce(body) =>
        assert (p.log + [body])[..p.reached] == p.log[..p.reached];
      case Deliver(fault) =>
        if Runs(x, p, fault) {
          RunRecorded(x, p, fault);
        } else {
          PassRecorded(x, p, fault);
        }
      case Rewind(to) =>
      case Expire(eventId) =>
    }
    hide Delivered;
    hide Effective;
  }

  lemma {:induction false} PassRecorded(x: Setup<seq<Envelope>>, p: Partition<seq<Envelope>>, fault: Fault)
    requires Writes(x) && Recorded(x, p) && Possible(x, p, Deliver(fault)) && !Runs(x, p, fault)
    ensures Recorded(x, After(x, p, Deliver(fault)))
  {
    PassWrites(x, p, fault);
    if p.offset == p.reached {
      EffectiveStep(x, p.log, p.reached);
    }
    hide After;
    hide Effective;
    hide Knows;
  }

  /** The first handler that runs out of turn writes an event down a second time. */
  lemma {:induction false} OutOfTurnDoubles(x: Setup<seq<Envelope>>, p: Partition<seq<Envelope>>, h: Happening)
    requires Writes(x) && Recorded(x, p) && Possible(x, p, h) && !InTurn(x, p, h)
    ensures Doubled(After(x, p, h).service.state)
  {
    var e := DecideAt(x, p.log, p.offset).envelope;
    var es := Effective(x, p.log[..p.reached]);
    assert Knows(es, e.eventId) && !Latest(x, p, e);
    if p.service.state == es {
      AgainDoubles(es, e);
    } else {
      var half := DecideAt(x, p.log, p.halfAt.value).envelope;
      KnowsStep(es, half, e.eventId);
      AgainDoubles(es + [half], e);
    }
  }

  lemma {:induction false} StepStaysDoubled(x: Setup<seq<Envelope>>, p: Partition<seq<Envelope>>, h: Happening)
    requires Writes(x) && Doubled(p.service.state) && Possible(x, p, h)
    ensures Doubled(After(x, p, h).service.state)
  {
    if h.Deliver? {
      var d := DecideAt(x, p.log, p.offset);
      if d.Handle? {
        DoubledStays(p.service.state, d.envelope);
      }
    }
  }

  lemma {:induction false} AllStayDoubled(x: Setup<seq<Envelope>>, p: Partition<seq<Envelope>>, hs: seq<Happening>)
    requires Writes(x) && Doubled(p.service.state) && AllPossible(x, p, hs)
    ensures Doubled(AfterAll(x, p, hs).service.state)
    decreases |hs|
  {
    if hs != [] {
      StepStaysDoubled(x, p, hs[0]);
      AllStayDoubled(x, After(x, p, hs[0]), hs[1..]);
    }
  }

  lemma {:induction false} OutOfTurnShows(x: Setup<seq<Envelope>>, p: Partition<seq<Envelope>>, hs: seq<Happening>)
    requires Writes(x) && Recorded(x, p) && AllPossible(x, p, hs) && !AllInTurn(x, p, hs)
    ensures Doubled(AfterAll(x, p, hs).service.state)
    decreases |hs|
  {
    if InTurn(x, p, hs[0]) {
      StepRecorded(x, p, hs[0]);
      OutOfTurnShows(x, After(x, p, hs[0]), hs[1..]);
    } else {
      OutOfTurnDoubles(x, p, hs[0]);
      AllStayDoubled(x, After(x, p, hs[0]), hs[1..]);
    }
  }

  /** The state is that of one pass over the log. */
  ghost predicate IsOnePass<S>(x: Setup<S>, p: Partition<S>) {
    p.service.state == OnePass(x, Effective(x, p.log))
  }

  /**
    Effectively once, exactly: after any happenings at all that leave the consumer caught up, the state of every
    repeatable handler is that of one pass if and only if no handler ran for an event older than the latest.
   */
  lemma {:induction false} InTurnDecidesOnce(x: Setup<seq<Envelope>>, hs: seq<Happening>)
    requires SameWiring(x, x) && AllPossible(x, Start(x), hs)
    requires AfterAll(x, Start(x), hs).offset == |AfterAll(x, Start(x), hs).log|
    ensures (forall y :: Repeatable(y) && SameWiring(x, y) ==>
               AllPossible(y, Start(y), hs) && IsOnePass(y, AfterAll(y, Start(y), hs))) <==>
            AllInTurn(x, Start(x), hs)
  {
    forall y | Repeatable(y) && SameWiring(x, y)
      ensures AllPossible(y, Start(y), hs)
      ensures AllInTurn(x, Start(x), hs) ==> IsOnePass(y, AfterAll(y, Start(y), hs))
    {
      AllSameBooks(x, y, Start(x), Start(y), hs);
      if AllInTurn(x, Start(x), hs) {
        EffectivelyOnce(y, hs);
      }
    }
    if !AllInTurn(x, Start(x), hs) {
      var y := WritingDown(x);
      AllSameBooks(x, y, Start(x), Start(y), hs);
      assert Start(y).log[..0] == [];
      OutOfTurnShows(y, Start(y), hs);
      var p := AfterAll(y, Start(y), hs);
      WrittenDown(y, p.log);
      EffectiveNotDoubled(y, p.log);
      assert Repeatable(y) && SameWiring(x, y) && !IsOnePass(y, p);
    }
  }

  // ---------------------------------------------------------------- a duplicate whose mark has expired

  ghost predicate CaughtUp<S>(x: Setup<S>, hs: seq<Happening>) {
    && AllPossible(x, Start(x), hs) && AllInTurn(x, Start(x), hs)
    && AfterAll(x, Start(x), hs).offset == |AfterAll(x, Start(x), hs).log|
  }

  /** A handled event of the log that is no longer marked. */
  ghost predicate LostMark<S>(x: Setup<S>, p: Partition<S>, e: Envelope) {
    e in Effective(x, p.log) && e.eventId !in p.service.marks
  }

  /** The event is published again and delivered. */
  function Again<S>(x: Setup<S>, p: Partition<S>, e: Envelope): Partition<S>
    requires p.offset <= |p.log|
  {
    After(x, After(x, p, Produce(Parsed(e))), Deliver(NoFault))
  }

  lemma {:induction false} EffectiveIsHandled<S>(x: Setup<S>, log: seq<Body>, e: Envelope)
    requires e in Effective(x, log)
    ensures Decide(x.registry, x.handlers.Keys, Parsed(e)) == Handle(e) && Knows(Effective(x, log), e.eventId)
    decreases |log|
  {
    if e in Effective(x, log[..|log| - 1]) {
      EffectiveIsHandled(x, log[..|log| - 1], e);
    }
    var i :| 0 <= i < |Effective(x, log)| && Effective(x, log)[i] == e;
  }

  /** The duplicate adds nothing to the log's events, and its handler runs on the state of one pass. */
  lemma {:induction false} DuplicateRuns<S(!new)>(x: Setup<S>, hs: seq<Happening>, e: Envelope)
    requires Repeatable(x) && CaughtUp(x, hs) && LostMark(x, AfterAll(x, Start(x), hs), e)
    ensures var p := AfterAll(x, Start(x), hs);
            var p' := Again(x, p, e);
            && p'.offset == |p'.log| && Effective(x, p'.log) == Effective(x, p.log)
            && p'.service.state == Effect(x, e, OnePass(x, Effective(x, p.log)))
  {
    var p := AfterAll(x, Start(x), hs);
    EffectivelyOnce(x, hs);
    EffectiveIsHandled(x, p.log, e);
    var log' := p.log + [Parsed(e)];
    assert log'[..|p.log|] == p.log && log'[..|p.log| + 1] == log';
    EffectiveStep(x, log', |p.log|);
  }

  /** After the same happenings and the duplicate, the state is still that of one pass over the log. */
  ghost predicate KeepsOnePass<S>(x: Setup<S>, hs: seq<Happening>, e: Envelope) {
    CaughtUp(x, hs) &&
    var p' := Again(x, AfterAll(x, Start(x), hs), e);
    p'.service.state == OnePass(x, Effective(x, p'.log))
  }

  lemma {:induction false} LatestDuplicateIsHarmless<S(!new)>(x: Setup<S>, hs: seq<Happening>, e: Envelope)
    requires Repeatable(x) && CaughtUp(x, hs) && LostMark(x, AfterAll(x, Start(x), hs), e)
    requires var es := Effective(x, AfterAll(x, Start(x), hs).log); es[|es| - 1] == e
    ensures KeepsOnePass(x, hs, e)
  {
    DuplicateRuns(x, hs, e);
    LatestAgain(x, Effective(x, AfterAll(x, Start(x), hs).log));
  }

  /** The handler that keeps the last event. */
  function KeepLast(): Handler<Option<Envelope>> {
    Handler(true, (e: Envelope, st) => Some(e), (e: Envelope, st, n) => st)
  }

  function KeepingLast(x: Setup<Option<Envelope>>): Setup<Option<Envelope>> {
    Setup(x.registry, map t | t in x.handlers :: KeepLast(), None)
  }

  lemma {:induction false} OlderDuplicateHarms(x: Setup<Option<Envelope>>, hs: seq<Happening>, e: Envelope)
    requires Repeatable(x) && CaughtUp(x, hs) && LostMark(x, AfterAll(x, Start(x), hs), e)
    requires var es := Effective(x, AfterAll(x, Start(x), hs).log); es[|es| - 1] != e
    ensures Repeatable(KeepingLast(x)) && SameWiring(x, KeepingLast(x)) && !KeepsOnePass(KeepingLast(x), hs, e)
  {
    var y := KeepingLast(x);
    AllSameBooks(x, y, Start(x), Start(y), hs);
    var log := AfterAll(x, Start(x), hs).log;
    SameEffective(x, y, log);
    DuplicateRuns(y, hs, e);
    EffectiveIsHandled(x, log, e);
    var es := Effective(x, log);
    EffectiveIsHandled(x, log, es[|es| - 1]);
  }

  /**
    When a duplicate without its mark does no harm: after any happenings that leave the consumer caught up, a handled
    event that lost its mark, published and delivered again, keeps the state of every repeatable handler that of one
    pass if and only if it is the last event the log has come to.
   */
  lemma {:induction false} ExpiredDuplicateIsHarmless(x: Setup<Option<Envelope>>, hs: seq<Happening>, e: Envelope)
    requires Repeatable(x) && CaughtUp(x, hs) && LostMark(x, AfterAll(x, Start(x), hs), e)
    ensures var es := Effective(x, AfterAll(x, Start(x), hs).log);
            (forall y :: Repeatable(y) && SameWiring(x, y) ==> KeepsOnePass(y, hs, e)) <==> es[|es| - 1] == e
  {
    var log := AfterAll(x, Start(x), hs).log;
    var es := Effective(x, log);
    if es[|es| - 1] == e {
      forall y | Repeatable(y) && SameWiring(x, y) ensures KeepsOnePass(y, hs, e) {
        AllSameBooks(x, y, Start(x), Start(y), hs);
        SameEffective(x, y, log);
        LatestDuplicateIsHarmless(y, hs, e);
      }
    } else {
      OlderDuplicateHarms(x, hs, e);
    }
  }

  function KeepPayload(): Handler<string> {
    Handler(true, (e: Envelope, st) => e.payload, (e: Envelope, st, n) => st)
  }

  /**
    Why the mark has to outlive the duplicates, in a run: two events are handled, the mark of the first expires, its
    duplicate puts the first payload back.
   */
  lemma {:induction false} ExpiredMarkRevertsState(x: Setup<string>, a: Envelope, b: Envelope)
    requires forall t :: t in x.handlers ==> x.handlers[t] == KeepPayload()
    requires a.eventId != b.eventId && a.payload != b.payload
    requires Decide(x.registry, x.handlers.Keys, Parsed(a)).Handle? &&
             Decide(x.registry, x.handlers.Keys, Parsed(b)).Handle?
    ensures Repeatable(x)
    ensures var hs := [Produce(Parsed(a)), Produce(Parsed(b)), Deliver(NoFault), Deliver(NoFault), Expire(a.eventId)];
            && CaughtUp(x, hs)
            && var p' := Again(x, AfterAll(x, Start(x), hs), a);
               p'.service.state == a.payload && OnePass(x, Effective(x, p'.log)) == b.payload
  {
    var hs := [Produce(Parsed(a)), Produce(Parsed(b)), Deliver(NoFault), Deliver(NoFault), Expire(a.eventId)];
    TwoHandled(x, a, b);
    DuplicateRuns(x, hs, a);
    OnePassStep(x, [a], b);
    assert [a] + [b] == [a, b];
  }

  lemma {:induction false} TwoHandled(x: Setup<string>, a: Envelope, b: Envelope)
    requires forall t :: t in x.handlers ==> x.handlers[t].once
    requires a.eventId != b.eventId
    requires Decide(x.registry, x.handlers.Keys, Parsed(a)).Handle? &&
             Decide(x.registry, x.handlers.Keys, Parsed(b)).Handle?
    ensures var hs := [Produce(Parsed(a)), Produce(Parsed(b)), Deliver(NoFault), Deliver(NoFault), Expire(a.eventId)];
            && CaughtUp(x, hs)
            && var p := AfterAll(x, Start(x), hs);
               Effective(x, p.log) == [a, b] && LostMark(x, p, a)
  {
    var p1, p2, p3, p4, p5 := TwoHandledSteps(x, a, b);
    TwoEffective(x, a, b);
    OnlyLost(x, p5, a, b);
    hide *;
    var first, second, deliver, expire := Produce(Parsed(a)), Produce(Parsed(b)), Deliver(NoFault), Expire(a.eventId);
    NothingHappens(x, p5);
    HappensOnce(x, p4, expire, [], p5);
    HappensOnce(x, p3, deliver, [expire] + [], p4);
    HappensOnce(x, p2, deliver, [deliver] + ([expire] + []), p3);
    HappensOnce(x, p1, second, [deliver] + ([deliver] + ([expire] + [])), p2);
    HappensOnce(x, Start(x), first, [second] + ([deliver] + ([deliver] + ([expire] + []))), p1);
    Listed(first, second, deliver, deliver, expire);
    ThenCaughtUp(x, [first, second, deliver, deliver, expire], p5);
  }

  lemma {:induction false} Listed<T>(a: T, b: T, c: T, d: T, e: T)
    ensures [a] + ([b] + ([c] + ([d] + ([e] + [])))) == [a, b, c, d, e]
  {
  }

  lemma {:induction false} TwoHandledSteps(x: Setup<string>, a: Envelope, b: Envelope)
    returns (p1: Partition<string>, p2: Partition<string>, p3: Partition<string>, p4: Partition<string>,
             p5: Partition<string>)
    requires forall t :: t in x.handlers ==> x.handlers[t].once
    requires a.eventId != b.eventId
    requires Decide(x.registry, x.handlers.Keys, Parsed(a)).Handle? &&
             Decide(x.registry, x.handlers.Keys, Parsed(b)).Handle?
    ensures Possible(x, Start(x), Produce(Parsed(a))) && p1 == After(x, Start(x), Produce(Parsed(a)))
    ensures Possible(x, p1, Produce(Parsed(b))) && p2 == After(x, p1, Produce(Parsed(b)))
    ensures Possible(x, p2, Deliver(NoFault)) && p3 == After(x, p2, Deliver(NoFault))
    ensures Possible(x, p3, Deliver(NoFault)) && p4 == After(x, p3, Deliver(NoFault))
    ensures Possible(x, p4, Expire(a.eventId)) && p5 == After(x, p4, Expire(a.eventId))
    ensures InTurn(x, Start(x), Produce(Parsed(a))) && InTurn(x, p1, Produce(Parsed(b)))
    ensures InTurn(x, p2, Deliver(NoFault)) && InTurn(x, p3, Deliver(NoFault)) && InTurn(x, p4, Expire(a.eventId))
    ensures p5.log == [Parsed(a), Parsed(b)] && p5.offset == 2 && p5.service.marks == {b.eventId}
  {
    BothNew(x, a, b);
    hide Effective;
    hide Latest;
    hide Knows;
    p1 := After(x, Start(x), Produce(Parsed(a)));
    p2 := After(x, p1, Produce(Parsed(b)));
    assert p2.log == [Parsed(a), Parsed(b)];
    p3 := DeliverFresh(x, p2, a);
    p4 := DeliverFresh(x, p3, b);
    p5 := After(x, p4, Expire(a.eventId));
  }

  lemma {:induction false} OnlyLost<S>(x: Setup<S>, p: Partition<S>, a: Envelope, b: Envelope)
    requires Effective(x, [Parsed(a), Parsed(b)]) == [a, b] && a.eventId != b.eventId
    requires p.log == [Parsed(a), Parsed(b)] && p.service.marks == {b.eventId}
    ensures LostMark(x, p, a) && Effective(x, p.log) == [a, b]
  {
    assert [a, b][0] == a;
  }

  lemma {:induction false} NothingHappens<S>(x: Setup<S>, p: Partition<S>)
    ensures AllPossible(x, p, []) && AfterAll(x, p, []) == p && AllInTurn(x, p, [])
  {
  }

  lemma {:induction false} ThenCaughtUp<S>(x: Setup<S>, hs: seq<Happening>, p: Partition<S>)
    requires AllPossible(x, Start(x), hs) && AfterAll(x, Start(x), hs) == p && p.offset == |p.log|
    requires AllInTurn(x, Start(x), hs)
    ensures CaughtUp(x, hs)
  {
  }

  lemma {:induction false} DeliverFresh<S>(x: Setup<S>, p: Partition<S>, e: Envelope) returns (p': Partition<S>)
    requires p.offset == p.reached < |p.log| && DecideAt(x, p.log, p.offset) == Handle(e)
    requires x.handlers[e.eventType].once && e.eventId !in p.service.marks
    requires !Knows(Effective(x, p.log[..p.reached]), e.eventId)
    ensures Possible(x, p, Deliver(NoFault)) && p' == After(x, p, Deliver(NoFault)) && InTurn(x, p, Deliver(NoFault))
    ensures p'.log == p.log && p'.offset == p'.reached == p.offset + 1
    ensures p'.service.marks == p.service.marks + {e.eventId} && p'.halfAt == None
  {
    p' := After(x, p, Deliver(NoFault));
  }

  /** One thing happens, in turn, and then the rest. */
  lemma {:induction false} HappensOnce<S>(
    x: Setup<S>, p: Partition<S>, h: Happening, hs: seq<Happening>, p': Partition<S>)
    requires Possible(x, p, h) && p' == After(x, p, h) && InTurn(x, p, h)
    requires AllPossible(x, p', hs) && AllInTurn(x, p', hs)
    ensures AllPossible(x, p, [h] + hs) && AllInTurn(x, p, [h] + hs)
    ensures AfterAll(x, p, [h] + hs) == AfterAll(x, p', hs)
  {
    assert ([h] + hs)[1..] == hs;
  }

  lemma {:induction false} BothNew<S>(x: Setup<S>, a: Envelope, b: Envelope)
    requires a.eventId != b.eventId && Decide(x.registry, x.handlers.Keys, Parsed(a)).Handle?
    ensures var log := [Parsed(a), Parsed(b)];
            !Knows(Effective(x, log[..0]), a.eventId) && !Knows(Effective(x, log[..1]), b.eventId)
  {
    var log := [Parsed(a), Parsed(b)];
    EffectiveStep(x, log, 0);
    KnowsStep([], a, b.eventId);
  }

  lemma {:induction false} TwoEffective<S>(x: Setup<S>, a: Envelope, b: Envelope)
    requires a.eventId != b.eventId
    requires Decide(x.registry, x.handlers.Keys, Parsed(a)).Handle? &&
             Decide(x.registry, x.handlers.Keys, Parsed(b)).Handle?
    ensures Effective(x, [Parsed(a), Parsed(b)]) == [a, b]
  {
    var log := [Parsed(a), Parsed(b)];
    assert log[..0] == [] && log[..2] == log;
    EffectiveStep(x, log, 0);
    EffectiveStep(x, log, 1);
    hide Effective;
    KnowsStep([], a, b.eventId);
    KnowsStep([], a, a.eventId);
    assert [] + [a] == [a] && [a] + [b] == [a, b];
  }
}
