/** The whole chain: outbox of a lone relay, log of a partition, deduplicating consumer. */
module EndToEnd {
  import opened Outbox
  import opened OutboxSystem
  import opened OutboxOrder
  import C = Consumer

  /** The broker's choice of partition: the topic is the event type's, the key the aggregate. */
  type Routing = Event -> bool

  predicate Of(s: State, routed: Routing, id: Id) {
    id in s.catalog && routed(s.catalog[id])
  }

  predicate Known(s: State, ids: seq<Id>) {
    forall id :: id in ids ==> id in s.catalog
  }

  /** The part of the log that goes to one partition. */
  function LogOf(s: State, routed: Routing, log: seq<Id>): (ids: seq<Id>)
    ensures Known(s, ids)
  {
    if log == [] then []
    else
      var id := log[|log| - 1];
      LogOf(s, routed, log[..|log| - 1]) + (if Of(s, routed, id) then [id] else [])
  }

  /** Those messages as a consumer sees them. */
  function Messages(s: State, ids: seq<Id>): (ms: seq<C.Body>)
    requires Known(s, ids)
    ensures |ms| == |ids|
    ensures forall n :: 0 <= n < |ms| ==> ms[n] == C.Parsed(s.catalog[ids[n]].envelope)
  {
    seq(|ids|, n requires 0 <= n < |ids| => assert ids[n] in ids; C.Parsed(s.catalog[ids[n]].envelope))
  }

  function Envelopes(s: State, ids: seq<Id>): (es: seq<Envelope>)
    requires Known(s, ids)
    ensures |es| == |ids|
    ensures forall n :: 0 <= n < |es| ==> es[n] == s.catalog[ids[n]].envelope
  {
    seq(|ids|, n requires 0 <= n < |ids| => assert ids[n] in ids; s.catalog[ids[n]].envelope)
  }

  /** Two events have two event ids. */
  predicate DistinctEventIds(s: State) {
    forall i, j :: i in s.catalog && j in s.catalog && i != j ==>
      s.catalog[i].envelope.eventId != s.catalog[j].envelope.eventId
  }

  /** An event this consumer has a handler for. */
  predicate Consumed<S>(x: C.Setup<S>, s: State, id: Id) {
    id in s.catalog && s.catalog[id].envelope.eventType in x.handlers
  }

  /** Each id once, and none before one that precedes it in its aggregate. */
  predicate InKeyOrder(c: Config, s: State, ids: seq<Id>) {
    forall m, n :: 0 <= m < n < |ids| ==> ids[m] != ids[n] && !Precedes(c, s, ids[n], ids[m])
  }

  /** No row is inserted behind one of its aggregate that it precedes. */
  ghost predicate Solo(c: Config, s: State, steps: seq<Step>)
    requires Legal(c, s, steps)
  {
    forall i, j :: LoneRun(c, s, steps, i, j)
  }

  lemma {:induction false} LogOfMembers(s: State, routed: Routing, log: seq<Id>)
    ensures forall id :: id in LogOf(s, routed, log) <==> id in log && Of(s, routed, id)
  {
    if log != [] {
      LogOfMembers(s, routed, log[..|log| - 1]);
      assert log == log[..|log| - 1] + [log[|log| - 1]];
    }
  }

  /** The projection keeps what stands in front of what. */
  lemma {:induction false} LogOfInOrder(c: Config, s: State, routed: Routing, log: seq<Id>, n: nat, i: Id)
    requires forall m, j :: 0 <= m < |log| && Precedes(c, s, j, log[m]) ==> j in log[..m]
    requires n < |LogOf(s, routed, log)| && Of(s, routed, i) && Precedes(c, s, i, LogOf(s, routed, log)[n])
    ensures i in LogOf(s, routed, log)[..n]
    decreases |log|
  {
    var front, last := log[..|log| - 1], log[|log| - 1];
    var l0 := LogOf(s, routed, front);
    LogOfMembers(s, routed, front);
    if n < |l0| {
      forall m, j | 0 <= m < |front| && Precedes(c, s, j, front[m]) ensures j in front[..m] {
        assert front[..m] == log[..m];
      }
      LogOfInOrder(c, s, routed, front, n, i);
      assert LogOf(s, routed, log)[..n] == l0[..n];
    } else {
      assert LogOf(s, routed, log)[..n] == l0;
      assert i in log[..|log| - 1];
    }
  }

  lemma {:induction false} KnownByEventId(s: State, ids: seq<Id>, id: Id)
    requires DistinctEventIds(s) && id in s.catalog && Known(s, ids)
    ensures C.Knows(Envelopes(s, ids), s.catalog[id].envelope.eventId) <==> id in ids
  {
    var es := Envelopes(s, ids);
    if C.Knows(es, s.catalog[id].envelope.eventId) {
      var n :| 0 <= n < |es| && es[n].eventId == s.catalog[id].envelope.eventId;
      assert ids[n] in ids;
    }
    if id in ids {
      var n :| 0 <= n < |ids| && ids[n] == id;
      assert es[n].eventId == s.catalog[id].envelope.eventId;
    }
  }

  lemma {:induction false} MessagesSplit(s: State, log: seq<Id>, n: nat)
    requires Known(s, log) && n < |log|
    ensures Known(s, log[..n])
    ensures Messages(s, log)[..n] == Messages(s, log[..n])
  {
  }

  lemma {:induction false} EnvelopesAppend(s: State, ids: seq<Id>, id: Id)
    requires Known(s, ids) && id in s.catalog
    ensures Known(s, ids + [id])
    ensures Envelopes(s, ids + [id]) == Envelopes(s, ids) + [s.catalog[id].envelope]
  {
  }

  /** One more message: a consumed event not seen before is appended, anything else changes nothing. */
  lemma {:induction false} EffectiveNext<S>(c: Config, x: C.Setup<S>, s: State, log: seq<Id>, before: seq<Id>)
    requires log != [] && DistinctEventIds(s) && x.registry == c.registry
    requires Known(s, log) && Known(s, before) && Known(s, log[..|log| - 1]) && Valid(c, s, log[|log| - 1])
    requires C.Effective(x, Messages(s, log[..|log| - 1])) == Envelopes(s, before)
    ensures Known(s, Next(x, s, log[|log| - 1], before))
    ensures C.Effective(x, Messages(s, log)) == Envelopes(s, Next(x, s, log[|log| - 1], before))
  {
    var n, last := |log| - 1, log[|log| - 1];
    MessagesSplit(s, log, n);
    C.EffectiveStep(x, Messages(s, log), n);
    assert Messages(s, log)[..n + 1] == Messages(s, log);
    KnownByEventId(s, before, last);
    EnvelopesAppend(s, before, last);
  }

  function Next<S>(x: C.Setup<S>, s: State, last: Id, before: seq<Id>): seq<Id> {
    if Consumed(x, s, last) && last !in before then before + [last] else before
  }

  /** What a consumer effectively processes of an ordered log: each event it consumes once, in the key order. */
  lemma {:induction false} EffectiveInKeyOrder<S>(
    c: Config, x: C.Setup<S>, s: State, routed: Routing, log: seq<Id>) returns (ids: seq<Id>)
    requires DistinctEventIds(s) && x.registry == c.registry
    requires Known(s, log) && forall id :: id in log ==> Valid(c, s, id) && Of(s, routed, id)
    requires forall n, i :: 0 <= n < |log| && Of(s, routed, i) && Precedes(c, s, i, log[n]) ==> i in log[..n]
    ensures Known(s, ids)
    ensures forall id :: id in ids <==> id in log && Consumed(x, s, id)
    ensures C.Effective(x, Messages(s, log)) == Envelopes(s, ids)
    ensures InKeyOrder(c, s, ids)
    decreases |log|
  {
    hide *;
    if log == [] {
      ids := [];
      EmptyLog(c, x, s);
    } else {
      var n := |log| - 1;
      var front, last := log[..n], log[n];
      assert log == front + [last] && last in log;
      MessagesSplit(s, log, n);
      forall m, i | 0 <= m < |front| && Of(s, routed, i) && Precedes(c, s, i, front[m]) ensures i in front[..m] {
        assert front[..m] == log[..m];
      }
      var before := EffectiveInKeyOrder(c, x, s, routed, front);
      EffectiveNext(c, x, s, log, before);
      ids := Next(x, s, last, before);
      forall m | 0 <= m < |before| && last !in front ensures !Precedes(c, s, last, before[m]) {
        assert before[m] in before;
        var k :| 0 <= k < |front| && front[k] == before[m];
        assert last !in front[..k];
      }
      NextInKeyOrder(c, x, s, front, last, before);
    }
  }

  lemma {:induction false} EmptyLog<S>(c: Config, x: C.Setup<S>, s: State)
    ensures Known(s, []) && C.Effective(x, Messages(s, [])) == Envelopes(s, []) && InKeyOrder(c, s, [])
  {
  }

  lemma {:induction false} NextInKeyOrder<S>(
    c: Config, x: C.Setup<S>, s: State, front: seq<Id>, last: Id, before: seq<Id>)
    requires InKeyOrder(c, s, before) && forall id :: id in before <==> id in front && Consumed(x, s, id)
    requires forall m :: 0 <= m < |before| && last !in front ==> !Precedes(c, s, last, before[m])
    ensures InKeyOrder(c, s, Next(x, s, last, before))
    ensures forall id :: id in Next(x, s, last, before) <==> id in front + [last] && Consumed(x, s, id)
  {
    hide Precedes;
  }

  /** Where the claim and the sort agree on the rows of each aggregate, key order is ascending (created_at, seq). */
  lemma {:induction false} KeyOrderAscends(c: Config, s: State, ids: seq<Id>, m: nat, n: nat)
    requires CatalogMatches(s) && InKeyOrder(c, s, ids) && m < n < |ids|
    requires SameAggregate(s, ids[m], ids[n]) && Valid(c, s, ids[n])
    requires Older(s, ids[n], ids[m]) ==> Sorts(s, ids[n], ids[m])
    ensures Older(s, ids[m], ids[n])
  {
    assert !Precedes(c, s, ids[n], ids[m]);
  }

  /**
    From the insert to the handler: with a lone relay, whatever was retried, cut into batches, duplicated or landed
    late, and whatever the consumer had to redo, once it has caught up with its partition, of any number of topics and
    keys, its state is that of one pass over the delivered events it handles, each once and those of an aggregate in
    their key order; and when no row routed to the partition is pending any more, these are all its valid events.
   */
  lemma {:induction false} InsertToHandler<S(!new)>(
    c: Config, steps: seq<Step>, routed: Routing, x: C.Setup<S>, hs: seq<C.Happening>) returns (ids: seq<Id>)
    requires Legal(c, INITIAL, steps) && Solo(c, INITIAL, steps)
    requires DistinctEventIds(Run(c, INITIAL, steps)) && x.registry == c.registry && C.Repeatable(x)
    requires C.AllPossible(x, C.Start(x), hs) && C.AllInTurn(x, C.Start(x), hs)
    requires var s, p := Run(c, INITIAL, steps), C.AfterAll(x, C.Start(x), hs);
             p.offset == |p.log| && p.log == Messages(s, LogOf(s, routed, s.log))
    ensures var s, p := Run(c, INITIAL, steps), C.AfterAll(x, C.Start(x), hs);
            && (forall id :: id in ids <==> id in s.log && Of(s, routed, id) && Consumed(x, s, id))
            && InKeyOrder(c, s, ids)
            && p.service.state == C.OnePass(x, Envelopes(s, ids))
            && ((forall id :: id in s.table && Of(s, routed, id) ==> !Pending(s.table[id])) ==>
                  forall id :: id in ids <==> Valid(c, s, id) && Of(s, routed, id) && Consumed(x, s, id))
  {
    var s := Run(c, INITIAL, steps);
    var log := LogOf(s, routed, s.log);
    RunKeepsInv(c, INITIAL, steps);
    LogOfMembers(s, routed, s.log);
    LogInOrder(c, steps);
    forall n, i | 0 <= n < |log| && Of(s, routed, i) && Precedes(c, s, i, log[n]) ensures i in log[..n] {
      LogOfInOrder(c, s, routed, s.log, n, i);
    }
    C.EffectivelyOnce(x, hs);
    ids := EffectiveInKeyOrder(c, x, s, routed, log);
    if forall id :: id in s.table && Of(s, routed, id) ==> !Pending(s.table[id]) {
      forall id | Valid(c, s, id) && Of(s, routed, id) ensures id in s.log {
        assert id in s.table ==> RowMatches(c, s, id);
      }
    }
  }

  lemma {:induction false} LogInOrder(c: Config, steps: seq<Step>)
    requires Legal(c, INITIAL, steps) && Solo(c, INITIAL, steps)
    ensures var s := Run(c, INITIAL, steps);
            forall n, i :: 0 <= n < |s.log| && Precedes(c, s, i, s.log[n]) ==> i in s.log[..n]
  {
    var s := Run(c, INITIAL, steps);
    forall n, i | 0 <= n < |s.log| && Precedes(c, s, i, s.log[n]) ensures i in s.log[..n] {
      assert LoneRun(c, INITIAL, steps, i, s.log[n]);
      DeliveredInOrder(c, steps, i, s.log[n], n);
    }
  }
}
