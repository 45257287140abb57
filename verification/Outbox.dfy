/**
  The outbox table (packages/database/src/outbox.ts): rows, the order they are drained in, the SQL statements on
  them.
 */
module Outbox {
  import opened Common

  type Id = nat
  type Aggregate = string

  datatype Envelope = Envelope(eventId: nat, eventType: string, payload: string)

  /** The schema registry: a deterministic validation of the payload for each event type that has a schema. */
  type Registry = map<string, string -> bool>

  /** `schema.parse` passes, or the event type has no schema. */
  predicate Validates(registry: Registry, envelope: Envelope) {
    envelope.eventType in registry ==> registry[envelope.eventType](envelope.payload)
  }

  /** The columns of a row that never change after its insert; `createdAt` is in microseconds. */
  datatype Event = Event(aggregate: Aggregate, createdAt: int, seqNo: nat, envelope: Envelope)

  datatype Row = Row(event: Event, publishedAt: Option<int>, claimedAt: Option<int>, failedAt: Option<int>)

  type Table = map<Id, Row>

  /** ORDER BY created_at ASC, seq ASC. */
  predicate Before(a: Event, b: Event) {
    a.createdAt < b.createdAt || (a.createdAt == b.createdAt && a.seqNo < b.seqNo)
  }

  function Millis(micros: int): int {
    micros / 1000
  }

  /** The sort in the process: a timestamp has become a date in whole milliseconds, ties are broken by `seq`. */
  predicate SortsBefore(a: Event, b: Event) {
    Millis(a.createdAt) < Millis(b.createdAt) || (Millis(a.createdAt) == Millis(b.createdAt) && a.seqNo < b.seqNo)
  }

  /**
    The two orders differ exactly on events of one millisecond of which the older has the higher `seq`; two a
    millisecond or more apart are sorted by `created_at`.
   */
  lemma {:induction false} OrdersDisagree(a: Event, b: Event)
    requires a.seqNo != b.seqNo
    ensures (Before(a, b) <==> SortsBefore(a, b)) <==>
            !(a.createdAt / 1000 == b.createdAt / 1000 &&
              ((a.createdAt < b.createdAt && b.seqNo < a.seqNo) || (b.createdAt < a.createdAt && a.seqNo < b.seqNo)))
    ensures a.createdAt + 1000 <= b.createdAt ==> SortsBefore(a, b) && !SortsBefore(b, a)
    ensures a.createdAt / 1000 == b.createdAt / 1000 ==> (SortsBefore(a, b) <==> a.seqNo < b.seqNo)
  {
    var ma, mb := Millis(a.createdAt), Millis(b.createdAt);
    assert ma < mb ==> a.createdAt < b.createdAt;
    assert mb < ma ==> b.createdAt < a.createdAt;
  }

  predicate Pending(r: Row) {
    r.publishedAt.None? && r.failedAt.None?
  }

  /** The WHERE of the claim. */
  predicate Claimable(r: Row, now: int, staleMs: int) {
    && r.publishedAt.None?
    && r.failedAt.None?
    && (r.claimedAt.None? || r.claimedAt.value < now - staleMs)
  }

  /** The WHERE of the retention sweep. */
  predicate Sweepable(r: Row, now: int, retentionMs: int) {
    r.publishedAt.Some? && r.publishedAt.value < now - retentionMs
  }

  /** `seq` is a sequence column: no two rows share it. */
  predicate DistinctSeq(t: Table) {
    forall i, j :: i in t && j in t && i != j ==> t[i].event.seqNo != t[j].event.seqNo
  }

  predicate KeyBefore(t: Table, i: Id, j: Id) {
    i in t && j in t && Before(t[i].event, t[j].event)
  }

  /** ORDER BY published_at ASC, seq ASC. */
  predicate SweepBefore(t: Table, i: Id, j: Id) {
    && i in t && j in t && t[i].publishedAt.Some? && t[j].publishedAt.Some?
    && (t[i].publishedAt.value < t[j].publishedAt.value ||
        (t[i].publishedAt.value == t[j].publishedAt.value && t[i].event.seqNo < t[j].event.seqNo))
  }

  function Min(a: int, b: int): int {
    if a < b then a else b
  }

  // ---------------------------------------------------------------- ORDER BY ... LIMIT n

  /** `chosen` is what ORDER BY with LIMIT `n` keeps of `pool`. */
  predicate FirstByKey(t: Table, pool: set<Id>, n: int, chosen: set<Id>) {
    && chosen <= pool
    && |chosen| == (if n < 0 then 0 else Min(n, |pool|))
    && forall i, j :: i in chosen && j in pool && j !in chosen ==> KeyBefore(t, i, j)
  }

  predicate FirstBySweep(t: Table, pool: set<Id>, n: int, chosen: set<Id>) {
    && chosen <= pool
    && |chosen| == (if n < 0 then 0 else Min(n, |pool|))
    && forall i, j :: i in chosen && j in pool && j !in chosen ==> SweepBefore(t, i, j)
  }

  lemma {:induction false} LastByKey(t: Table, pool: set<Id>) returns (last: Id)
    requires DistinctSeq(t) && pool <= t.Keys && pool != {}
    ensures last in pool && forall i :: i in pool && i != last ==> KeyBefore(t, i, last)
    decreases pool
  {
    var i :| i in pool;
    if pool == {i} {
      last := i;
    } else {
      last := LastByKey(t, pool - {i});
      assert forall j :: j in pool && j != i ==> j in pool - {i};
      if KeyBefore(t, last, i) {
        last := i;
      }
    }
  }

  lemma {:induction false} LastBySweep(t: Table, pool: set<Id>) returns (last: Id)
    requires DistinctSeq(t) && pool <= t.Keys && pool != {}
    requires forall i :: i in pool ==> t[i].publishedAt.Some?
    ensures last in pool && forall i :: i in pool && i != last ==> SweepBefore(t, i, last)
    decreases pool
  {
    var i :| i in pool;
    if pool == {i} {
      last := i;
    } else {
      last := LastBySweep(t, pool - {i});
      assert forall j :: j in pool && j != i ==> j in pool - {i};
      if SweepBefore(t, last, i) {
        last := i;
      }
    }
  }

  lemma {:induction false} FirstByKeyExists(t: Table, pool: set<Id>, n: int) returns (chosen: set<Id>)
    requires DistinctSeq(t) && pool <= t.Keys
    ensures FirstByKey(t, pool, n, chosen)
    decreases pool
  {
    if n <= 0 {
      chosen := {};
    } else if |pool| <= n {
      chosen := pool;
    } else {
      var last := LastByKey(t, pool);
      chosen := FirstByKeyExists(t, pool - {last}, n);
    }
  }

  lemma {:induction false} FirstBySweepExists(t: Table, pool: set<Id>, n: int) returns (chosen: set<Id>)
    requires DistinctSeq(t) && pool <= t.Keys
    requires forall i :: i in pool ==> t[i].publishedAt.Some?
    ensures FirstBySweep(t, pool, n, chosen)
    decreases pool
  {
    if n <= 0 {
      chosen := {};
    } else if |pool| <= n {
      chosen := pool;
    } else {
      var last := LastBySweep(t, pool);
      chosen := FirstBySweepExists(t, pool - {last}, n);
    }
  }

  // ---------------------------------------------------------------- the statements

  function MarkClaimed(t: Table, ids: set<Id>, now: int): Table {
    map i | i in t :: if i in ids then t[i].(claimedAt := Some(now)) else t[i]
  }

  function MarkPublished(t: Table, ids: set<Id>, now: int): Table {
    map i | i in t :: if i in ids then t[i].(publishedAt := Some(now)) else t[i]
  }

  function Release(t: Table, ids: set<Id>): Table {
    map i | i in t :: if i in ids then t[i].(claimedAt := None) else t[i]
  }

  function MarkFailed(t: Table, ids: set<Id>, now: int): Table {
    map i | i in t :: if i in ids then t[i].(failedAt := Some(now), claimedAt := None) else t[i]
  }

  function DeleteRows(t: Table, ids: set<Id>): Table {
    map i | i in t && i !in ids :: t[i]
  }

  /** The pool the claim orders: claimable rows no other transaction has locked. */
  function ClaimPool(t: Table, now: int, staleMs: int, locked: set<Id>): set<Id> {
    set i | i in t && Claimable(t[i], now, staleMs) && i !in locked
  }

  function SweepPool(t: Table, now: int, retentionMs: int, locked: set<Id>): set<Id> {
    set i | i in t && Sweepable(t[i], now, retentionMs) && i !in locked
  }

  function PendingIds(t: Table): set<Id> {
    set i | i in t && Pending(t[i])
  }
}
