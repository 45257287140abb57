/**
  The Prisma outbox store (`PrismaOutboxStore`, `enqueueOutbox` of packages/database/src/outbox.ts) run by one
  caller.
 */
module OutboxStore {
  import opened Common
  import opened Outbox
  import opened Poison
  import opened PublishPhase

  datatype DrainResult = DrainResult(published: nat, poisoned: seq<PoisonedEvent>)

  /** A call returns, or the database fails under it. */
  datatype Drained = Returned(result: DrainResult) | DatabaseFailed

  function RowOf(t: Table, id: Id): ClaimedRow
    requires id in t
  {
    ClaimedRow(id, t[id].event)
  }

  function Elements(ids: seq<Id>): set<Id> {
    set i | i in ids
  }

  function IdSet(rows: seq<ClaimedRow>): set<Id> {
    set r | r in rows :: r.id
  }

  /** `claimed` is an answer of the claim statement: the oldest claimable rows, each once, in any order. */
  ghost predicate IsClaim(t: Table, limit: int, staleMs: int, now: int, locked: set<Id>, claimed: seq<ClaimedRow>) {
    && Claimed(claimed)
    && (forall r :: r in claimed ==> r.id in t && r == RowOf(t, r.id))
    && FirstByKey(t, ClaimPool(t, now, staleMs, locked), limit, IdSet(claimed))
  }

  /** The three ack statements, one after the other. */
  function AfterAck(t: Table, succeeded: set<Id>, failed: set<Id>, poisoned: set<Id>, now: int): Table {
    MarkFailed(Release(MarkPublished(t, succeeded, now), failed), poisoned, now)
  }

  /** Whether a statement for these ids is sent at all. */
  function Sent(ids: set<Id>): nat {
    if ids == {} then 0 else 1
  }

  /** The three ack statements when the database fails after `lasts` of those sent. */
  function AfterAcks(t: Table, succeeded: set<Id>, failed: set<Id>, poisoned: set<Id>, now: int, lasts: nat): Table {
    AfterAck(t, if lasts >= 1 then succeeded else {}, if lasts >= Sent(succeeded) + 1 then failed else {},
             if lasts >= Sent(succeeded) + Sent(failed) + 1 then poisoned else {}, now)
  }

  /** The claimed rows a publish phase makes succeed, stops, and poisons. */
  function SucceededIds(claimed: seq<ClaimedRow>, publish: ClaimedRow -> Attempt): set<Id> {
    set r | r in claimed && Succeeds(claimed, publish, r) :: r.id
  }

  function StoppedIds(claimed: seq<ClaimedRow>, publish: ClaimedRow -> Attempt): set<Id> {
    set r | r in claimed && Stopped(claimed, publish, r) :: r.id
  }

  function PoisonIds(claimed: seq<ClaimedRow>, publish: ClaimedRow -> Attempt): set<Id> {
    set r | r in claimed && Poisons(claimed, publish, r) :: r.id
  }

  /** A drain whose database fails after `lasts` statements, the claim being the first. */
  function AfterCutDrain(
    t: Table, claimed: seq<ClaimedRow>, publish: ClaimedRow -> Attempt, claimNow: int, ackNow: int, lasts: nat): Table
    requires lasts >= 1
  {
    AfterAcks(MarkClaimed(t, IdSet(claimed), claimNow), SucceededIds(claimed, publish), StoppedIds(claimed, publish),
              PoisonIds(claimed, publish), ackNow, lasts - 1)
  }

  /** A claimed row after a whole drain: published, released, or marked poison. */
  function Settled(
    claimed: seq<ClaimedRow>, publish: ClaimedRow -> Attempt, r: ClaimedRow, row: Row, claimNow: int,
    ackNow: int): Row {
    if Stopped(claimed, publish, r) then row.(claimedAt := None)
    else if publish(r).Published? then row.(publishedAt := Some(ackNow), claimedAt := Some(claimNow))
    else row.(failedAt := Some(ackNow), claimedAt := None)
  }

  /** The table after one uninterrupted drain of these claimed rows; a row not claimed is not touched. */
  function AfterDrain(
    t: Table, claimed: seq<ClaimedRow>, publish: ClaimedRow -> Attempt, claimNow: int, ackNow: int): Table {
    map id | id in t ::
      if RowOf(t, id) in claimed then Settled(claimed, publish, RowOf(t, id), t[id], claimNow, ackNow) else t[id]
  }

  lemma {:induction false} AckSettles(
    t: Table, claimed: seq<ClaimedRow>, publish: ClaimedRow -> Attempt, claimNow: int, ackNow: int,
    succeeded: seq<Id>, failed: seq<Id>, poisoned: seq<PoisonedEvent>, calls: seq<ClaimedRow>)
    requires Claimed(claimed) && forall r :: r in claimed ==> r.id in t && r == RowOf(t, r.id)
    requires Outcome(claimed, publish, succeeded, failed, poisoned, calls)
    ensures AfterAck(MarkClaimed(t, IdSet(claimed), claimNow), Elements(succeeded), Elements(failed),
                     Elements(PoisonedIds(poisoned)), ackNow) ==
            AfterDrain(t, claimed, publish, claimNow, ackNow)
  {
    var t' := AfterAck(MarkClaimed(t, IdSet(claimed), claimNow), Elements(succeeded), Elements(failed),
                       Elements(PoisonedIds(poisoned)), ackNow);
    forall id | id in t ensures t'[id] == AfterDrain(t, claimed, publish, claimNow, ackNow)[id] {
      var r := RowOf(t, id);
      if r in claimed {
        assert r.id in IdSet(claimed);
      } else {
        forall q | q in claimed ensures q.id != id {
          assert q == RowOf(t, q.id);
        }
        assert id !in IdSet(claimed) && id !in succeeded && id !in failed && id !in PoisonedIds(poisoned);
      }
    }
  }

  /** The lists of any outcome are those three sets. */
  lemma {:induction false} OutcomeSets(
    claimed: seq<ClaimedRow>, publish: ClaimedRow -> Attempt,
    succeeded: seq<Id>, failed: seq<Id>, poisoned: seq<PoisonedEvent>, calls: seq<ClaimedRow>)
    requires Claimed(claimed) && Outcome(claimed, publish, succeeded, failed, poisoned, calls)
    ensures Elements(succeeded) == SucceededIds(claimed, publish)
    ensures Elements(failed) == StoppedIds(claimed, publish)
    ensures Elements(PoisonedIds(poisoned)) == PoisonIds(claimed, publish)
  {
    ListedSet(succeeded, claimed, r => Succeeds(claimed, publish, r));
    ListedSet(failed, claimed, r => Stopped(claimed, publish, r));
    ListedSet(PoisonedIds(poisoned), claimed, r => Poisons(claimed, publish, r));
    hide Succeeds;
    hide Stopped;
    hide Poisons;
    hide Lists;
  }

  lemma {:induction false} ListedSet(ids: seq<Id>, claimed: seq<ClaimedRow>, p: ClaimedRow -> bool)
    requires Lists(ids, claimed, p)
    ensures Elements(ids) == set r | r in claimed && p(r) :: r.id
  {
    forall id | id in ids ensures id in set r | r in claimed && p(r) :: r.id {
      var r :| r in claimed && r.id == id;
    }
  }

  /** The three sets have nothing in common and make up the claim. */
  lemma {:induction false} SetsDisjoint(
    t: Table, claimed: seq<ClaimedRow>, publish: ClaimedRow -> Attempt, r: ClaimedRow)
    requires Claimed(claimed) && r in claimed
    ensures r.id in SucceededIds(claimed, publish) <==> Succeeds(claimed, publish, r)
    ensures r.id in StoppedIds(claimed, publish) <==> Stopped(claimed, publish, r)
    ensures r.id in PoisonIds(claimed, publish) <==> Poisons(claimed, publish, r)
  {
    forall q | q in claimed && q.id == r.id ensures q == r {
      SameRowById(claimed, q, r);
    }
    hide Claimed;
    hide Reached;
  }

  lemma {:induction false} NotClaimed(t: Table, claimed: seq<ClaimedRow>, publish: ClaimedRow -> Attempt, id: Id)
    requires forall r :: r in claimed ==> r.id in t && r == RowOf(t, r.id)
    requires id in t && RowOf(t, id) !in claimed
    ensures id !in IdSet(claimed) && id !in SucceededIds(claimed, publish)
    ensures id !in StoppedIds(claimed, publish) && id !in PoisonIds(claimed, publish)
  {
    forall q | q in claimed ensures q.id != id {
      assert q == RowOf(t, q.id);
    }
  }

  /**
    Wherever the database fails, each row is left claimed as it was taken, or as a whole drain leaves it; with all
    four statements done it is the whole drain.
   */
  lemma {:induction false} CutDrainLeaves(
    t: Table, claimed: seq<ClaimedRow>, publish: ClaimedRow -> Attempt, claimNow: int, ackNow: int, lasts: nat)
    requires Claimed(claimed) && (forall r :: r in claimed ==> r.id in t && r == RowOf(t, r.id)) && lasts >= 1
    ensures var t' := AfterCutDrain(t, claimed, publish, claimNow, ackNow, lasts);
            && t'.Keys == t.Keys
            && (forall id :: id in t ==>
                  t'[id] == AfterDrain(t, claimed, publish, claimNow, ackNow)[id] ||
                  (RowOf(t, id) in claimed && t'[id] == t[id].(claimedAt := Some(claimNow))))
            && (lasts >= 4 ==> t' == AfterDrain(t, claimed, publish, claimNow, ackNow))
  {
    var t' := AfterCutDrain(t, claimed, publish, claimNow, ackNow, lasts);
    var whole := AfterDrain(t, claimed, publish, claimNow, ackNow);
    forall id | id in t
      ensures t'[id] == whole[id] ||
              (lasts < 4 && RowOf(t, id) in claimed && t'[id] == t[id].(claimedAt := Some(claimNow)))
    {
      var r := RowOf(t, id);
      if r in claimed {
        SetsDisjoint(t, claimed, publish, r);
        assert r.id in IdSet(claimed);
      } else {
        NotClaimed(t, claimed, publish, id);
      }
      hide SucceededIds;
      hide StoppedIds;
      hide PoisonIds;
      hide IdSet;
      hide Reached;
    }
  }

  /** RETURNING answers the updated rows in no particular order. */
  method Returning(t: Table, ids: set<Id>) returns (claimed: seq<ClaimedRow>)
    requires DistinctSeq(t) && ids <= t.Keys
    ensures Claimed(claimed) && IdSet(claimed) == ids
    ensures forall r :: r in claimed ==> r.id in t && r == RowOf(t, r.id)
  {
    claimed := [];
    var rest := ids;
    while rest != {}
      invariant rest <= ids && IdSet(claimed) == ids - rest && Claimed(claimed)
      invariant forall r :: r in claimed ==> r.id in t && r == RowOf(t, r.id)
      decreases rest
    {
      var id :| id in rest;
      ReturnOneMore(t, claimed, id);
      claimed := claimed + [RowOf(t, id)];
      rest := rest - {id};
    }
  }

  lemma {:induction false} ReturnOneMore(t: Table, claimed: seq<ClaimedRow>, id: Id)
    requires DistinctSeq(t) && id in t && id !in IdSet(claimed) && Claimed(claimed)
    requires forall r :: r in claimed ==> r.id in t && r == RowOf(t, r.id)
    ensures Claimed(claimed + [RowOf(t, id)]) && IdSet(claimed + [RowOf(t, id)]) == IdSet(claimed) + {id}
  {
    forall i | 0 <= i < |claimed| ensures claimed[i].id != id && claimed[i].event.seqNo != t[id].event.seqNo {
      assert claimed[i] in claimed && claimed[i].id in IdSet(claimed);
    }
  }

  class PrismaOutboxStore {
    var rows: Table

    ghost predicate Valid()
      reads this
    {
      DistinctSeq(rows)
    }

    constructor ()
      ensures Valid() && rows == map[]
    {
      rows := map[];
    }

    /** The insert of `enqueueOutbox`: generated id, next value of the sequence, transaction timestamp. */
    method Enqueue(id: Id, seqNo: nat, createdAt: int, aggregate: Aggregate, envelope: Envelope)
      requires Valid() && id !in rows && forall i :: i in rows ==> rows[i].event.seqNo != seqNo
      modifies this
      ensures Valid() && rows == old(rows)[id := Row(Event(aggregate, createdAt, seqNo, envelope), None, None, None)]
    {
      rows := rows[id := Row(Event(aggregate, createdAt, seqNo, envelope), None, None, None)];
    }

    method Claim(limit: int, staleMs: int, now: int, locked: set<Id>) returns (claimed: seq<ClaimedRow>)
      requires Valid()
      modifies this
      ensures Valid()
      ensures IsClaim(old(rows), limit, staleMs, now, locked, claimed)
      ensures rows == MarkClaimed(old(rows), IdSet(claimed), now)
    {
      var pool := ClaimPool(rows, now, staleMs, locked);
      ghost var possible := FirstByKeyExists(rows, pool, limit);
      var ids :| ids <= pool && FirstByKey(rows, pool, limit, ids);
      claimed := Returning(rows, ids);
      rows := MarkClaimed(rows, ids, now);
    }

    /** The database answers `lasts` statements and fails the next; the rest are then not sent. */
    method Ack(succeeded: seq<Id>, failed: seq<Id>, poisoned: seq<PoisonedEvent>, now: int, lasts: nat)
      returns (ok: bool)
      requires Valid()
      modifies this
      ensures Valid()
      ensures rows ==
              AfterAcks(old(rows), Elements(succeeded), Elements(failed), Elements(PoisonedIds(poisoned)), now, lasts)
      ensures ok <==>
              lasts >= Sent(Elements(succeeded)) + Sent(Elements(failed)) + Sent(Elements(PoisonedIds(poisoned)))
    {
      var left := lasts;
      EmptyElements(succeeded);
      EmptyElements(failed);
      EmptyElements(PoisonedIds(poisoned));
      AcksInTurn(rows, Elements(succeeded), Elements(failed), Elements(PoisonedIds(poisoned)), now, lasts);
      hide AfterAcks;
      hide MarkPublished;
      hide Release;
      hide MarkFailed;
      if |succeeded| > 0 {
        if left == 0 {
          return false;
        }
        rows := MarkPublished(rows, Elements(succeeded), now);
        left := left - 1;
      }
      if |failed| > 0 {
        if left == 0 {
          return false;
        }
        rows := Release(rows, Elements(failed));
        left := left - 1;
      }
      if |poisoned| > 0 {
        if left == 0 {
          return false;
        }
        rows := MarkFailed(rows, Elements(PoisonedIds(poisoned)), now);
      }
      return true;
    }

    /**
      Claim, publish, ack; nobody else writes the table in between, and the database fails after `lasts` statements,
      if the drain sends that many.
     */
    method Drain(
      limit: int, staleMs: int, concurrency: int, publish: ClaimedRow -> Attempt, claimNow: int, ackNow: int,
      locked: set<Id>, lasts: nat)
      returns (drained: Drained, ghost claimed: seq<ClaimedRow>)
      requires Valid()
      modifies this
      ensures Valid()
      ensures lasts == 0 ==> rows == old(rows) && drained.DatabaseFailed?
      ensures lasts >= 1 ==>
                && IsClaim(old(rows), limit, staleMs, claimNow, locked, claimed)
                && rows == AfterCutDrain(old(rows), claimed, publish, claimNow, ackNow, lasts)
      ensures lasts >= 4 ==> rows == AfterDrain(old(rows), claimed, publish, claimNow, ackNow) && drained.Returned?
      ensures drained.Returned? ==>
                && drained.result.published == |SucceededIds(claimed, publish)|
                && Lists(PoisonedIds(drained.result.poisoned), claimed, r => Poisons(claimed, publish, r))
    {
      claimed := [];
      if lasts == 0 {
        return DatabaseFailed, claimed;
      }
      var batch := Claim(limit, staleMs, claimNow, locked);
      claimed := batch;
      CutDrainLeaves(old(rows), batch, publish, claimNow, ackNow, lasts);
      if |batch| == 0 {
        NothingClaimed(old(rows), batch, publish, claimNow, ackNow, lasts);
        return Returned(DrainResult(0, [])), claimed;
      }
      var succeeded, failed, poisoned, calls, _ := PublishGrouped(batch, concurrency, publish);
      OutcomeSets(batch, publish, succeeded, failed, poisoned, calls);
      SizeOfOutcome(batch, publish, succeeded, failed, poisoned, calls);
      hide *;
      var ok := Ack(succeeded, failed, poisoned, ackNow, lasts - 1);
      CutDrainIs(old(rows), batch, publish, claimNow, ackNow, lasts);
      SentAtMost(Elements(succeeded), Elements(failed), Elements(PoisonedIds(poisoned)));
      drained := if ok then Returned(DrainResult(|succeeded|, poisoned)) else DatabaseFailed;
    }

    /** The DELETE of the retention sweep. */
    method SweepPublished(
      retentionMs: int, batch: nat, now: int, locked: set<Id>) returns (count: nat, ghost deleted: set<Id>)
      requires Valid()
      modifies this
      ensures Valid()
      ensures FirstBySweep(old(rows), SweepPool(old(rows), now, retentionMs, locked), batch, deleted)
      ensures forall i :: i in deleted ==>
                i in old(rows) && i !in locked && old(rows)[i].publishedAt.Some? &&
                old(rows)[i].publishedAt.value + retentionMs < now
      ensures rows == DeleteRows(old(rows), deleted) && count == |deleted|
    {
      var pool := SweepPool(rows, now, retentionMs, locked);
      ghost var possible := FirstBySweepExists(rows, pool, batch);
      var ids :| ids <= pool && FirstBySweep(rows, pool, batch, ids);
      rows := DeleteRows(rows, ids);
      count, deleted := |ids|, ids;
    }
  }

  /** The ack statements one by one; those without ids are not sent and would change nothing. */
  lemma {:induction false} AcksInTurn(
    t: Table, succeeded: set<Id>, failed: set<Id>, poisoned: set<Id>, now: int, lasts: nat)
    ensures var first, second := Sent(succeeded), Sent(succeeded) + Sent(failed);
            var t1 := if succeeded == {} then t else MarkPublished(t, succeeded, now);
            var t2 := if failed == {} then t1 else Release(t1, failed);
            AfterAcks(t, succeeded, failed, poisoned, now, lasts) ==
            if lasts < first then t
            else if lasts < second then t1
            else if poisoned == {} || lasts == second then t2
            else MarkFailed(t2, poisoned, now)
    ensures DistinctSeq(t) ==> DistinctSeq(AfterAcks(t, succeeded, failed, poisoned, now, lasts))
  {
    NoIds(t, now);
    NoIds(MarkPublished(t, succeeded, now), now);
    NoIds(Release(MarkPublished(t, succeeded, now), failed), now);
  }

  lemma {:induction false} NoIds(t: Table, now: int)
    ensures MarkPublished(t, {}, now) == t && Release(t, {}) == t && MarkFailed(t, {}, now) == t
  {
  }

  lemma {:induction false} EmptyElements(ids: seq<Id>)
    ensures Elements(ids) == {} <==> |ids| == 0
  {
    if |ids| > 0 {
      assert ids[0] in Elements(ids);
    }
  }

  lemma {:induction false} SentAtMost(a: set<Id>, b: set<Id>, c: set<Id>)
    ensures Sent(a) + Sent(b) + Sent(c) <= 3
  {
  }

  lemma {:induction false} CutDrainIs(
    t: Table, claimed: seq<ClaimedRow>, publish: ClaimedRow -> Attempt, claimNow: int, ackNow: int, lasts: nat)
    requires lasts >= 1
    ensures AfterCutDrain(t, claimed, publish, claimNow, ackNow, lasts) ==
            AfterAcks(MarkClaimed(t, IdSet(claimed), claimNow), SucceededIds(claimed, publish),
                      StoppedIds(claimed, publish), PoisonIds(claimed, publish), ackNow, lasts - 1)
  {
  }

  lemma {:induction false} NothingClaimed(
    t: Table, claimed: seq<ClaimedRow>, publish: ClaimedRow -> Attempt, claimNow: int, ackNow: int, lasts: nat)
    requires claimed == [] && lasts >= 1
    ensures MarkClaimed(t, IdSet(claimed), claimNow) == AfterCutDrain(t, claimed, publish, claimNow, ackNow, lasts)
    ensures |SucceededIds(claimed, publish)| == 0 && Lists(PoisonedIds([]), claimed, r => Poisons(claimed, publish, r))
  {
    assert SucceededIds(claimed, publish) == StoppedIds(claimed, publish) == PoisonIds(claimed, publish) == {};
    NoIds(MarkClaimed(t, IdSet(claimed), claimNow), ackNow);
  }

  lemma {:induction false} SizeOfOutcome(
    claimed: seq<ClaimedRow>, publish: ClaimedRow -> Attempt,
    succeeded: seq<Id>, failed: seq<Id>, poisoned: seq<PoisonedEvent>, calls: seq<ClaimedRow>)
    requires Claimed(claimed) && Outcome(claimed, publish, succeeded, failed, poisoned, calls)
    ensures |succeeded| == |SucceededIds(claimed, publish)|
    ensures Lists(PoisonedIds(poisoned), claimed, r => Poisons(claimed, publish, r))
  {
    OutcomeSets(claimed, publish, succeeded, failed, poisoned, calls);
    SizeOfList(succeeded);
  }

  lemma {:induction false} SizeOfList(ids: seq<Id>)
    requires NoRepeat(ids)
    ensures |Elements(ids)| == |ids|
  {
    if ids != [] {
      var front, last := ids[..|ids| - 1], ids[|ids| - 1];
      SizeOfList(front);
      assert last !in front;
      assert Elements(ids) == Elements(front) + {last};
    }
  }

  // ---------------------------------------------------------------- what the schema and the broker decide

  /** What the sends of a batch come to when each goes to the broker as `ends` says. */
  function Sends(registry: Registry, ends: ClaimedRow -> SendEnd): ClaimedRow -> Attempt {
    (r: ClaimedRow) => PublishAttempt(registry, r.event.envelope, ends(r))
  }

  /** The broker does not take a sound event, and not for good. */
  predicate BrokerFails(registry: Registry, ends: ClaimedRow -> SendEnd, r: ClaimedRow) {
    Sound(registry, r.event.envelope) && !ends(r).Acknowledged? && !LooksInvalid(ends(r))
  }

  /** The broker fails for no row of the batch in front of this one in its aggregate, by millisecond and `seq`. */
  predicate NoneFailsBefore(
    registry: Registry, ends: ClaimedRow -> SendEnd, claimed: seq<ClaimedRow>, r: ClaimedRow) {
    forall q :: q in claimed && q.event.aggregate == r.event.aggregate && BrokerFails(registry, ends, q) ==>
      q.event.createdAt / 1000 > r.event.createdAt / 1000 ||
      (q.event.createdAt / 1000 == r.event.createdAt / 1000 && q.event.seqNo >= r.event.seqNo)
  }

  /**
    A row after an undisturbed drain, by its payload and what the broker did: released where the broker failed for it
    or for a row in front of it in its aggregate; otherwise published if it is sound and acknowledged, and poison if
    it is not sound, or the broker threw a look-alike.
   */
  lemma {:induction false} DrainSettlesBySends(
    registry: Registry, ends: ClaimedRow -> SendEnd, t: Table, claimed: seq<ClaimedRow>, claimNow: int, ackNow: int,
    r: ClaimedRow)
    requires Claimed(claimed) && (forall q :: q in claimed ==> q.id in t && q == RowOf(t, q.id)) && r in claimed
    ensures var row := t[r.id];
            AfterDrain(t, claimed, Sends(registry, ends), claimNow, ackNow)[r.id] ==
            if BrokerFails(registry, ends, r) || !NoneFailsBefore(registry, ends, claimed, r)
            then Row(row.event, row.publishedAt, None, row.failedAt)
            else if Sound(registry, r.event.envelope) && ends(r).Acknowledged?
            then Row(row.event, Some(ackNow), Some(claimNow), row.failedAt)
            else Row(row.event, row.publishedAt, None, Some(ackNow))
  {
    var publish := Sends(registry, ends);
    forall q ensures Transient(publish(q)) <==> BrokerFails(registry, ends, q) {
      PoisonIsInvalidPayload(registry, q.event.envelope, ends(q));
    }
    PoisonIsInvalidPayload(registry, r.event.envelope, ends(r));
    assert Reached(claimed, publish, r) <==> NoneFailsBefore(registry, ends, claimed, r);
    hide PublishAttempt;
  }

  /**
    No failure of the broker loses a sound event: whatever it throws, short of an Error made up like a validation
    error, and also when it does not answer, the row is pending and unclaimed after an undisturbed drain.
   */
  lemma {:induction false} BrokerFailureReleases(
    registry: Registry, ends: ClaimedRow -> SendEnd, t: Table, limit: int, staleMs: int, locked: set<Id>,
    claimed: seq<ClaimedRow>, claimNow: int, ackNow: int, r: ClaimedRow)
    requires IsClaim(t, limit, staleMs, claimNow, locked, claimed) && r in claimed
    requires r.event.envelope.eventType !in registry || registry[r.event.envelope.eventType](r.event.envelope.payload)
    requires !ends(r).Acknowledged?
    requires ends(r).Refused? ==>
               !ends(r).error.isError || ends(r).error.name != Some("ZodError") ||
               ends(r).error.issuesIsArray != Some(true)
    ensures AfterDrain(t, claimed, Sends(registry, ends), claimNow, ackNow)[r.id] == Row(r.event, None, None, None)
  {
    assert r.id in IdSet(claimed);
    DrainSettlesBySends(registry, ends, t, claimed, claimNow, ackNow, r);
    hide AfterDrain;
    hide NoneFailsBefore;
  }

  // ---------------------------------------------------------------- progress of a lone relay

  /** Every pending row may be claimed: nobody holds it. */
  predicate AllFree(t: Table) {
    forall id :: id in t && Pending(t[id]) ==> t[id].claimedAt.None?
  }

  /** One tick of the only relay: it claims with no row locked by anyone. */
  ghost predicate LoneTick(t: Table, t': Table, limit: nat, publish: ClaimedRow -> Attempt, claimed: seq<ClaimedRow>) {
    exists staleMs, claimNow, ackNow ::
      IsClaim(t, limit, staleMs, claimNow, {}, claimed) && t' == AfterDrain(t, claimed, publish, claimNow, ackNow)
  }

  /** The pending rows left are those not claimed and those the phase stopped. */
  lemma {:induction false} TickLeaves(
    t: Table, t': Table, limit: nat, publish: ClaimedRow -> Attempt, claimed: seq<ClaimedRow>)
    requires AllFree(t) && LoneTick(t, t', limit, publish, claimed)
    ensures AllFree(t') && t'.Keys == t.Keys && forall id :: id in t ==> t'[id].event == t[id].event
    ensures IdSet(claimed) <= PendingIds(t) && |IdSet(claimed)| == Min(limit, |PendingIds(t)|)
    ensures PendingIds(t') ==
            PendingIds(t) - set r | r in claimed && !Stopped(claimed, publish, r) :: r.id
    ensures forall id, other :: id in IdSet(claimed) && other in PendingIds(t) - IdSet(claimed) ==>
            KeyBefore(t, id, other)
  {
    var staleMs, claimNow, ackNow :|
      IsClaim(t, limit, staleMs, claimNow, {}, claimed) && t' == AfterDrain(t, claimed, publish, claimNow, ackNow);
    assert ClaimPool(t, claimNow, staleMs, {}) == PendingIds(t);
    var done := set r | r in claimed && !Stopped(claimed, publish, r) :: r.id;
    forall id | id in t ensures id in PendingIds(t') <==> id in PendingIds(t) && id !in done {
      RowLeft(t, claimed, publish, claimNow, ackNow, id);
    }
    forall id | id in t' && Pending(t'[id]) ensures t'[id].claimedAt.None? {
      assert t'[id] == t[id] || t'[id] == Settled(claimed, publish, RowOf(t, id), t[id], claimNow, ackNow);
    }
    hide Stopped;
  }

  /** A row is pending after the drain if it was and the phase did not settle it. */
  lemma {:induction false} RowLeft(
    t: Table, claimed: seq<ClaimedRow>, publish: ClaimedRow -> Attempt, claimNow: int, ackNow: int, id: Id)
    requires id in t && forall q :: q in claimed ==> q.id in t && q == RowOf(t, q.id)
    requires id in IdSet(claimed) ==> Pending(t[id])
    ensures Pending(AfterDrain(t, claimed, publish, claimNow, ackNow)[id]) <==>
            Pending(t[id]) && id !in set r | r in claimed && !Stopped(claimed, publish, r) :: r.id
  {
    hide Stopped;
    forall q | q in claimed && q.id == id ensures q == RowOf(t, id) {
    }
    if RowOf(t, id) in claimed {
      assert id in IdSet(claimed);
    }
  }

  /**
    A tick makes progress exactly when the first row of some aggregate in its batch does not fail transiently,
    whatever poison is about.
   */
  lemma {:induction false} TickMakesProgress(
    t: Table, t': Table, limit: nat, publish: ClaimedRow -> Attempt, claimed: seq<ClaimedRow>)
    requires AllFree(t) && LoneTick(t, t', limit, publish, claimed)
    ensures |PendingIds(t')| < |PendingIds(t)| <==>
            exists r :: r in claimed && IsHead(claimed, r) && !Transient(publish(r))
  {
    TickLeaves(t, t', limit, publish, claimed);
    var done := set q | q in claimed && !Stopped(claimed, publish, q) :: q.id;
    assert Claimed(claimed);
    hide LoneTick;
    if r :| r in claimed && IsHead(claimed, r) && !Transient(publish(r)) {
      HeadIsSettled(claimed, publish, r);
      hide Stopped;
      assert r.id in done && r.id in IdSet(claimed);
      Smaller(PendingIds(t), PendingIds(t'), r.id);
    }
    if |PendingIds(t')| < |PendingIds(t)| {
      hide Stopped;
      assert done != {};
      var r :| r in claimed && !Stopped(claimed, publish, r);
      var head := HeadNotTransient(claimed, publish, r);
    }
  }

  lemma {:induction false} HeadIsSettled(claimed: seq<ClaimedRow>, publish: ClaimedRow -> Attempt, r: ClaimedRow)
    requires r in claimed && IsHead(claimed, r) && !Transient(publish(r))
    ensures !Stopped(claimed, publish, r)
  {
  }

  /** Where a row was settled, the head of its aggregate was too. */
  lemma {:induction false} HeadNotTransient(
    claimed: seq<ClaimedRow>, publish: ClaimedRow -> Attempt, r: ClaimedRow) returns (head: ClaimedRow)
    requires Claimed(claimed) && r in claimed && !Stopped(claimed, publish, r)
    ensures head in claimed && IsHead(claimed, head) && !Transient(publish(head))
  {
    head := HeadOf(claimed, claimed, r);
    assert SameAggregate(head, r) && (head == r || Earlier(head, r));
  }

  /** The row of an aggregate nothing of the batch sorts before. */
  lemma {:induction false} HeadOf(claimed: seq<ClaimedRow>, among: seq<ClaimedRow>, r: ClaimedRow)
    returns (head: ClaimedRow)
    requires Claimed(claimed) && r in claimed && forall q :: q in among ==> q in claimed
    ensures head in claimed && SameAggregate(head, r) && (head == r || Earlier(head, r))
    ensures forall q :: q in among && SameAggregate(q, r) ==> q == head || Earlier(head, q)
    decreases |among|
  {
    if among == [] {
      head := r;
    } else {
      var last := among[|among| - 1];
      head := HeadOf(claimed, among[..|among| - 1], r);
      assert among == among[..|among| - 1] + [last];
      DistinctRows(claimed, last, head);
      if SameAggregate(last, r) && Earlier(last, head) {
        head := last;
      }
    }
  }

  lemma {:induction false} DistinctRows(claimed: seq<ClaimedRow>, p: ClaimedRow, q: ClaimedRow)
    requires Claimed(claimed) && p in claimed && q in claimed
    ensures p == q || Earlier(p, q) || Earlier(q, p)
  {
    var i :| 0 <= i < |claimed| && claimed[i] == p;
    var j :| 0 <= j < |claimed| && claimed[j] == q;
  }

  lemma {:induction false} Smaller<T>(a: set<T>, b: set<T>, x: T)
    requires b <= a - {x} && x in a
    ensures |b| < |a|
  {
    assert |a - {x}| == |a| - 1;
    SubsetSize(b, a - {x});
  }

  /** A run of ticks of the only relay in which no publish fails transiently. */
  ghost predicate CleanTicks(tables: seq<Table>, limit: nat) {
    && |tables| >= 1
    && forall i :: 0 <= i < |tables| - 1 ==> CleanTick(tables[i], tables[i + 1], limit)
  }

  ghost predicate CleanTick(t: Table, t': Table, limit: nat) {
    exists publish: ClaimedRow -> Attempt, claimed: seq<ClaimedRow> ::
      (forall r :: r in claimed ==> !Transient(publish(r))) && LoneTick(t, t', limit, publish, claimed)
  }

  lemma {:induction false} CleanTickSettlesBatch(t: Table, t': Table, limit: nat)
    requires AllFree(t) && CleanTick(t, t', limit)
    ensures AllFree(t') && |PendingIds(t')| == |PendingIds(t)| - Min(limit, |PendingIds(t)|)
  {
    var publish: ClaimedRow -> Attempt, claimed: seq<ClaimedRow> :|
      (forall r :: r in claimed ==> !Transient(publish(r))) && LoneTick(t, t', limit, publish, claimed);
    TickLeaves(t, t', limit, publish, claimed);
    AllSettle(claimed, publish);
    hide *;
    assert |PendingIds(t) - IdSet(claimed)| == |PendingIds(t)| - |IdSet(claimed)|;
  }

  lemma {:induction false} AllSettle(claimed: seq<ClaimedRow>, publish: ClaimedRow -> Attempt)
    requires forall r :: r in claimed ==> !Transient(publish(r))
    ensures (set r | r in claimed && !Stopped(claimed, publish, r) :: r.id) == IdSet(claimed)
  {
    forall r | r in claimed ensures !Stopped(claimed, publish, r) {
    }
  }

  /**
    With no transient error, k ticks settle k full batches or everything; n rows are settled after n / batch ticks
    rounded up.
   */
  lemma {:induction false} CleanTicksDrain(tables: seq<Table>, limit: nat)
    requires CleanTicks(tables, limit) && AllFree(tables[0])
    ensures var n, k := |PendingIds(tables[0])|, |tables| - 1;
            && AllFree(tables[k])
            && |PendingIds(tables[k])| == (if n <= k * limit then 0 else n - k * limit)
            && (n <= k * limit <==> PendingIds(tables[k]) == {})
    decreases |tables|
  {
    var k := |tables| - 1;
    if k > 0 {
      CleanTicksDrain(tables[..k], limit);
      CleanTickSettlesBatch(tables[k - 1], tables[k], limit);
      assert k * limit == (k - 1) * limit + limit;
    }
  }
}
