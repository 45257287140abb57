/** The relay loop (packages/database/src/outbox-relay.ts): configuration check, tick guard, retention sweep. */
module Relay {
  import opened Outbox
  import opened Poison
  import opened PublishPhase
  import opened OutboxStore

  const MAX_BATCHES_PER_SWEEP := 100

  /** The rows of so many full batches. */
  function Rows(batches: nat, batch: nat): nat {
    batches * batch
  }

  datatype Config = Config(
    batchSize: int, claimStaleMs: int, publishConcurrency: int, publishTimeoutMs: int, retentionMs: int,
      retentionBatch: nat)

  datatype Created<T> = Started(relay: T) | ConfigurationRejected

  /** Row `j` was not published, or row `i` was published before it; `seq` breaks ties. */
  predicate SweptFirst(t: Table, i: Id, j: Id) {
    && i in t && j in t
    && (t[j].publishedAt.None? ||
        (t[i].publishedAt.Some? &&
          (t[i].publishedAt.value < t[j].publishedAt.value ||
            (t[i].publishedAt.value == t[j].publishedAt.value && t[i].event.seqNo < t[j].event.seqNo))))
  }

  /** `deleted` is an initial part, in (published_at, seq) order, of the published rows. */
  ghost predicate OldestPublished(t: Table, deleted: set<Id>) {
    && deleted <= t.Keys
    && (forall i :: i in deleted ==> t[i].publishedAt.Some?)
    && (forall i, j :: i in deleted && j in t && j !in deleted ==> SweptFirst(t, i, j))
  }

  /** No row is left that was published longer ago than the retention. */
  predicate NothingSweepable(t: Table, now: int, retentionMs: int) {
    forall i :: i in t && t[i].publishedAt.Some? ==> t[i].publishedAt.value + retentionMs >= now
  }

  /** Each of these rows was past its retention at one of the first `n` DELETEs. */
  ghost predicate PastRetention(t: Table, deleted: set<Id>, n: nat, clock: nat -> int, retentionMs: int) {
    forall i :: i in deleted ==>
      i in t && t[i].publishedAt.Some? &&
      exists m: nat :: m < n && t[i].publishedAt.value + retentionMs < clock(m)
  }

  /** One more DELETE extends the initial part. */
  lemma {:induction false} SweepExtends(
    t: Table, deleted: set<Id>, now: int, retentionMs: int, batch: nat, more: set<Id>)
    requires OldestPublished(t, deleted)
    requires FirstBySweep(DeleteRows(t, deleted), SweepPool(DeleteRows(t, deleted), now, retentionMs, {}), batch, more)
    ensures OldestPublished(t, deleted + more)
  {
    var left := DeleteRows(t, deleted);
    var pool := SweepPool(left, now, retentionMs, {});
    forall i, j | i in deleted + more && j in t && j !in deleted + more ensures SweptFirst(t, i, j) {
      if i in more {
        assert i in pool && j in left && left[i] == t[i] && left[j] == t[j];
        assert j in pool ==> SweepBefore(left, i, j);
      } else {
        assert SweptFirst(t, i, j);
      }
    }
  }

  lemma {:induction false} DeleteTwice(t: Table, deleted: set<Id>, more: set<Id>)
    requires more <= DeleteRows(t, deleted).Keys
    ensures DeleteRows(DeleteRows(t, deleted), more) == DeleteRows(t, deleted + more)
    ensures |deleted + more| == |deleted| + |more|
  {
    assert deleted !! more;
  }

  /** A batch that is not full took everything there was. */
  lemma {:induction false} PartialBatchExhausts(t: Table, now: int, retentionMs: int, batch: nat, more: set<Id>)
    requires FirstBySweep(t, SweepPool(t, now, retentionMs, {}), batch, more) && |more| < batch
    ensures NothingSweepable(DeleteRows(t, more), now, retentionMs)
  {
    var pool := SweepPool(t, now, retentionMs, {});
    assert |pool - more| == |pool| - |more|;
    assert pool == more + (pool - more);
    forall i | i in DeleteRows(t, more) && t[i].publishedAt.Some?
      ensures t[i].publishedAt.value + retentionMs >= now
    {
      assert i !in pool;
    }
  }

  class OutboxRelay {
    const store: PrismaOutboxStore
    const config: Config
    var running: bool
    var sweeping: bool

    constructor (store: PrismaOutboxStore, config: Config)
      requires config.publishTimeoutMs < config.claimStaleMs
      ensures this.store == store && this.config == config && !running && !sweeping
    {
      this.store := store;
      this.config := config;
      running := false;
      sweeping := false;
    }

    /**
      The start-up check of the constructor, which throws on a publish timeout that reaches the stale window.
     */
    static method Create(store: PrismaOutboxStore, config: Config) returns (r: Created<OutboxRelay>)
      ensures r.Started? <==> config.publishTimeoutMs < config.claimStaleMs
      ensures r.Started? ==> fresh(r.relay) && r.relay.store == store && r.relay.config == config
      ensures r.Started? ==> !r.relay.running && !r.relay.sweeping
    {
      if config.publishTimeoutMs >= config.claimStaleMs {
        return ConfigurationRejected;
      }
      var relay := new OutboxRelay(store, config);
      return Started(relay);
    }

    /**
      A tick that finds another one running does nothing; otherwise it drains once, as far as the database lets it, and
      lowers the guard again either way.
     */
    method Tick(publish: ClaimedRow -> Attempt, claimNow: int, ackNow: int, locked: set<Id>, lasts: nat)
      returns (ghost claimed: seq<ClaimedRow>)
      requires store.Valid()
      modifies this`running, store
      ensures store.Valid() && running == old(running)
      ensures old(running) ==> store.rows == old(store.rows)
      ensures !old(running) && lasts == 0 ==> store.rows == old(store.rows)
      ensures !old(running) && lasts >= 1 ==>
                && IsClaim(old(store.rows), config.batchSize, config.claimStaleMs, claimNow, locked, claimed)
                && store.rows == AfterCutDrain(old(store.rows), claimed, publish, claimNow, ackNow, lasts)
      ensures !old(running) && lasts >= 4 ==>
                store.rows == AfterDrain(old(store.rows), claimed, publish, claimNow, ackNow)
    {
      claimed := [];
      if running {
        return;
      }
      running := true;
      var drained: Drained;
      drained, claimed :=
        store.Drain(config.batchSize, config.claimStaleMs, config.publishConcurrency, publish, claimNow, ackNow,
          locked, lasts);
      running := false;
    }

    /**
      The retention sweep with nobody else writing: `clock(i)` is the time of its i-th DELETE. It deletes an initial
      part of the published rows, each past its retention at one of the DELETEs, at most 100 batches, and if it stops
      before that no row is left that was past its retention at the last DELETE.
     */
    method Sweep(clock: nat -> int) returns (ghost deleted: set<Id>, ghost statements: nat)
      requires store.Valid()
      modifies this`sweeping, store
      ensures store.Valid() && sweeping == old(sweeping)
      ensures OldestPublished(old(store.rows), deleted) && store.rows == DeleteRows(old(store.rows), deleted)
      ensures PastRetention(old(store.rows), deleted, statements, clock, config.retentionMs)
      ensures |deleted| <= 100 * config.retentionBatch
      ensures old(sweeping) ==> deleted == {} && statements == 0
      ensures !old(sweeping) ==> 1 <= statements <= 100
      ensures !old(sweeping) && |deleted| < 100 * config.retentionBatch ==>
                NothingSweepable(store.rows, clock(statements - 1), config.retentionMs)
    {
      deleted, statements := {}, 0;
      ghost var before := store.rows;
      NothingSwept(before, clock, config.retentionMs, config.retentionBatch);
      hide *;
      if sweeping {
        return;
      }
      sweeping := true;
      var i, deletedTotal, stop := 0, 0, false;
      while i < MAX_BATCHES_PER_SWEEP && !stop
        invariant 0 <= i <= MAX_BATCHES_PER_SWEEP && sweeping && store.Valid() && (stop ==> i > 0)
        invariant deletedTotal == |deleted|
        invariant Swept(before, store.rows, deleted, i, clock, config.retentionMs, config.retentionBatch, stop)
      {
        ghost var more;
        ghost var left := store.rows;
        var count;
        count, more := store.SweepPublished(config.retentionMs, config.retentionBatch, clock(i), {});
        BatchSwept(before, deleted, left, i, clock, config.retentionMs, config.retentionBatch, more);
        deleted := deleted + more;
        deletedTotal := deletedTotal + count;
        stop := count < config.retentionBatch;
        i := i + 1;
      }
      SweepEnds(before, store.rows, deleted, i, clock, config.retentionMs, config.retentionBatch, stop);
      statements := i;
      sweeping := false;
    }
  }

  /** After `n` DELETEs of a sweep: full batches, or nothing left at the last of them, which was short. */
  ghost predicate Swept(
    t: Table, rows: Table, deleted: set<Id>, n: nat, clock: nat -> int, retentionMs: int, batch: nat, stop: bool)
  {
    && OldestPublished(t, deleted) && rows == DeleteRows(t, deleted)
    && PastRetention(t, deleted, n, clock, retentionMs)
    && if stop then n >= 1 && |deleted| < Rows(n, batch) && NothingSweepable(rows, clock(n - 1), retentionMs)
       else |deleted| == Rows(n, batch)
  }

  lemma {:induction false} NothingSwept(t: Table, clock: nat -> int, retentionMs: int, batch: nat)
    ensures Swept(t, t, {}, 0, clock, retentionMs, batch, false) && DeleteRows(t, {}) == t && OldestPublished(t, {})
    ensures PastRetention(t, {}, 0, clock, retentionMs)
  {
    NextBatch(0, batch);
  }

  lemma {:induction false} MorePastRetention(
    t: Table, deleted: set<Id>, left: Table, n: nat, clock: nat -> int, retentionMs: int, more: set<Id>)
    requires PastRetention(t, deleted, n, clock, retentionMs) && left == DeleteRows(t, deleted)
    requires forall i :: i in more ==>
               i in left && left[i].publishedAt.Some? && left[i].publishedAt.value + retentionMs < clock(n)
    ensures PastRetention(t, deleted + more, n + 1, clock, retentionMs)
  {
    forall i | i in deleted + more
      ensures i in t && t[i].publishedAt.Some?
      ensures exists m: nat :: m < n + 1 && t[i].publishedAt.value + retentionMs < clock(m)
    {
      if i in deleted {
        var m: nat :| m < n && t[i].publishedAt.value + retentionMs < clock(m);
      }
    }
  }

  lemma {:induction false} SweepEnds(
    t: Table, rows: Table, deleted: set<Id>, n: nat, clock: nat -> int, retentionMs: int, batch: nat, stop: bool)
    requires Swept(t, rows, deleted, n, clock, retentionMs, batch, stop) && n <= MAX_BATCHES_PER_SWEEP
    requires stop || n == MAX_BATCHES_PER_SWEEP
    ensures OldestPublished(t, deleted) && rows == DeleteRows(t, deleted) && 1 <= n <= 100
    ensures PastRetention(t, deleted, n, clock, retentionMs)
    ensures |deleted| <= 100 * batch
    ensures |deleted| < 100 * batch ==> NothingSweepable(rows, clock(n - 1), retentionMs)
  {
    AtMost(n, MAX_BATCHES_PER_SWEEP, batch);
  }

  /** One DELETE goes on where the one before stopped. */
  lemma {:induction false} BatchSwept(
    t: Table, deleted: set<Id>, left: Table, n: nat, clock: nat -> int, retentionMs: int, batch: nat, more: set<Id>)
    requires Swept(t, left, deleted, n, clock, retentionMs, batch, false)
    requires FirstBySweep(left, SweepPool(left, clock(n), retentionMs, {}), batch, more)
    ensures Swept(t, DeleteRows(left, more), deleted + more, n + 1, clock, retentionMs, batch, |more| < batch)
    ensures |deleted + more| == |deleted| + |more|
  {
    SweptRows(left, clock(n), retentionMs, batch, more);
    SweepExtends(t, deleted, clock(n), retentionMs, batch, more);
    MorePastRetention(t, deleted, left, n, clock, retentionMs, more);
    DeleteTwice(t, deleted, more);
    NextBatch(n, batch);
    if |more| < batch {
      PartialBatchExhausts(left, clock(n), retentionMs, batch, more);
    }
    hide OldestPublished;
    hide PastRetention;
    hide NothingSweepable;
    hide FirstBySweep;
    hide DeleteRows;
    hide Rows;
  }

  lemma {:induction false} SweptRows(t: Table, now: int, retentionMs: int, batch: nat, more: set<Id>)
    requires FirstBySweep(t, SweepPool(t, now, retentionMs, {}), batch, more)
    ensures more <= t.Keys && |more| <= batch
    ensures forall i :: i in more ==> t[i].publishedAt.Some? && t[i].publishedAt.value + retentionMs < now
  {
  }

  lemma {:induction false} NextBatch(i: nat, batch: nat)
    ensures Rows(0, batch) == 0 && Rows(i + 1, batch) == Rows(i, batch) + batch
  {
  }

  lemma {:induction false} AtMost(i: nat, top: nat, batch: nat)
    requires i <= top
    ensures Rows(i, batch) <= Rows(top, batch)
  {
  }
}
