/**
  How long a publish phase takes. The worker that becomes free first takes the next group, so the pool is list
  scheduling; a group lasts as long as its sends, one after the other, each cut off by the publish timeout.
 */
module PoolTiming {

  const OUTBOX_BATCH_SIZE := 100
  const OUTBOX_CLAIM_STALE_MS := 60000
  const OUTBOX_PUBLISH_TIMEOUT_MS := 30000

  function Sum(xs: seq<nat>): nat {
    if xs == [] then 0 else Sum(xs[..|xs| - 1]) + xs[|xs| - 1]
  }

  /** The worker that becomes free first. */
  function Earliest(free: seq<nat>): (w: nat)
    requires |free| >= 1
    ensures w < |free| && forall v :: 0 <= v < |free| ==> free[w] <= free[v]
  {
    if |free| == 1 then 0
    else
      var w := Earliest(free[..|free| - 1]);
      assert forall v :: 0 <= v < |free| - 1 ==> free[..|free| - 1][v] == free[v];
      if free[|free| - 1] < free[w] then |free| - 1 else w
  }

  /** When each of the `m` workers is free again after taking groups of these durations in turn. */
  function FreeAfter(m: nat, durations: seq<nat>): (free: seq<nat>)
    requires m >= 1
    ensures |free| == m
  {
    if durations == [] then seq(m, _ => 0)
    else
      var free := FreeAfter(m, durations[..|durations| - 1]);
      var w := Earliest(free);
      free[w := free[w] + durations[|durations| - 1]]
  }

  /** When group `i` starts. */
  function StartOf(m: nat, durations: seq<nat>, i: nat): nat
    requires m >= 1 && i < |durations|
  {
    var free := FreeAfter(m, durations[..i]);
    free[Earliest(free)]
  }

  /** When the last worker is done. */
  function EndOf(m: nat, durations: seq<nat>): nat
    requires m >= 1
  {
    Latest(FreeAfter(m, durations))
  }

  function Latest(free: seq<nat>): (t: nat)
    requires |free| >= 1
    ensures t in free && forall v :: 0 <= v < |free| ==> free[v] <= t
  {
    if |free| == 1 then free[0]
    else
      var t := Latest(free[..|free| - 1]);
      assert forall v :: 0 <= v < |free| - 1 ==> free[..|free| - 1][v] == free[v];
      if free[|free| - 1] > t then free[|free| - 1] else t
  }

  // ---------------------------------------------------------------- sums

  lemma {:induction false} SumUpdate(xs: seq<nat>, k: nat, d: nat)
    requires k < |xs|
    ensures Sum(xs[k := xs[k] + d]) == Sum(xs) + d
    decreases |xs|
  {
    var ys := xs[k := xs[k] + d];
    var n := |xs| - 1;
    if k == n {
      assert ys[..n] == xs[..n];
    } else {
      assert ys[..n] == xs[..n][k := xs[..n][k] + d];
      SumUpdate(xs[..n], k, d);
    }
  }

  lemma {:induction false} SumAtLeast(xs: seq<nat>, low: nat)
    requires forall v :: 0 <= v < |xs| ==> low <= xs[v]
    ensures |xs| * low <= Sum(xs)
    decreases |xs|
  {
    if xs != [] {
      SumAtLeast(xs[..|xs| - 1], low);
      assert |xs| * low == (|xs| - 1) * low + low;
    }
  }

  lemma {:induction false} SumAtMost(xs: seq<nat>, high: nat)
    requires forall v :: 0 <= v < |xs| ==> xs[v] <= high
    ensures Sum(xs) <= |xs| * high
    decreases |xs|
  {
    if xs != [] {
      SumAtMost(xs[..|xs| - 1], high);
      assert |xs| * high == (|xs| - 1) * high + high;
    }
  }

  lemma {:induction false} SumZeros(m: nat)
    ensures Sum(seq(m, _ => 0)) == 0
  {
    if m > 0 {
      assert seq<nat>(m, _ => 0)[..m - 1] == seq(m - 1, _ => 0);
      SumZeros(m - 1);
    }
  }

  /** Nobody idles while the queue lasts: the workers' times add up to the work handed out. */
  lemma {:induction false} WorkIsConserved(m: nat, durations: seq<nat>)
    requires m >= 1
    ensures Sum(FreeAfter(m, durations)) == Sum(durations)
    decreases |durations|
  {
    if durations == [] {
      SumZeros(m);
    } else {
      var n := |durations| - 1;
      WorkIsConserved(m, durations[..n]);
      var free := FreeAfter(m, durations[..n]);
      var k := Earliest(free);
      assert FreeAfter(m, durations) == free[k := free[k] + durations[n]];
      hide FreeAfter;
      hide Earliest;
      SumUpdate(free, k, durations[n]);
    }
  }

  /** Group `i` starts no later than the work before it divided by the number of workers. */
  lemma {:induction false} StartBound(m: nat, durations: seq<nat>, i: nat)
    requires m >= 1 && i < |durations|
    ensures m * StartOf(m, durations, i) <= Sum(durations[..i])
  {
    WorkIsConserved(m, durations[..i]);
    var free := FreeAfter(m, durations[..i]);
    SumAtLeast(free, free[Earliest(free)]);
  }

  lemma {:induction false} LastStep(m: nat, before: nat, d: nat, work: nat, longest: nat)
    requires m >= 1 && m * before <= work && d <= longest
    ensures m * (before + d) <= work + d + (m - 1) * longest
  {
    assert m * (before + d) == m * before + d + (m - 1) * d;
    assert (m - 1) * d <= (m - 1) * longest;
  }

  /**
    The whole phase ends no later than the work, plus the longest group for all workers but one, divided by their
    number.
   */
  lemma {:induction false} EndBound(m: nat, durations: seq<nat>, longest: nat)
    requires m >= 1 && forall i :: 0 <= i < |durations| ==> durations[i] <= longest
    ensures m * EndOf(m, durations) <= Sum(durations) + (m - 1) * longest
  {
    WorkerBound(m, durations, longest);
  }

  lemma {:induction false} WorkerBound(m: nat, durations: seq<nat>, longest: nat)
    requires m >= 1 && forall i :: 0 <= i < |durations| ==> durations[i] <= longest
    ensures forall w :: 0 <= w < m ==> m * FreeAfter(m, durations)[w] <= Sum(durations) + (m - 1) * longest
    decreases |durations|
  {
    if durations != [] {
      var n := |durations| - 1;
      var free := FreeAfter(m, durations[..n]);
      var k := Earliest(free);
      WorkerBound(m, durations[..n], longest);
      WorkIsConserved(m, durations[..n]);
      SumAtLeast(free, free[k]);
      LastStep(m, free[k], durations[n], Sum(durations[..n]), longest);
      forall w | 0 <= w < m ensures m * FreeAfter(m, durations)[w] <= Sum(durations) + (m - 1) * longest {
        if w != k {
          assert m * free[w] <= Sum(durations[..n]) + (m - 1) * longest;
        }
      }
    }
  }

  // ---------------------------------------------------------------- batches

  /**
    A batch: for each aggregate the durations of its sends. None is longer than the timeout, and one that uses it up
    fails and is the last of its aggregate.
   */
  predicate Batch(groups: seq<seq<nat>>, timeout: nat) {
    forall g :: 0 <= g < |groups| ==> Group(groups[g], timeout)
  }

  predicate Group(group: seq<nat>, timeout: nat) {
    forall k :: 0 <= k < |group| ==> group[k] <= timeout && (k + 1 < |group| ==> group[k] < timeout)
  }

  function GroupDurations(groups: seq<seq<nat>>): (ds: seq<nat>)
    ensures |ds| == |groups| && forall g :: 0 <= g < |groups| ==> ds[g] == Sum(groups[g])
  {
    seq(|groups|, g requires 0 <= g < |groups| => Sum(groups[g]))
  }

  function RowCount(groups: seq<seq<nat>>): nat {
    if groups == [] then 0 else RowCount(groups[..|groups| - 1]) + |groups[|groups| - 1]|
  }

  /** `Math.max(1, Math.min(concurrency, queue.length))`. */
  function Workers(concurrency: nat, groups: nat): (m: nat)
    ensures m >= 1
  {
    if concurrency < 1 || groups < 1 then 1 else if concurrency < groups then concurrency else groups
  }

  /** How long the publish phase of the batch takes. */
  function PhaseTime(concurrency: nat, groups: seq<seq<nat>>): nat {
    EndOf(Workers(concurrency, |groups|), GroupDurations(groups))
  }

  lemma {:induction false} GroupTime(group: seq<nat>, timeoutMs: nat)
    requires forall k :: 0 <= k < |group| ==> group[k] <= timeoutMs
    ensures Sum(group) <= |group| * timeoutMs
  {
    SumAtMost(group, timeoutMs);
  }

  lemma {:induction false} TotalTime(groups: seq<seq<nat>>, timeoutMs: nat)
    requires Batch(groups, timeoutMs)
    ensures Sum(GroupDurations(groups)) <= RowCount(groups) * timeoutMs
    ensures forall g :: 0 <= g < |groups| ==> |groups[g]| <= RowCount(groups)
    decreases |groups|
  {
    if groups != [] {
      var n := |groups| - 1;
      TotalTime(groups[..n], timeoutMs);
      GroupTime(groups[n], timeoutMs);
      assert GroupDurations(groups)[..n] == GroupDurations(groups[..n]);
      Distribute(RowCount(groups[..n]), |groups[n]|, timeoutMs);
      hide Batch;
      forall g | 0 <= g < |groups| ensures |groups[g]| <= RowCount(groups) {
        if g < n {
          assert groups[g] == groups[..n][g];
        }
      }
    }
  }

  lemma {:induction false} Distribute(a: nat, b: nat, t: nat)
    ensures (a + b) * t == a * t + b * t
  {
  }

  lemma {:induction false} MultiplyMonotone(a: nat, b: nat, t: nat)
    requires a <= b
    ensures a * t <= b * t
  {
  }

  /**
    With `largest` rows in the largest group, the phase takes at most (rows + (m - 1) largest) timeouts over m
    workers.
   */
  lemma {:induction false} PhaseBound(m: nat, groups: seq<seq<nat>>, timeoutMs: nat, largest: nat)
    requires m >= 1 && Batch(groups, timeoutMs) && forall g :: 0 <= g < |groups| ==> |groups[g]| <= largest
    ensures m * EndOf(m, GroupDurations(groups)) <= RowCount(groups) * timeoutMs + (m - 1) * (largest * timeoutMs)
  {
    forall g | 0 <= g < |groups| ensures GroupDurations(groups)[g] <= largest * timeoutMs {
      GroupTime(groups[g], timeoutMs);
      assert |groups[g]| * timeoutMs <= largest * timeoutMs;
    }
    EndBound(m, GroupDurations(groups), largest * timeoutMs);
    TotalTime(groups, timeoutMs);
  }

  /**
    Every batch of at most `rows` rows is published within `windowMs`, time being counted in any fraction of a
    millisecond.
   */
  ghost predicate AllBatchesFit(concurrency: nat, rows: nat, timeoutMs: nat, windowMs: nat) {
    forall unit: nat, groups :: unit >= 1 && Batch(groups, Scaled(timeoutMs, unit)) && RowCount(groups) <= rows ==>
      PhaseTime(concurrency, groups) <= Scaled(windowMs, unit)
  }

  /** So many milliseconds in units of which `unit` make one. */
  function Scaled(ms: nat, unit: nat): nat {
    ms * unit
  }

  lemma {:induction false} Cancel(m: nat, t: nat, bound: nat)
    requires m >= 1 && m * t <= m * bound
    ensures t <= bound
  {
  }

  /** All rows of one aggregate, each answered one unit before the timeout. */
  lemma {:induction false} OneGroup(rows: nat, timeout: nat) returns (groups: seq<seq<nat>>)
    requires timeout >= 1
    ensures Batch(groups, timeout) && RowCount(groups) == rows && |groups| == 1
    ensures EndOf(1, GroupDurations(groups)) == rows * (timeout - 1)
  {
    var group: seq<nat> := seq(rows, _ => timeout - 1);
    groups := [group];
    SumSame(rows, timeout - 1);
    assert groups[..0] == [];
    var ds := GroupDurations(groups);
    assert ds[..0] == [];
    assert FreeAfter(1, ds) == [rows * (timeout - 1)];
  }

  lemma {:induction false} SumSame(n: nat, d: nat)
    ensures Sum(seq(n, _ => d)) == n * d
  {
    if n > 0 {
      assert seq<nat>(n, _ => d)[..n - 1] == seq(n - 1, _ => d);
      SumSame(n - 1, d);
      assert n * d == (n - 1) * d + d;
    }
  }

  /**
    Counted finely enough, sends answered just before the timeout fill any window that does not hold all the
    timeouts.
   */
  lemma {:induction false} JustBelow(rows: nat, timeoutMs: nat, windowMs: nat)
    requires windowMs < rows * timeoutMs
    ensures Scaled(timeoutMs, rows + 1) >= 1
    ensures rows * (Scaled(timeoutMs, rows + 1) - 1) > Scaled(windowMs, rows + 1)
  {
    var unit := rows + 1;
    assert timeoutMs >= 1;
    assert rows * (timeoutMs * unit - 1) == rows * timeoutMs * unit - rows;
    MultiplyMonotone(windowMs + 1, rows * timeoutMs, unit);
    assert (windowMs + 1) * unit == windowMs * unit + unit;
  }

  /**
    What it takes for no tick to outlive its claim: whatever the number of workers, every batch is published within
    the stale window exactly when a whole batch of timeouts is, since all its rows may be of one aggregate.
   */
  lemma {:induction false} WindowMustHoldBatch(concurrency: nat, rows: nat, timeoutMs: nat, windowMs: nat)
    ensures AllBatchesFit(concurrency, rows, timeoutMs, windowMs) <==> rows * timeoutMs <= windowMs
  {
    if windowMs < rows * timeoutMs {
      JustBelow(rows, timeoutMs, windowMs);
      var groups := OneGroup(rows, Scaled(timeoutMs, rows + 1));
      assert PhaseTime(concurrency, groups) == rows * (Scaled(timeoutMs, rows + 1) - 1);
      hide *;
      assert !AllBatchesFit(concurrency, rows, timeoutMs, windowMs) by {
        Misfit(concurrency, rows, timeoutMs, windowMs, rows + 1, groups);
      }
    } else {
      hide EndOf;
      hide RowCount;
      hide Batch;
      hide Scaled;
      forall unit: nat, groups | unit >= 1 && Batch(groups, Scaled(timeoutMs, unit)) && RowCount(groups) <= rows
        ensures PhaseTime(concurrency, groups) <= Scaled(windowMs, unit)
      {
        FitsBatch(concurrency, groups, rows, Scaled(timeoutMs, unit));
        ScaledBound(rows, timeoutMs, windowMs, unit);
      }
    }
  }

  lemma {:induction false} ScaledBound(rows: nat, timeoutMs: nat, windowMs: nat, unit: nat)
    requires rows * timeoutMs <= windowMs
    ensures rows * Scaled(timeoutMs, unit) <= Scaled(windowMs, unit)
  {
    assert rows * (timeoutMs * unit) == rows * timeoutMs * unit;
    MultiplyMonotone(rows * timeoutMs, windowMs, unit);
  }

  lemma {:induction false} Misfit(
    concurrency: nat, rows: nat, timeoutMs: nat, windowMs: nat, unit: nat, groups: seq<seq<nat>>)
    requires unit >= 1 && Batch(groups, Scaled(timeoutMs, unit)) && RowCount(groups) <= rows
    requires PhaseTime(concurrency, groups) > Scaled(windowMs, unit)
    ensures !AllBatchesFit(concurrency, rows, timeoutMs, windowMs)
  {
    hide EndOf;
    hide Batch;
    hide RowCount;
  }

  lemma {:induction false} FitsBatch(concurrency: nat, groups: seq<seq<nat>>, rows: nat, timeoutMs: nat)
    requires Batch(groups, timeoutMs) && RowCount(groups) <= rows
    ensures PhaseTime(concurrency, groups) <= rows * timeoutMs
  {
    var m := Workers(concurrency, |groups|);
    hide EndOf;
    hide Sum;
    hide RowCount;
    TotalTime(groups, timeoutMs);
    PhaseBound(m, groups, timeoutMs, RowCount(groups));
    var n := RowCount(groups) * timeoutMs;
    MultiplyMonotone(RowCount(groups), rows, timeoutMs);
    Distribute(1, m - 1, n);
    Cancel(m, PhaseTime(concurrency, groups), n);
  }

  /**
    The start-up check compares one timeout with the window; with the default settings it passes and batches do not
    fit.
   */
  lemma {:induction false} DefaultsPassTheCheckAndOverrun(concurrency: nat)
    ensures OUTBOX_PUBLISH_TIMEOUT_MS < OUTBOX_CLAIM_STALE_MS
    ensures !AllBatchesFit(concurrency, OUTBOX_BATCH_SIZE, OUTBOX_PUBLISH_TIMEOUT_MS, OUTBOX_CLAIM_STALE_MS)
  {
    WindowMustHoldBatch(concurrency, OUTBOX_BATCH_SIZE, OUTBOX_PUBLISH_TIMEOUT_MS, OUTBOX_CLAIM_STALE_MS);
  }
}
