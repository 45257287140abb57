/**
  What the worker pool buys: with `k` workers that never idle while a row may start, and at most `most` rows of one
  aggregate in a batch, how wide the stale window has to be.
 */
module OutboxPool {
  import opened Common
  import opened Outbox
  import opened OutboxSystem
  import opened OutboxDeadline
  import X = OutboxExclusivity
  import O = OutboxOnce
  import V = OutboxOvertaking

  /** Rows not yet settled in this tick. */
  function Open(b: Replica): set<Id>
    requires b.Busy?
  {
    b.todo + b.sending.Keys
  }

  function Group(s: State, ids: set<Id>, id: Id): set<Id> {
    set j | j in ids && SameAggregate(s, j, id)
  }

  /** The start of the first send is over by then. */
  function Ready(p: Pace, b: Replica): int
    requires b.Busy?
  {
    b.claimedAt + p.claim
  }

  /** Once the pool is at work, a worker is without a send only when no row may start. */
  predicate NeverIdle(p: Pace, t: Timed, r: Rid, to: int) {
    var b := At(t.s, r);
    b.Busy? && to > Ready(p, b) && |b.sending| < p.workers ==> forall id :: id in b.todo ==> !Head(t.s, b, id)
  }

  predicate InPool(p: Pace, most: nat, t: Timed, step: Step) {
    match step
    case Elapse(to) => forall r :: r in t.s.replicas ==> NeverIdle(p, t, r, to)
    case Claim(_, ids, _) => forall id :: id in ids ==> |Group(t.s, ids, id)| <= most
    case _ => true
  }

  /** A run that keeps the pace with the pool at work. */
  predicate AllPooled(c: Config, p: Pace, most: nat, t: Timed, steps: seq<Step>)
    decreases |steps|
  {
    steps == [] ||
      (Allowed(c, p, t, steps[0]) && InPool(p, most, t, steps[0]) &&
        AllPooled(c, p, most, Next(c, p, t, steps[0]), steps[1..]))
  }

  lemma {:induction false} PooledIsAllowed(c: Config, p: Pace, most: nat, t: Timed, steps: seq<Step>)
    requires AllPooled(c, p, most, t, steps)
    ensures AllAllowed(c, p, t, steps)
    decreases |steps|
  {
    if steps != [] {
      PooledIsAllowed(c, p, most, Next(c, p, t, steps[0]), steps[1..]);
    }
  }

  // ---------------------------------------------------------------- sums over rows

  ghost function Total(rest: map<Id, nat>, ids: set<Id>): nat
    requires ids <= rest.Keys
  {
    if ids == {} then 0 else var id :| id in ids; rest[id] + Total(rest, ids - {id})
  }

  lemma {:induction false} TotalSplit(rest: map<Id, nat>, ids: set<Id>, id: Id)
    requires ids <= rest.Keys && id in ids
    ensures Total(rest, ids) == rest[id] + Total(rest, ids - {id})
    decreases ids
  {
    var first :| first in ids && Total(rest, ids) == rest[first] + Total(rest, ids - {first});
    if first != id {
      TotalSplit(rest, ids - {first}, id);
      TotalSplit(rest, ids - {id}, first);
      assert ids - {first} - {id} == ids - {id} - {first};
    }
  }

  lemma {:induction false} TotalLess(rest: map<Id, nat>, ids: set<Id>, rest': map<Id, nat>, ids': set<Id>)
    requires ids <= rest.Keys && ids' <= rest'.Keys && ids' <= ids
    requires forall id :: id in ids' ==> rest'[id] <= rest[id]
    ensures Total(rest', ids') <= Total(rest, ids)
    decreases ids
  {
    if id :| id in ids {
      TotalSplit(rest, ids, id);
      if id in ids' {
        TotalSplit(rest', ids', id);
      } else {
        assert ids' - {id} == ids';
      }
      TotalLess(rest, ids - {id}, rest', ids' - {id});
    }
  }

  /** Rows in `falling` have so much less to go. */
  lemma {:induction false} TotalFalls(
    rest: map<Id, nat>, rest': map<Id, nat>, ids: set<Id>, falling: set<Id>, gone: nat)
    requires ids <= rest.Keys && ids <= rest'.Keys && falling <= ids
    requires forall id :: id in ids ==> rest[id] == rest'[id] + if id in falling then gone else 0
    ensures Total(rest, ids) == Total(rest', ids) + gone * |falling|
    decreases ids
  {
    if id :| id in ids {
      TotalSplit(rest, ids, id);
      TotalSplit(rest', ids, id);
      TotalFalls(rest, rest', ids - {id}, falling - {id}, gone);
      if id in falling {
        OneMoreTime(gone, |falling - {id}|);
        assert |falling| == |falling - {id}| + 1;
      } else {
        assert falling - {id} == falling;
      }
      hide Total;
    }
  }

  lemma {:induction false} TotalAtMost(rest: map<Id, nat>, ids: set<Id>, each: nat)
    requires ids <= rest.Keys && forall id :: id in ids ==> rest[id] <= each
    ensures Total(rest, ids) <= each * |ids|
    decreases ids
  {
    if id :| id in ids {
      TotalSplit(rest, ids, id);
      TotalAtMost(rest, ids - {id}, each);
      OneMoreTime(each, |ids - {id}|);
      assert |ids| == |ids - {id}| + 1;
      hide Total;
    }
  }

  lemma {:induction false} OneMoreTime(each: nat, n: nat)
    ensures each * (n + 1) == each * n + each
  {
  }

  // ---------------------------------------------------------------- the bound and what keeps it

  function Max(a: int, b: int): int {
    if a < b then b else a
  }

  /** How long each open row can still be on the wire. */
  function Rest(p: Pace, t: Timed, b: Replica): (rest: map<Id, nat>)
    requires b.Busy?
    ensures rest.Keys == Open(b)
  {
    map id | id in Open(b) ::
      if id in b.sending && b.sending[id] in t.started
      then Max(0, t.started[b.sending[id]] + p.timeout - Max(t.s.now, Ready(p, b)))
      else p.timeout
  }

  /** `k` times the clock, the work left, and `k - 1` times the work left in one aggregate. */
  function Load(k: nat, clock: int, work: int, chain: int): int {
    k * clock + work + (k - 1) * chain
  }

  function Share(k: nat, clock: int): int {
    k * clock
  }

  ghost function Potential(p: Pace, t: Timed, b: Replica, id: Id): int
    requires b.Busy?
  {
    Load(p.workers, Max(t.s.now, Ready(p, b)), Total(Rest(p, t, b), Open(b)),
         Total(Rest(p, t, b), Group(t.s, Open(b), id)))
  }

  /** What it is at most when the batch is claimed. */
  function Budget(n: nat, p: Pace, most: nat, b: Replica): int
    requires b.Busy?
  {
    Load(p.workers, Ready(p, b), p.timeout * n, p.timeout * most)
  }

  predicate Shaped(t: Timed, r: Rid) {
    var b := At(t.s, r);
    b.Busy? ==>
      && b.todo !! b.sending.Keys && Open(b) <= t.s.catalog.Keys && r in t.settled
      && forall id :: id in b.sending ==>
           b.sending[id] in t.s.sends && b.sending[id] in t.started && t.started[b.sending[id]] <= t.s.now
  }

  ghost predicate Bounded(n: nat, p: Pace, most: nat, t: Timed, r: Rid) {
    var b := At(t.s, r);
    b.Busy? ==>
      && (forall id :: id in Open(b) ==> Potential(p, t, b, id) <= Budget(n, p, most, b))
      && (Open(b) == {} && r in t.settled ==>
            Share(p.workers, t.settled[r]) <= Budget(n, p, most, b) && t.s.now <= t.settled[r] + p.ack)
  }

  ghost predicate WellPaced(n: nat, p: Pace, most: nat, t: Timed, r: Rid) {
    Shaped(t, r) && Bounded(n, p, most, t, r)
  }

  ghost predicate AllWellPaced(c: Config, p: Pace, most: nat, t: Timed)
    requires c.batchSize >= 0
  {
    && CatalogMatches(t.s) && (forall no :: no in t.started ==> no in t.s.sends)
    && forall r: Rid :: WellPaced(c.batchSize, p, most, t, r)
  }

  /** While rows are open, so much is left of the budget. */
  lemma {:induction false} ClockWithinBudget(n: nat, p: Pace, most: nat, t: Timed, r: Rid)
    requires p.workers >= 1 && At(t.s, r).Busy? && Bounded(n, p, most, t, r) && Open(At(t.s, r)) != {}
    ensures Share(p.workers, t.s.now) <= Budget(n, p, most, At(t.s, r))
  {
    var b := At(t.s, r);
    var id :| id in Open(b);
    hide *;
    OpenWithinBudget(n, p, most, t, r, id);
    PotentialHolds(p, t, b, id, Budget(n, p, most, b));
  }

  lemma {:induction false} OpenWithinBudget(n: nat, p: Pace, most: nat, t: Timed, r: Rid, id: Id)
    requires At(t.s, r).Busy? && Bounded(n, p, most, t, r) && id in Open(At(t.s, r))
    ensures Potential(p, t, At(t.s, r), id) <= Budget(n, p, most, At(t.s, r))
  {
  }

  lemma {:induction false} PotentialHolds(p: Pace, t: Timed, b: Replica, id: Id, budget: int)
    requires p.workers >= 1 && b.Busy? && Potential(p, t, b, id) <= budget
    ensures Share(p.workers, t.s.now) <= budget
  {
    var m, w, l := Parts(p, t, b, id);
    hide *;
    LoadIsMore(p.workers, t.s.now, m, w, l);
  }

  lemma {:induction false} LoadIsMore(k: nat, now: int, clock: int, work: nat, chain: nat)
    requires k >= 1 && now <= clock
    ensures Share(k, now) <= Load(k, clock, work, chain)
  {
    Times(k, now, clock);
    NotNegative(k - 1, chain);
  }

  lemma {:induction false} NotNegative(a: nat, b: nat)
    ensures a * b >= 0
  {
  }

  lemma {:induction false} LoadGrows(k: nat, clock: int, work: int, chain: int, work': int, chain': int)
    requires k >= 1 && work' <= work && chain' <= chain
    ensures Load(k, clock, work', chain') <= Load(k, clock, work, chain)
  {
    Times(k - 1, chain', chain);
  }

  lemma {:induction false} Parts(p: Pace, t: Timed, b: Replica, id: Id) returns (m: int, w: nat, l: nat)
    requires b.Busy?
    ensures m == Max(t.s.now, Ready(p, b)) && m >= t.s.now && m >= Ready(p, b) && (m == t.s.now || m == Ready(p, b))
    ensures w == Total(Rest(p, t, b), Open(b)) && Group(t.s, Open(b), id) <= Open(b)
    ensures l == Total(Rest(p, t, b), Group(t.s, Open(b), id))
    ensures Potential(p, t, b, id) == Load(p.workers, m, w, l)
  {
    m, w := Max(t.s.now, Ready(p, b)), Total(Rest(p, t, b), Open(b));
    l := Total(Rest(p, t, b), Group(t.s, Open(b), id));
  }

  lemma {:induction false} Times(k: nat, a: int, b: int)
    requires a <= b
    ensures k * a <= k * b
  {
  }

  /** With fewer open rows, and no more left of each, at the same time, the potential is no higher. */
  lemma {:induction false} LessLeft(p: Pace, t: Timed, b: Replica, t': Timed, b': Replica, id: Id)
    requires b.Busy? && b'.Busy? && p.workers >= 1 && b'.claimedAt == b.claimedAt && t'.s.now == t.s.now
    requires Open(b') <= Open(b) && Group(t'.s, Open(b'), id) <= Group(t.s, Open(b), id)
    requires forall j :: j in Open(b') ==> Rest(p, t', b')[j] <= Rest(p, t, b)[j]
    ensures Potential(p, t', b', id) <= Potential(p, t, b, id)
  {
    assert Ready(p, b') == Ready(p, b);
    hide *;
    var m, w, l := Parts(p, t, b, id);
    var m', w', l' := Parts(p, t', b', id);
    TotalLess(Rest(p, t, b), Open(b), Rest(p, t', b'), Open(b'));
    TotalLess(Rest(p, t, b), Group(t.s, Open(b), id), Rest(p, t', b'), Group(t'.s, Open(b'), id));
    LoadGrows(p.workers, m, w, l, w', l');
  }

  // ---------------------------------------------------------------- time passes

  /** What so many sends side by side do in that time. */
  function Sent(gone: nat, sends: nat): (work: nat) {
    gone * sends
  }

  lemma {:induction false} BusyBalance(k: nat, m: int, m': int, count: nat, w: int, w': int, l: int, l': int)
    requires k >= 1 && m <= m' && count >= k && w == w' + Sent(m' - m, count) && l' <= l
    ensures Load(k, m', w', l') <= Load(k, m, w, l)
  {
    Times(m' - m, k, count);
    Times(k - 1, l', l);
    assert k * m' == k * m + (m' - m) * k;
  }

  lemma {:induction false} ChainBalance(k: nat, m: int, m': int, w: int, w': int, l: int, l': int)
    requires k >= 1 && m <= m' && w >= w' + (m' - m) && l >= l' + (m' - m)
    ensures Load(k, m', w', l') <= Load(k, m, w, l)
  {
    Times(k - 1, l' + (m' - m), l);
    assert (k - 1) * (l' + (m' - m)) == (k - 1) * l' + k * m' - k * m - (m' - m);
  }

  /** Where no row may start, every open group has a row on the wire. */
  lemma {:induction false} GroupIsUnderWay(s: State, b: Replica, id: Id) returns (j: Id)
    requires CatalogMatches(s) && b.Busy? && Open(b) <= s.catalog.Keys && id in Open(b)
    requires forall i :: i in b.todo ==> !Head(s, b, i)
    ensures j in b.sending && j in Group(s, Open(b), id)
  {
    if id in b.sending {
      j := id;
    } else {
      var first := V.FirstOfGroup(s, b.todo, id);
      assert !Head(s, b, first);
      j :| j in b.todo + b.sending.Keys && j != first && SameAggregate(s, j, first) && !Sorts(s, first, j);
    }
  }

  /** Before the pool is at work nothing of it is used up. */
  lemma {:induction false} PotentialWaits(p: Pace, t: Timed, b: Replica, to: int, id: Id)
    requires b.Busy? && t.s.now <= to <= Ready(p, b)
    ensures Potential(p, t.(s := t.s.(now := to)), b, id) == Potential(p, t, b, id)
  {
    var t' := t.(s := t.s.(now := to));
    assert Rest(p, t', b) == Rest(p, t, b);
    assert Group(t'.s, Open(b), id) == Group(t.s, Open(b), id);
    hide Rest;
    hide Group;
    hide Total;
  }

  /** What each of these rows has less to go at `t'` than at `t`. */
  ghost predicate WorkDone(p: Pace, t: Timed, t': Timed, b: Replica, ids: set<Id>)
    requires b.Busy? && ids <= Open(b)
  {
    var m, m' := Max(t.s.now, Ready(p, b)), Max(t'.s.now, Ready(p, b));
    m <= m' && Total(Rest(p, t, b), ids) == Total(Rest(p, t', b), ids) + Sent(m' - m, |ids * b.sending.Keys|)
  }

  lemma {:induction false} WorkIs(p: Pace, t: Timed, t': Timed, b: Replica, ids: set<Id>)
    requires b.Busy? && ids <= Open(b) && WorkDone(p, t, t', b, ids)
    ensures ids <= Rest(p, t, b).Keys && ids <= Rest(p, t', b).Keys
    ensures var m, m' := Max(t.s.now, Ready(p, b)), Max(t'.s.now, Ready(p, b));
            && m <= m' && Total(Rest(p, t, b), ids) >= Total(Rest(p, t', b), ids)
            && Total(Rest(p, t, b), ids) == Total(Rest(p, t', b), ids) + Sent(m' - m, |ids * b.sending.Keys|)
  {
    NotNegative(Max(t'.s.now, Ready(p, b)) - Max(t.s.now, Ready(p, b)), |ids * b.sending.Keys|);
  }

  lemma {:induction false} BusyFalls(p: Pace, t: Timed, t': Timed, b: Replica, id: Id)
    requires b.Busy? && p.workers >= 1 && Group(t'.s, Open(b), id) == Group(t.s, Open(b), id)
    requires WorkDone(p, t, t', b, Open(b)) && WorkDone(p, t, t', b, Group(t.s, Open(b), id))
    requires |Open(b) * b.sending.Keys| >= p.workers
    ensures Potential(p, t', b, id) <= Potential(p, t, b, id)
  {
    hide *;
    var m, w, l := Parts(p, t, b, id);
    var m', w', l' := Parts(p, t', b, id);
    WorkIs(p, t, t', b, Open(b));
    WorkIs(p, t, t', b, Group(t.s, Open(b), id));
    BusyBalance(p.workers, m, m', |Open(b) * b.sending.Keys|, w, w', l, l');
  }

  lemma {:induction false} ChainFalls(p: Pace, t: Timed, t': Timed, b: Replica, id: Id, j: Id)
    requires b.Busy? && p.workers >= 1 && Group(t'.s, Open(b), id) == Group(t.s, Open(b), id)
    requires WorkDone(p, t, t', b, Open(b)) && WorkDone(p, t, t', b, Group(t.s, Open(b), id))
    requires j in Group(t.s, Open(b), id) * b.sending.Keys
    ensures Potential(p, t', b, id) <= Potential(p, t, b, id)
  {
    hide *;
    var m, w, l := Parts(p, t, b, id);
    var m', w', l' := Parts(p, t', b, id);
    WorkIs(p, t, t', b, Open(b));
    WorkIs(p, t, t', b, Group(t.s, Open(b), id));
    AtLeastOne(m' - m, Open(b) * b.sending.Keys, j);
    AtLeastOne(m' - m, Group(t.s, Open(b), id) * b.sending.Keys, j);
    ChainBalance(p.workers, m, m', w, w', l, l');
  }

  lemma {:induction false} PotentialFalls(p: Pace, t: Timed, r: Rid, to: int, id: Id)
    requires p.workers >= 1 && CatalogMatches(t.s) && t.s.now <= to && At(t.s, r).Busy? && to > Ready(p, At(t.s, r))
    requires var b := At(t.s, r);
             && b.todo !! b.sending.Keys && Open(b) <= t.s.catalog.Keys && id in Open(b)
             && forall j :: j in b.sending ==> b.sending[j] in t.started
    requires MayWait(p, t, r, to) && NeverIdle(p, t, r, to)
    ensures var b := At(t.s, r); Potential(p, t.(s := t.s.(now := to)), b, id) <= Potential(p, t, b, id)
  {
    var b, t' := At(t.s, r), t.(s := t.s.(now := to));
    SameGroup(t, to, Open(b), id);
    Elapsed(p, t, r, to, Open(b));
    Elapsed(p, t, r, to, Group(t.s, Open(b), id));
    hide WorkDone;
    hide Potential;
    if |b.sending| >= p.workers {
      PoolIsBusy(b);
      BusyFalls(p, t, t', b, id);
    } else {
      var j := GroupIsUnderWay(t.s, b, id);
      ChainFalls(p, t, t', b, id, j);
    }
  }

  lemma {:induction false} PoolIsBusy(b: Replica)
    requires b.Busy?
    ensures |Open(b) * b.sending.Keys| == |b.sending|
  {
    assert Open(b) * b.sending.Keys == b.sending.Keys;
    assert |b.sending| == |b.sending.Keys|;
  }

  lemma {:induction false} SameGroup(t: Timed, to: int, ids: set<Id>, id: Id)
    ensures Group(t.(s := t.s.(now := to)).s, ids, id) == Group(t.s, ids, id)
  {
  }

  /** Of these rows, those on the wire have so much less to go. */
  lemma {:induction false} Elapsed(p: Pace, t: Timed, r: Rid, to: int, ids: set<Id>)
    requires At(t.s, r).Busy? && t.s.now <= to && to > Ready(p, At(t.s, r)) && MayWait(p, t, r, to)
    requires var b := At(t.s, r);
             && b.todo !! b.sending.Keys && ids <= Open(b)
             && forall id :: id in b.sending ==> b.sending[id] in t.started
    ensures var b, t' := At(t.s, r), t.(s := t.s.(now := to));
            WorkDone(p, t, t', b, ids)
  {
    var b, t' := At(t.s, r), t.(s := t.s.(now := to));
    RestFalls(p, t, r, to);
    ElapsedTo(p, t, t', b, ids, Max(t.s.now, Ready(p, b)), to);
  }

  lemma {:induction false} ElapsedTo(p: Pace, t: Timed, t': Timed, b: Replica, ids: set<Id>, m: int, m': int)
    requires b.Busy? && ids <= Open(b) && m <= m'
    requires m == Max(t.s.now, Ready(p, b)) && m' == Max(t'.s.now, Ready(p, b))
    requires forall id :: id in Open(b) ==>
               Rest(p, t, b)[id] == Rest(p, t', b)[id] + if id in b.sending.Keys then m' - m else 0
    ensures WorkDone(p, t, t', b, ids)
  {
    TotalFalls(Rest(p, t, b), Rest(p, t', b), ids, ids * b.sending.Keys, m' - m);
    hide Rest;
    hide Total;
    hide Open;
  }

  lemma {:induction false} AtLeastOne(gone: nat, ids: set<Id>, j: Id)
    requires j in ids
    ensures Sent(gone, |ids|) >= gone
  {
    assert |ids| >= 1;
    Times(gone, 1, |ids|);
  }

  lemma {:induction false} RestFalls(p: Pace, t: Timed, r: Rid, to: int)
    requires At(t.s, r).Busy? && t.s.now <= to && to > Ready(p, At(t.s, r)) && MayWait(p, t, r, to)
    requires var b := At(t.s, r);
             b.todo !! b.sending.Keys && forall id :: id in b.sending ==> b.sending[id] in t.started
    ensures var b, t' := At(t.s, r), t.(s := t.s.(now := to));
            forall id :: id in Open(b) ==>
              Rest(p, t, b)[id] ==
              Rest(p, t', b)[id] + if id in b.sending.Keys then to - Max(t.s.now, Ready(p, b)) else 0
  {
  }

  lemma {:induction false} ElapseBounded(n: nat, p: Pace, most: nat, t: Timed, r: Rid, to: int, id: Id)
    requires p.workers >= 1 && CatalogMatches(t.s) && t.s.now <= to && WellPaced(n, p, most, t, r)
    requires At(t.s, r).Busy? && MayWait(p, t, r, to) && NeverIdle(p, t, r, to) && id in Open(At(t.s, r))
    ensures var b := At(t.s, r); Potential(p, t.(s := t.s.(now := to)), b, id) <= Budget(n, p, most, b)
  {
    hide NeverIdle;
    hide MayWait;
    hide CatalogMatches;
    hide Potential;
    hide Budget;
    if to <= Ready(p, At(t.s, r)) {
      PotentialWaits(p, t, At(t.s, r), to, id);
    } else {
      PotentialFalls(p, t, r, to, id);
    }
  }

  lemma {:induction false} ElapseWell(n: nat, p: Pace, most: nat, t: Timed, r: Rid, to: int)
    requires p.workers >= 1 && CatalogMatches(t.s) && t.s.now <= to && WellPaced(n, p, most, t, r)
    requires At(t.s, r).Busy? ==> MayWait(p, t, r, to) && NeverIdle(p, t, r, to)
    ensures WellPaced(n, p, most, t.(s := t.s.(now := to)), r)
  {
    hide NeverIdle;
    hide CatalogMatches;
    hide Potential;
    hide Budget;
    hide Share;
    var b, t' := At(t.s, r), t.(s := t.s.(now := to));
    assert At(t'.s, r) == b;
    if b.Busy? {
      assert Open(b) == {} ==> b.sending == map[];
      forall id | id in Open(b) ensures Potential(p, t', b, id) <= Budget(n, p, most, b) {
        ElapseBounded(n, p, most, t, r, to, id);
      }
    }
  }

  // ---------------------------------------------------------------- the steps of a tick

  lemma {:induction false} SamePotential(p: Pace, t: Timed, b: Replica, t': Timed, b': Replica, id: Id)
    requires b.Busy? && b'.Busy? && b'.claimedAt == b.claimedAt && b'.todo == b.todo && b'.sending == b.sending
    requires t'.s.now == t.s.now && Grows(t.s, t'.s) && Open(b) <= t.s.catalog.Keys && id in Open(b)
    requires forall j :: j in b.sending ==>
               b.sending[j] in t.started && b.sending[j] in t'.started &&
               t'.started[b.sending[j]] == t.started[b.sending[j]]
    ensures Potential(p, t', b', id) == Potential(p, t, b, id)
  {
    assert Open(b') == Open(b) && Ready(p, b') == Ready(p, b);
    SameRest(p, t, b, t', b');
    GrownGroup(t.s, t'.s, Open(b), id);
    hide *;
    var m, w, l := Parts(p, t, b, id);
    var m', w', l' := Parts(p, t', b', id);
  }

  lemma {:induction false} SameRest(p: Pace, t: Timed, b: Replica, t': Timed, b': Replica)
    requires b.Busy? && b'.Busy? && b'.claimedAt == b.claimedAt && b'.todo == b.todo && b'.sending == b.sending
    requires t'.s.now == t.s.now
    requires forall j :: j in b.sending ==>
               b.sending[j] in t.started && b.sending[j] in t'.started &&
               t'.started[b.sending[j]] == t.started[b.sending[j]]
    ensures Rest(p, t', b') == Rest(p, t, b)
  {
  }

  lemma {:induction false} GrownGroup(s: State, s': State, ids: set<Id>, id: Id)
    requires Grows(s, s') && ids <= s.catalog.Keys && id in ids
    ensures Group(s', ids, id) == Group(s, ids, id)
  {
  }

  /** A replica whose rows, sends and groups are what they were. */
  lemma {:induction false} SameWell(n: nat, p: Pace, most: nat, t: Timed, t': Timed, r: Rid)
    requires WellPaced(n, p, most, t, r) && t'.s.now == t.s.now && Grows(t.s, t'.s)
    requires forall no :: no in t.s.sends && no in t.started ==> no in t'.started && t'.started[no] == t.started[no]
    requires r in t.settled ==> r in t'.settled && t'.settled[r] == t.settled[r]
    requires var b, b' := At(t.s, r), At(t'.s, r);
             b'.Busy? ==>
               b.Busy? && b'.claimedAt == b.claimedAt && b'.todo == b.todo && b'.sending == b.sending
    ensures WellPaced(n, p, most, t', r)
  {
    var b, b' := At(t.s, r), At(t'.s, r);
    if b'.Busy? {
      forall id | id in Open(b) ensures Potential(p, t', b', id) <= Budget(n, p, most, b) {
        SamePotential(p, t, b, t', b', id);
      }
      hide Potential;
      assert Budget(n, p, most, b') == Budget(n, p, most, b);
      hide Budget;
    }
    hide At;
  }

  lemma {:induction false} OthersWell(c: Config, p: Pace, most: nat, t: Timed, step: Step, r: Rid)
    requires c.batchSize >= 0 && Allowed(c, p, t, step) && Actor(step) != Some(r) && !step.Elapse?
    requires WellPaced(c.batchSize, p, most, t, r) && forall no :: no in t.started ==> no in t.s.sends
    ensures WellPaced(c.batchSize, p, most, Next(c, p, t, step), r)
  {
    var t' := Next(c, p, t, step);
    OthersUntouched(c, t.s, step, r);
    StepGrows(c, t.s, step);
    NextTimes(c, p, t, step, r);
    hide *;
    SameWell(c.batchSize, p, most, t, t', r);
  }

  lemma {:induction false} NextTimes(c: Config, p: Pace, t: Timed, step: Step, r: Rid)
    requires Allowed(c, p, t, step) && !step.Elapse? && forall no :: no in t.started ==> no in t.s.sends
    ensures var t' := Next(c, p, t, step);
            && t'.s == Apply(c, t.s, step) && t'.s.now == t.s.now
            && (forall no :: no in t.started ==> no in t'.started && t'.started[no] == t.started[no])
            && (Actor(step) != Some(r) && r in t.settled ==> r in t'.settled && t'.settled[r] == t.settled[r])
  {
    hide Head;
    hide FirstByKey;
    hide FirstBySweep;
  }

  lemma {:induction false} AckWell(c: Config, p: Pace, most: nat, t: Timed, step: Step, r: Rid)
    requires c.batchSize >= 0 && Allowed(c, p, t, step) && Actor(step) == Some(r)
    requires step.AckPublished? || step.AckReleased? || step.AckPoisoned? || step.Finish? || step.Crash?
    requires WellPaced(c.batchSize, p, most, t, r)
    ensures WellPaced(c.batchSize, p, most, Next(c, p, t, step), r)
  {
    var t' := Next(c, p, t, step);
    StepGrows(c, t.s, step);
    assert t'.started == t.started && t'.settled == t.settled && t'.s.now == t.s.now;
    hide WellPaced;
    SameWell(c.batchSize, p, most, t, t', r);
  }

  lemma {:induction false} ClaimWell(
    c: Config, p: Pace, most: nat, t: Timed, r: Rid, ids: set<Id>, locked: set<Id>)
    requires c.batchSize >= 0 && p.workers >= 1 && CatalogMatches(t.s) && Allowed(c, p, t, Claim(r, ids, locked))
    requires InPool(p, most, t, Claim(r, ids, locked))
    ensures WellPaced(c.batchSize, p, most, Next(c, p, t, Claim(r, ids, locked)), r)
  {
    var t' := Next(c, p, t, Claim(r, ids, locked));
    X.ClaimEffect(c, t.s, r, ids, locked, r);
    Written(c, t.s, Claim(r, ids, locked));
    assert |ids| <= c.batchSize && r in t'.settled && t'.s.now == t.s.now && ids <= t'.s.catalog.Keys;
    SameGroups(t.s, t'.s, ids);
    hide Next;
    hide Allowed;
    hide Group;
    hide CatalogMatches;
    if ids != {} {
      FreshWell(c.batchSize, p, most, t', r, ids);
    } else {
      hide Bounded;
    }
  }

  lemma {:induction false} SameGroups(s: State, s': State, ids: set<Id>)
    requires s'.catalog == s.catalog
    ensures forall id :: Group(s', ids, id) == Group(s, ids, id)
  {
    forall id ensures Group(s', ids, id) == Group(s, ids, id) {
      SmallerGroup(s, s', ids, ids, id);
      SmallerGroup(s', s, ids, ids, id);
    }
  }

  lemma {:induction false} FreshWell(n: nat, p: Pace, most: nat, t: Timed, r: Rid, ids: set<Id>)
    requires p.workers >= 1 && At(t.s, r) == Busy(t.s.now, ids, map[], {}, {}, {}) && ids != {} && |ids| <= n
    requires r in t.settled && ids <= t.s.catalog.Keys && forall id :: id in ids ==> |Group(t.s, ids, id)| <= most
    ensures WellPaced(n, p, most, t, r)
  {
    var b := At(t.s, r);
    assert Open(b) == ids;
    forall id | id in ids ensures Potential(p, t, b, id) <= Budget(n, p, most, b) {
      FreshPotential(n, p, most, t, b, id);
    }
    hide Potential;
    hide Budget;
  }

  lemma {:induction false} FreshPotential(n: nat, p: Pace, most: nat, t: Timed, b: Replica, id: Id)
    requires p.workers >= 1 && b.Busy? && b.claimedAt == t.s.now && b.sending == map[] && |Open(b)| <= n
    requires id in Open(b) && |Group(t.s, Open(b), id)| <= most
    ensures Potential(p, t, b, id) <= Budget(n, p, most, b)
  {
    var m, w, l := Parts(p, t, b, id);
    assert m == Ready(p, b);
    TotalAtMost(Rest(p, t, b), Open(b), p.timeout);
    TotalAtMost(Rest(p, t, b), Group(t.s, Open(b), id), p.timeout);
    hide Rest;
    hide Total;
    hide Load;
    hide Potential;
    Times(p.timeout, |Open(b)|, n);
    Times(p.timeout, |Group(t.s, Open(b), id)|, most);
    LoadGrows(p.workers, m, p.timeout * n, p.timeout * most, w, l);
  }

  /** Rows have left the queue for the wire, or were settled. */
  predicate MovedOn(t: Timed, b: Replica, t': Timed, b': Replica)
    requires b.Busy? && b'.Busy?
  {
    && b'.claimedAt == b.claimedAt && b'.todo <= b.todo && Open(b') <= Open(b) && Open(b) != {}
    && t'.s.now == t.s.now && t'.s.catalog == t.s.catalog
    && (forall id :: id in b'.sending ==>
          id !in b'.todo && b'.sending[id] in t'.s.sends && b'.sending[id] in t'.started &&
          t'.started[b'.sending[id]] <= t.s.now)
    && (forall id :: id in b'.sending && id in b.sending ==>
          b'.sending[id] == b.sending[id] && b.sending[id] in t.started &&
          t'.started[b'.sending[id]] == t.started[b.sending[id]])
  }

  lemma {:induction false} FewerWell(n: nat, p: Pace, most: nat, t: Timed, t': Timed, r: Rid)
    requires p.workers >= 1 && At(t.s, r).Busy? && At(t'.s, r).Busy? && WellPaced(n, p, most, t, r)
    requires Shaped(t, r) ==> MovedOn(t, At(t.s, r), t', At(t'.s, r))
    requires r in t'.settled && (Open(At(t'.s, r)) == {} ==> t'.settled[r] == t.s.now)
    ensures WellPaced(n, p, most, t', r)
  {
    var b, b' := At(t.s, r), At(t'.s, r);
    assert Shaped(t', r) by {
      hide Bounded;
    }
    NoMoreLeft(p, t, b, t', b');
    MovedOnIs(t, b, t', b');
    hide Shaped;
    hide MovedOn;
    FewerBounded(n, p, most, t, t', r);
    hide Bounded;
  }

  lemma {:induction false} MovedOnIs(t: Timed, b: Replica, t': Timed, b': Replica)
    requires b.Busy? && b'.Busy? && MovedOn(t, b, t', b')
    ensures b'.claimedAt == b.claimedAt && Open(b') <= Open(b) && Open(b) != {}
    ensures t'.s.now == t.s.now && t'.s.catalog == t.s.catalog
  {
  }

  lemma {:induction false} FewerBounded(n: nat, p: Pace, most: nat, t: Timed, t': Timed, r: Rid)
    requires p.workers >= 1 && At(t.s, r).Busy? && At(t'.s, r).Busy? && Bounded(n, p, most, t, r)
    requires t'.s.now == t.s.now && t'.s.catalog == t.s.catalog
    requires var b, b' := At(t.s, r), At(t'.s, r);
             && b'.claimedAt == b.claimedAt && Open(b') <= Open(b) && Open(b) != {}
             && (Open(b') == {} && r in t'.settled ==> t'.settled[r] == t.s.now)
             && forall id :: id in Open(b') ==> Rest(p, t', b')[id] <= Rest(p, t, b)[id]
    ensures Bounded(n, p, most, t', r)
  {
    var b, b' := At(t.s, r), At(t'.s, r);
    ClockWithinBudget(n, p, most, t, r);
    SameBudget(n, p, most, b, b');
    hide Potential;
    hide Budget;
    hide Share;
    hide At;
    hide Rest;
    forall id | id in Open(b') ensures Potential(p, t', b', id) <= Budget(n, p, most, b') {
      FewerPotential(p, t, b, t', b', id);
    }
  }

  lemma {:induction false} SameBudget(n: nat, p: Pace, most: nat, b: Replica, b': Replica)
    requires b.Busy? && b'.Busy? && b'.claimedAt == b.claimedAt
    ensures Budget(n, p, most, b') == Budget(n, p, most, b)
  {
  }

  lemma {:induction false} FewerPotential(p: Pace, t: Timed, b: Replica, t': Timed, b': Replica, id: Id)
    requires b.Busy? && b'.Busy? && p.workers >= 1 && b'.claimedAt == b.claimedAt && t'.s.now == t.s.now
    requires t'.s.catalog == t.s.catalog && Open(b') <= Open(b) && id in Open(b')
    requires forall j :: j in Open(b') ==> Rest(p, t', b')[j] <= Rest(p, t, b)[j]
    ensures Potential(p, t', b', id) <= Potential(p, t, b, id)
  {
    SmallerGroup(t.s, t'.s, Open(b), Open(b'), id);
    hide *;
    LessLeft(p, t, b, t', b', id);
  }

  lemma {:induction false} SmallerGroup(s: State, s': State, ids: set<Id>, ids': set<Id>, id: Id)
    requires s'.catalog == s.catalog && ids' <= ids
    ensures Group(s', ids', id) <= Group(s, ids, id)
  {
  }

  lemma {:induction false} NoMoreLeft(p: Pace, t: Timed, b: Replica, t': Timed, b': Replica)
    requires b.Busy? && b'.Busy? && b.todo !! b.sending.Keys && MovedOn(t, b, t', b')
    requires forall id :: id in b.sending ==> b.sending[id] in t.started
    ensures forall id :: id in Open(b') ==> Rest(p, t', b')[id] <= Rest(p, t, b)[id]
  {
  }

  lemma {:induction false} StartMoves(t: Timed, t': Timed, b: Replica, b': Replica, id: Id, no: SendNo)
    requires b.Busy? && id in b.todo && b' == b.(todo := b.todo - {id}, sending := b.sending[id := no])
    requires b.todo !! b.sending.Keys && no !in t.s.sends
    requires forall j :: j in b.sending ==>
               b.sending[j] in t.s.sends && b.sending[j] in t.started && t.started[b.sending[j]] <= t.s.now
    requires t'.s.now == t.s.now && t'.s.catalog == t.s.catalog
    requires t'.s.sends == t.s.sends[no := id] && t'.started == t.started[no := t.s.now]
    ensures MovedOn(t, b, t', b') && Open(b') != {}
  {
    assert id in Open(b) && id in Open(b');
  }

  lemma {:induction false} StartWell(c: Config, p: Pace, most: nat, t: Timed, r: Rid, id: Id, no: SendNo)
    requires c.batchSize >= 0 && p.workers >= 1 && Allowed(c, p, t, StartSend(r, id, no))
    requires WellPaced(c.batchSize, p, most, t, r)
    ensures WellPaced(c.batchSize, p, most, Next(c, p, t, StartSend(r, id, no)), r)
  {
    var t' := Next(c, p, t, StartSend(r, id, no));
    StartEffect(c, p, t, r, id, no);
    Written(c, t.s, StartSend(r, id, no));
    NextIsApply(c, p, t, StartSend(r, id, no));
    assert Shaped(t, r) && r in t.settled;
    hide Next;
    hide Allowed;
    hide Apply;
    hide Bounded;
    StartMoves(t, t', At(t.s, r), At(t'.s, r), id, no);
    hide MovedOn;
    FewerWell(c.batchSize, p, most, t, t', r);
  }

  lemma {:induction false} SettleMoves(t: Timed, t': Timed, b: Replica, b': Replica)
    requires b.Busy? && b'.Busy? && b'.claimedAt == b.claimedAt && b'.todo <= b.todo
    requires b.todo != {} || b.sending != map[]
    requires forall id :: id in b'.sending ==> id in b.sending && b'.sending[id] == b.sending[id]
    requires b.todo !! b.sending.Keys
    requires forall j :: j in b.sending ==>
               b.sending[j] in t.s.sends && b.sending[j] in t.started && t.started[b.sending[j]] <= t.s.now
    requires t'.s.now == t.s.now && t'.s.catalog == t.s.catalog && t'.s.sends == t.s.sends && t'.started == t.started
    ensures MovedOn(t, b, t', b')
  {
  }

  lemma {:induction false} SettleWell(c: Config, p: Pace, most: nat, t: Timed, step: Step, r: Rid)
    requires c.batchSize >= 0 && p.workers >= 1 && Allowed(c, p, t, step) && Actor(step) == Some(r)
    requires step.Reject? || step.SendOk? || step.SendTransient?
    requires WellPaced(c.batchSize, p, most, t, r)
    ensures WellPaced(c.batchSize, p, most, Next(c, p, t, step), r)
  {
    var t' := Next(c, p, t, step);
    SettleEffect(c, p, t, step, r);
    Written(c, t.s, step);
    NextIsApply(c, p, t, step);
    assert Shaped(t, r);
    hide Next;
    hide Allowed;
    hide Apply;
    hide Bounded;
    SettleMoves(t, t', At(t.s, r), At(t'.s, r));
    hide MovedOn;
    FewerWell(c.batchSize, p, most, t, t', r);
  }

  lemma {:induction false} StepWell(c: Config, p: Pace, most: nat, t: Timed, step: Step, r: Rid)
    requires c.batchSize >= 0 && p.workers >= 1 && Allowed(c, p, t, step) && InPool(p, most, t, step)
    requires AllWellPaced(c, p, most, t)
    ensures WellPaced(c.batchSize, p, most, Next(c, p, t, step), r)
  {
    assert WellPaced(c.batchSize, p, most, t, r);
    hide WellPaced;
    hide Next;
    if step.Elapse? {
      ElapsesWell(c, p, most, t, step.to, r);
    } else if Actor(step) != Some(r) {
      OthersWell(c, p, most, t, step, r);
    } else if step.Claim? {
      ClaimWell(c, p, most, t, r, step.ids, step.locked);
    } else if step.StartSend? {
      StartWell(c, p, most, t, r, step.id, step.no);
    } else if step.Reject? || step.SendOk? || step.SendTransient? {
      SettleWell(c, p, most, t, step, r);
    } else {
      AckWell(c, p, most, t, step, r);
    }
    hide Allowed;
  }

  lemma {:induction false} ElapsesWell(c: Config, p: Pace, most: nat, t: Timed, to: int, r: Rid)
    requires c.batchSize >= 0 && p.workers >= 1 && Allowed(c, p, t, Elapse(to)) && InPool(p, most, t, Elapse(to))
    requires CatalogMatches(t.s) && WellPaced(c.batchSize, p, most, t, r)
    ensures WellPaced(c.batchSize, p, most, Next(c, p, t, Elapse(to)), r)
  {
    hide WellPaced;
    hide MayWait;
    hide NeverIdle;
    assert Next(c, p, t, Elapse(to)) == t.(s := t.s.(now := to));
    assert At(t.s, r).Busy? ==> r in t.s.replicas;
    ElapseWell(c.batchSize, p, most, t, r, to);
  }

  /** The potential of every open row stays within the budget of its batch. */
  lemma {:induction false} StepsWell(c: Config, p: Pace, most: nat, t: Timed, step: Step)
    requires c.batchSize >= 0 && p.workers >= 1 && Allowed(c, p, t, step) && InPool(p, most, t, step)
    requires AllWellPaced(c, p, most, t)
    ensures AllWellPaced(c, p, most, Next(c, p, t, step))
  {
    forall r: Rid ensures WellPaced(c.batchSize, p, most, Next(c, p, t, step), r) {
      StepWell(c, p, most, t, step, r);
    }
    StepGrows(c, t.s, step);
    StepKeepsCatalog(c, t.s, step);
    hide WellPaced;
    hide CatalogMatches;
  }

  // ---------------------------------------------------------------- the window that is enough

  /** `workers` times the window: the claim, the acks and the batch shared out, with the longest aggregate in a row. */
  function PoolNeeded(n: nat, p: Pace, most: nat): int {
    Load(p.workers, p.claim + p.ack, p.timeout * n, p.timeout * most)
  }

  lemma {:induction false} Fits(k: nat, at: int, claim: int, ack: int, work: int, chain: int, window: int, now: int)
    requires k >= 1 && Share(k, now - ack) <= Load(k, at + claim, work, chain)
    requires Load(k, claim + ack, work, chain) <= k * window
    ensures now <= at + window
  {
    assert Load(k, at + claim, work, chain) + k * ack == Load(k, claim + ack, work, chain) + k * at;
    assert k * (now - ack) + k * ack == k * now;
    assert k * at + k * window == k * (at + window);
    if now > at + window {
      Times(k, at + window + 1, now);
    }
  }

  lemma {:induction false} WellIsTimely(c: Config, p: Pace, most: nat, t: Timed)
    requires c.batchSize >= 0 && p.workers >= 1 && AllWellPaced(c, p, most, t)
    requires PoolNeeded(c.batchSize, p, most) <= p.workers * c.staleMs
    ensures X.Timely(c, t.s)
  {
    forall r | r in t.s.replicas && t.s.replicas[r].Busy? ensures t.s.now <= t.s.replicas[r].claimedAt + c.staleMs {
      ReplicaIsTimely(c, p, most, t, r);
    }
  }

  lemma {:induction false} ReplicaIsTimely(c: Config, p: Pace, most: nat, t: Timed, r: Rid)
    requires c.batchSize >= 0 && p.workers >= 1 && AllWellPaced(c, p, most, t) && At(t.s, r).Busy?
    requires PoolNeeded(c.batchSize, p, most) <= p.workers * c.staleMs
    ensures t.s.now <= At(t.s, r).claimedAt + c.staleMs
  {
    var b, n := At(t.s, r), c.batchSize;
    assert WellPaced(n, p, most, t, r);
    AcksWithinBudget(n, p, most, t, r);
    hide WellPaced;
    hide Load;
    Fits(p.workers, b.claimedAt, p.claim, p.ack, p.timeout * n, p.timeout * most, c.staleMs, t.s.now);
  }

  lemma {:induction false} AcksWithinBudget(n: nat, p: Pace, most: nat, t: Timed, r: Rid)
    requires p.workers >= 1 && At(t.s, r).Busy? && WellPaced(n, p, most, t, r)
    ensures Share(p.workers, t.s.now - p.ack) <= Budget(n, p, most, At(t.s, r))
  {
    hide Budget;
    hide Potential;
    if Open(At(t.s, r)) != {} {
      ClockWithinBudget(n, p, most, t, r);
      Times(p.workers, t.s.now - p.ack, t.s.now);
    } else {
      Times(p.workers, t.s.now - p.ack, t.settled[r]);
    }
  }

  lemma {:induction false} PooledRunIsTimely(c: Config, p: Pace, most: nat, t: Timed, steps: seq<Step>)
    requires c.batchSize >= 0 && p.workers >= 1 && AllWellPaced(c, p, most, t) && AllPooled(c, p, most, t, steps)
    requires PoolNeeded(c.batchSize, p, most) <= p.workers * c.staleMs
    ensures Legal(c, t.s, steps) && X.TimelyRun(c, t.s, steps)
    decreases |steps|
  {
    WellIsTimely(c, p, most, t);
    if steps != [] {
      StepsWell(c, p, most, t, steps[0]);
      NextIsApply(c, p, t, steps[0]);
      hide AllWellPaced;
      hide PoolNeeded;
      PooledRunIsTimely(c, p, most, Next(c, p, t, steps[0]), steps[1..]);
    }
  }

  /**
    With `k` workers that never idle and at most `most` rows of one aggregate in a batch of `n`, a window of the claim,
    (n + (k - 1) most) / k timeouts and the acks is enough: no row is ever in flight at two replicas, and none is in
    the log twice while nothing crashes and nothing fails for a time.
   */
  lemma {:induction false} PoolWindowSuffices(c: Config, p: Pace, most: nat, steps: seq<Step>, q: Rid, r: Rid)
    requires c.batchSize >= 0 && p.workers >= 1 && AllPooled(c, p, most, START, steps) && q != r
    requires PoolNeeded(c.batchSize, p, most) <= p.workers * c.staleMs
    ensures Legal(c, INITIAL, steps)
    ensures var s := Run(c, INITIAL, steps);
            && X.InFlight(At(s, q)) !! X.InFlight(At(s, r))
            && ((forall step :: step in steps ==> O.Smooth(step)) ==> O.NoRepeats(s.log))
  {
    PooledRunIsTimely(c, p, most, START, steps);
    X.ClaimsAreExclusive(c, steps, q, r);
    if forall step :: step in steps ==> O.Smooth(step) {
      O.LoggedOnce(c, steps);
    }
  }
}
