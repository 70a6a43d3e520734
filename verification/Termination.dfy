/** When the synchronous loop always drains its queue: exactly when no domains of ZMS want each other, one way
    only, in a circle. */
module Termination {
  import opened Codec
  import opened Resources
  import opened Quiescence
  import opened Sums

  // ----- one-way trust -----

  /** b is no namespace's and not the admin domain; a wants it, and b wants neither itself nor a. */
  predicate OneWay(w: World, a: string, b: string) {
    && a in w.zms && b in w.zms && !Rooted(w, b)
    && b in Trusts(Wanted(w, a)) && b !in Trusts(Wanted(w, b)) && a !in Trusts(Wanted(w, b))
  }

  function Next(xs: seq<string>, i: nat): nat
    requires i < |xs|
  {
    if i + 1 < |xs| then i + 1 else 0
  }

  ghost predicate OneWayCycle(w: World, xs: seq<string>) {
    xs != [] && forall i :: 0 <= i < |xs| ==> OneWay(w, xs[i], xs[Next(xs, i)])
  }

  /** `rank` grows along one-way trust. */
  ghost predicate Ordered(w: World, rank: string -> nat) {
    forall a, b :: OneWay(w, a, b) ==> rank(a) < rank(b)
  }

  // ----- without a cycle there are ranks -----

  ghost predicate PathTo(w: World, xs: seq<string>, a: string, b: string) {
    && |xs| >= 2 && xs[0] == a && xs[|xs| - 1] == b
    && forall i :: 0 < i < |xs| ==> OneWay(w, xs[i - 1], xs[i])
  }

  ghost predicate Above(w: World, a: string, b: string) { exists xs :: PathTo(w, xs, a, b) }

  ghost function Ancestors(w: World, d: string): set<string> { set x | x in w.zms && Above(w, x, d) }

  lemma PathToItself(w: World, a: string, xs: seq<string>)
    requires PathTo(w, xs, a, a)
    ensures OneWayCycle(w, xs[..|xs| - 1])
  {
    var ys := xs[..|xs| - 1];
    forall i | 0 <= i < |ys| ensures OneWay(w, ys[i], ys[Next(ys, i)]) {
      assert OneWay(w, xs[i + 1 - 1], xs[i + 1]);
    }
  }

  lemma AncestorsGrow(w: World, a: string, b: string)
    requires OneWay(w, a, b) && !exists xs :: OneWayCycle(w, xs)
    ensures |Ancestors(w, a)| < |Ancestors(w, b)|
  {
    var above, below := Ancestors(w, a), Ancestors(w, b);
    assert PathTo(w, [a, b], a, b);
    forall x | x in above ensures x in below {
      var xs :| PathTo(w, xs, x, a);
      assert PathTo(w, xs + [b], x, b);
    }
    if a in above {
      var xs :| PathTo(w, xs, a, a);
      PathToItself(w, a, xs);
    }
    assert below == (above + {a}) + (below - (above + {a}));
  }

  lemma AcyclicIsOrdered(w: World) returns (rank: string -> nat)
    requires !exists xs :: OneWayCycle(w, xs)
    ensures Ordered(w, rank)
  {
    rank := d => |Ancestors(w, d)|;
    forall a, b | OneWay(w, a, b) ensures rank(a) < rank(b) { AncestorsGrow(w, a, b); }
  }

  // ----- what a write can change -----

  /** Stored with the wanted content. */
  predicate Clean(w: World, table: map<string, Entry>, d: string) { d in w.zms && Holds(table, d, Wanted(w, d)) }

  predicate Stale(w: World, table: map<string, Entry>, d: string) { d in table && !Clean(w, table, d) }

  /** p's trust keeps d: p is d itself, or stale, or kept by d in turn. */
  predicate Keeps(w: World, table: map<string, Entry>, p: string, d: string)
    requires p in table && d in table
  {
    d in Trusts(table[p].spec) && (p == d || Stale(w, table, p) || p in Trusts(table[d].spec))
  }

  /** Clean, and to stay so until something stale is written. */
  predicate Pinned(w: World, table: map<string, Entry>, d: string) {
    Clean(w, table, d) && (Rooted(w, d) || exists p :: p in table && Keeps(w, table, p, d))
  }

  /** Clean but invalid, or missing and wanted one way by something clean. */
  predicate Due(w: World, table: map<string, Entry>, d: string) {
    if d in table then Clean(w, table, d) && !Valid(w, table, d)
    else exists p :: p in table && Clean(w, table, p) && OneWay(w, p, d)
  }

  lemma CleanTrusts(w: World, table: map<string, Entry>, d: string)
    requires Clean(w, table, d)
    ensures Trusts(table[d].spec) == Trusts(Wanted(w, d))
  {
    SameTrusts(table[d].spec, Wanted(w, d));
  }

  /** No write makes anything stale. */
  lemma StaleShrinks(w: World, s: Sync, d: string, t: string)
    requires Unsettled(w, s, d) && Stale(w, WrittenTable(w, s, d), t)
    ensures Stale(w, s.table, t) && t != d
  {
  }

  lemma PinnedStay(w: World, s: Sync, d: string, t: string)
    requires Unsettled(w, s, d) && !Stale(w, s.table, d) && Pinned(w, s.table, t)
    ensures Pinned(w, WrittenTable(w, s, d), t)
  {
    var table := WrittenTable(w, s, d);
    if !Rooted(w, t) {
      var p :| p in s.table && Keeps(w, s.table, p, t);
      assert t != d && p != d;
      assert p in table && Keeps(w, table, p, t);
    }
  }

  /** A domain created without being pinned was due, and makes only domains due that it wants one way. */
  lemma CreationIsDue(w: World, s: Sync, d: string)
    requires Unsettled(w, s, d) && d !in s.table && !Pinned(w, WrittenTable(w, s, d), d)
    ensures Due(w, s.table, d) && !Due(w, WrittenTable(w, s, d), d)
  {
    var table := WrittenTable(w, s, d);
    assert Clean(w, table, d);
    var p :| p in s.table && d in Trusts(s.table[p].spec);
    assert p in table && !Keeps(w, table, p, d) && !Keeps(w, table, d, d);
    CleanTrusts(w, s.table, p);
    assert OneWay(w, p, d);
  }

  lemma CreationRaises(w: World, s: Sync, d: string, t: string)
    requires Unsettled(w, s, d) && d !in s.table && t != d
    requires Due(w, WrittenTable(w, s, d), t) && !Due(w, s.table, t)
    ensures OneWay(w, d, t)
  {
    var table := WrittenTable(w, s, d);
    if Valid(w, s.table, t) { ValidityShrinks(w, table, s.table, t); }
    var p :| p in table && Clean(w, table, p) && OneWay(w, p, t);
  }

  /** So is a clean domain that is deleted. */
  lemma DeletionIsDue(w: World, s: Sync, d: string)
    requires Unsettled(w, s, d) && Clean(w, s.table, d)
    ensures Due(w, s.table, d) && !Due(w, WrittenTable(w, s, d), d)
  {
  }

  lemma DeletionRaises(w: World, s: Sync, d: string, t: string)
    requires Unsettled(w, s, d) && Clean(w, s.table, d) && t != d
    requires Due(w, WrittenTable(w, s, d), t) && !Due(w, s.table, t)
    ensures OneWay(w, d, t)
  {
    var table := WrittenTable(w, s, d);
    assert forall p :: p in s.table && p != d ==> p in table && table[p] == s.table[p];
    CleanTrusts(w, s.table, d);
    CleanTrusts(w, s.table, t);
    assert t in Trusts(table[t].spec) <==> t in Trusts(Wanted(w, t));
  }

  // ----- the measure -----

  /** The names in play, their ranks, and the highest of these. */
  datatype Scale = Scale(us: seq<string>, rank: string -> nat, top: nat)

  ghost predicate Fits(w: World, s: Sync, m: Scale) {
    InPlay(w, s, m.us) && Ordered(w, m.rank) && forall d :: d in m.us ==> m.rank(d) <= m.top
  }

  /** A due domain weighs more than all domains of higher ranks together. */
  function Weight(m: Scale, d: string): nat {
    Pow(|m.us| + 1, if m.rank(d) <= m.top then m.top - m.rank(d) else 0)
  }

  function StaleOnes(w: World, table: map<string, Entry>): string -> int { d => if Stale(w, table, d) then 1 else 0 }

  function LooseOnes(w: World, table: map<string, Entry>): string -> int { d => if Pinned(w, table, d) then 0 else 1 }

  function DueWeights(w: World, table: map<string, Entry>, m: Scale): string -> int {
    d => if Due(w, table, d) then Weight(m, d) else 0
  }

  function Heaviest(m: Scale): nat { Times(|m.us|, Pow(|m.us| + 1, m.top)) + 1 }

  /** What the writes of a run have left: the stale first, then those not pinned, then the due. */
  function WritesLeft(w: World, table: map<string, Entry>, m: Scale): int {
    var first := Times(Sum(m.us, StaleOnes(w, table)), |m.us| + 1) + Sum(m.us, LooseOnes(w, table));
    Times(first, Heaviest(m)) + Sum(m.us, DueWeights(w, table, m))
  }

  /** A settled stored domain that may still queue its trusts. */
  predicate Heavy(w: World, s: Sync, d: string) { Rooted(w, d) && d in s.table && !Unsettled(w, s, d) }

  function Load(w: World, s: Sync, us: seq<string>): string -> int {
    d => if d !in s.queue then 0 else if Heavy(w, s, d) then 1 + |us| else 1
  }

  function Base(us: seq<string>): nat { Times(|us|, 1 + |us|) + 1 }

  /** And after the writes the load of the queue. */
  function Measure(w: World, s: Sync, m: Scale): int {
    Times(WritesLeft(w, s.table, m), Base(m.us)) + Sum(m.us, Load(w, s, m.us))
  }

  lemma LoadRange(w: World, s: Sync, us: seq<string>)
    ensures 0 <= Sum(us, Load(w, s, us)) < Base(us)
  {
    SumRange(us, Load(w, s, us), 1 + |us|);
  }

  lemma LooseRange(w: World, table: map<string, Entry>, us: seq<string>)
    ensures 0 <= Sum(us, LooseOnes(w, table)) <= |us|
  {
    SumRange(us, LooseOnes(w, table), 1);
    TimesOne(|us|);
  }

  lemma HighestWeight(w: World, table: map<string, Entry>, m: Scale) returns (most: nat)
    requires forall d :: d in m.us ==> m.rank(d) <= m.top
    ensures forall d :: d in m.us ==> 0 <= DueWeights(w, table, m)(d) <= most
    ensures Times(|m.us|, most) + 1 == Heaviest(m)
  {
    most := Pow(|m.us| + 1, m.top);
    forall d | d in m.us ensures 0 <= DueWeights(w, table, m)(d) <= most {
      PowMonotone(|m.us| + 1, m.top - m.rank(d), m.top);
    }
  }

  lemma DueRange(w: World, table: map<string, Entry>, m: Scale)
    requires forall d :: d in m.us ==> m.rank(d) <= m.top
    ensures 0 <= Sum(m.us, DueWeights(w, table, m)) < Heaviest(m)
  {
    var most := HighestWeight(w, table, m);
    SumRange(m.us, DueWeights(w, table, m), most);
  }

  lemma StaleRange(w: World, table: map<string, Entry>, us: seq<string>)
    ensures 0 <= Sum(us, StaleOnes(w, table))
  {
    SumNonNegative(us, StaleOnes(w, table));
  }

  /** Writing something stale. */
  lemma StaleFall(w: World, s: Sync, d: string, us: seq<string>)
    requires d in us && Unsettled(w, s, d) && Stale(w, s.table, d)
    ensures Sum(us, StaleOnes(w, WrittenTable(w, s, d))) < Sum(us, StaleOnes(w, s.table))
  {
    var f, g := StaleOnes(w, s.table), StaleOnes(w, WrittenTable(w, s, d));
    forall t | t in us ensures g(t) <= f(t) {
      if Stale(w, WrittenTable(w, s, d), t) { StaleShrinks(w, s, d, t); }
    }
    if Stale(w, WrittenTable(w, s, d), d) { StaleShrinks(w, s, d, d); }
    TimesOne(|us|);
    SumDrop(us, f, g, 0, d, 1);
  }

  lemma StaleSame(w: World, s: Sync, d: string, us: seq<string>)
    requires Unsettled(w, s, d) && !Stale(w, s.table, d)
    ensures Sum(us, StaleOnes(w, WrittenTable(w, s, d))) == Sum(us, StaleOnes(w, s.table))
  {
    var f, g := StaleOnes(w, s.table), StaleOnes(w, WrittenTable(w, s, d));
    forall t | t in us ensures f(t) == g(t) {
      if Stale(w, WrittenTable(w, s, d), t) { StaleShrinks(w, s, d, t); }
      assert t != d ==> (Stale(w, s.table, t) <==> Stale(w, WrittenTable(w, s, d), t));
    }
    SumSame(us, f, g);
  }

  lemma LooseNeverRise(w: World, s: Sync, d: string, us: seq<string>)
    requires d in us && Unsettled(w, s, d) && !Stale(w, s.table, d)
    ensures var before, after := Sum(us, LooseOnes(w, s.table)), Sum(us, LooseOnes(w, WrittenTable(w, s, d)));
            after <= before && (d !in s.table && Pinned(w, WrittenTable(w, s, d), d) ==> after < before)
  {
    var f, g := LooseOnes(w, s.table), LooseOnes(w, WrittenTable(w, s, d));
    forall t | t in us ensures g(t) <= f(t) {
      if Pinned(w, s.table, t) { PinnedStay(w, s, d, t); }
    }
    TimesOne(|us|);
    SumDrop(us, f, g, 0, d, if d !in s.table && Pinned(w, WrittenTable(w, s, d), d) then 1 else 0);
  }

  lemma Margin(m: Scale, d: string) returns (rise: nat, drop: nat)
    requires m.rank(d) <= m.top
    ensures rise == Rise(|m.us|, m.rank(d), m.top) && drop == Weight(m, d) && Times(|m.us|, rise) < drop
  {
    rise, drop := Rise(|m.us|, m.rank(d), m.top), Weight(m, d);
    WeightDominates(|m.us|, m.rank(d), m.top);
  }

  lemma AddedWeight(before: bool, after: bool, weight: nat, rise: nat)
    requires after && !before ==> weight <= rise
    ensures (if after then weight else 0) <= (if before then weight else 0) + rise
  {
  }

  lemma DueRise(w: World, s: Sync, d: string, t: string, m: Scale)
    requires Ordered(w, m.rank) && m.rank(t) <= m.top && t != d
    requires Unsettled(w, s, d) && !Stale(w, s.table, d)
    ensures DueWeights(w, WrittenTable(w, s, d), m)(t) <= DueWeights(w, s.table, m)(t) + Rise(|m.us|, m.rank(d), m.top)
  {
    var before, after := Due(w, s.table, t), Due(w, WrittenTable(w, s, d), t);
    if after && !before {
      if d in s.table { DeletionRaises(w, s, d, t); } else { CreationRaises(w, s, d, t); }
      RiseCovers(|m.us|, m.rank(d), m.rank(t), m.top);
    }
    AddedWeight(before, after, Weight(m, t), Rise(|m.us|, m.rank(d), m.top));
  }

  lemma DueMove(w: World, s: Sync, d: string, m: Scale)
    requires Ordered(w, m.rank) && d in m.us && (forall t :: t in m.us ==> m.rank(t) <= m.top)
    requires Unsettled(w, s, d) && !Stale(w, s.table, d) && (d in s.table || !Pinned(w, WrittenTable(w, s, d), d))
    ensures var f, g := DueWeights(w, s.table, m), DueWeights(w, WrittenTable(w, s, d), m);
            && (forall t :: t in m.us ==> g(t) <= f(t) + Rise(|m.us|, m.rank(d), m.top))
            && g(d) <= f(d) - Weight(m, d)
  {
    var f, g := DueWeights(w, s.table, m), DueWeights(w, WrittenTable(w, s, d), m);
    if d in s.table { DeletionIsDue(w, s, d); } else { CreationIsDue(w, s, d); }
    forall t | t in m.us ensures g(t) <= f(t) + Rise(|m.us|, m.rank(d), m.top) {
      if t != d { DueRise(w, s, d, t, m); }
    }
  }

  /** Any other write that pins nothing new. */
  lemma DueFall(w: World, s: Sync, d: string, m: Scale)
    requires Ordered(w, m.rank) && d in m.us && (forall t :: t in m.us ==> m.rank(t) <= m.top)
    requires Unsettled(w, s, d) && !Stale(w, s.table, d) && (d in s.table || !Pinned(w, WrittenTable(w, s, d), d))
    ensures Sum(m.us, DueWeights(w, WrittenTable(w, s, d), m)) < Sum(m.us, DueWeights(w, s.table, m))
  {
    var rise, drop := Margin(m, d);
    DueMove(w, s, d, m);
    SumDrop(m.us, DueWeights(w, s.table, m), DueWeights(w, WrittenTable(w, s, d), m), rise, d, drop);
  }

  /** A write lowers one of the three counts and none before it. */
  lemma WriteLowersOne(w: World, s: Sync, d: string, m: Scale)
    requires Fits(w, s, m) && d in m.us && Unsettled(w, s, d)
    ensures var t := WrittenTable(w, s, d);
            var a, a' := Sum(m.us, StaleOnes(w, s.table)), Sum(m.us, StaleOnes(w, t));
            var b, b' := Sum(m.us, LooseOnes(w, s.table)), Sum(m.us, LooseOnes(w, t));
            var c, c' := Sum(m.us, DueWeights(w, s.table, m)), Sum(m.us, DueWeights(w, t, m));
            a' < a || (a' == a && (b' < b || (b' == b && c' < c)))
  {
    if Stale(w, s.table, d) {
      StaleFall(w, s, d, m.us);
    } else {
      StaleSame(w, s, d, m.us);
      LooseNeverRise(w, s, d, m.us);
      if d in s.table || !Pinned(w, WrittenTable(w, s, d), d) { DueFall(w, s, d, m); }
    }
  }

  /** Every write lowers what the writes have left. */
  lemma WritesFall(w: World, s: Sync, d: string, m: Scale)
    requires Fits(w, s, m) && d in m.us && Unsettled(w, s, d)
    ensures 0 <= WritesLeft(w, Process(w, s, d).table, m) < WritesLeft(w, s.table, m)
  {
    var t := WrittenTable(w, s, d);
    StaleRange(w, t, m.us);
    LooseRange(w, s.table, m.us);
    LooseRange(w, t, m.us);
    DueRange(w, s.table, m);
    DueRange(w, t, m);
    WriteLowersOne(w, s, d, m);
    ThreeFall(Sum(m.us, StaleOnes(w, s.table)), Sum(m.us, StaleOnes(w, t)),
              Sum(m.us, LooseOnes(w, s.table)), Sum(m.us, LooseOnes(w, t)),
              Sum(m.us, DueWeights(w, s.table, m)), Sum(m.us, DueWeights(w, t, m)), |m.us| + 1, Heaviest(m));
  }

  lemma ThreeFall(a: int, a': int, b: int, b': int, c: int, c': int, k: nat, n: nat)
    requires 0 <= a' && 0 <= b < k && 0 <= b' < k && 0 <= c < n && 0 <= c' < n
    requires a' < a || (a' == a && (b' < b || (b' == b && c' < c)))
    ensures 0 <= Times(Times(a', k) + b', n) + c' < Times(Times(a, k) + b, n) + c
  {
    if a' < a || b' < b { Lexicographic(a, a', b, b', k); }
    Lexicographic(Times(a, k) + b, Times(a', k) + b', c, c', n);
  }

  lemma WritesLeftNonNegative(w: World, s: Sync, m: Scale)
    requires Fits(w, s, m)
    ensures 0 <= WritesLeft(w, s.table, m)
  {
    DueRange(w, s.table, m);
  }

  lemma LoadFalls(w: World, s: Sync, d: string, us: seq<string>)
    requires d in us && d in s.queue && !Unsettled(w, s, d)
    ensures Sum(us, Load(w, Process(w, s, d), us)) < Sum(us, Load(w, s, us))
  {
    var s' := Process(w, s, d);
    var f, g := Load(w, s, us), Load(w, s', us);
    var rise := if Heavy(w, s, d) then 1 else 0;
    forall t ensures Heavy(w, s', t) == Heavy(w, s, t) {}
    assert NewTrusts(w, s.table, d) != {} ==> Heavy(w, s, d);
    forall t | t in us ensures g(t) <= f(t) + rise {
      if t in s'.queue && t !in s.queue { assert t !in s.table; }
    }
    TimesOne(|us|);
    SumDrop(us, f, g, rise, d, if Heavy(w, s, d) then 1 + |us| else 1);
  }

  /** Every step lowers the measure. */
  lemma MeasureFalls(w: World, s: Sync, d: string, m: Scale)
    requires Fits(w, s, m) && d in s.queue
    ensures 0 <= Measure(w, Process(w, s, d), m) < Measure(w, s, m) && Fits(w, Process(w, s, d), m)
  {
    var s' := Process(w, s, d);
    InPlayStep(w, s, d, m.us);
    WritesLeftNonNegative(w, s', m);
    LoadRange(w, s, m.us);
    LoadRange(w, s', m.us);
    if Unsettled(w, s, d) { WritesFall(w, s, d, m); } else { LoadFalls(w, s, d, m.us); }
    Lexicographic(WritesLeft(w, s.table, m), WritesLeft(w, s'.table, m), Sum(m.us, Load(w, s, m.us)),
                  Sum(m.us, Load(w, s', m.us)), Base(m.us));
  }

  lemma MeasureNonNegative(w: World, s: Sync, m: Scale)
    ensures 0 <= Measure(w, s, m)
  {
    LoadRange(w, s, m.us);
  }

  /** Every run, in any order of the queue, is at most as long as the measure of its start. */
  lemma {:induction false} RunsAreShort(w: World, s: Sync, ds: seq<string>, m: Scale)
    requires Fits(w, s, m) && Runs(w, s, ds)
    ensures |ds| <= Measure(w, s, m)
    decreases |ds|
  {
    if ds == [] {
      MeasureNonNegative(w, s, m);
    } else {
      MeasureFalls(w, s, ds[0], m);
      RunsAreShort(w, Process(w, s, ds[0]), ds[1..], m);
    }
  }

  lemma ScaleOf(w: World, s: Sync) returns (m: Scale)
    requires !exists xs :: OneWayCycle(w, xs)
    ensures Fits(w, s, m)
  {
    var us := NamesInPlay(w, s);
    var rank := AcyclicIsOrdered(w);
    MaxRankCovers(us, rank);
    m := Scale(us, rank, MaxRank(us, rank));
  }

  /** The worker's loop: items are taken, in any order, until the queue is empty. It ends. */
  method RunWorker(w: World, s: Sync) returns (t: Sync, ghost ds: seq<string>)
    requires !exists xs :: OneWayCycle(w, xs)
    ensures Runs(w, s, ds) && t == After(w, s, ds) && t.queue == {}
    ensures forall d :: Rooted(w, d) && d in s.queue ==>
              if d in w.zms then Holds(t.table, d, Wanted(w, d)) else d !in t.table
  {
    ghost var m := ScaleOf(w, s);
    t, ds := s, [];
    while t.queue != {}
      invariant Runs(w, s, ds) && t == After(w, s, ds) && Fits(w, t, m)
      decreases Measure(w, t, m)
    {
      var d :| d in t.queue;
      MeasureFalls(w, t, d, m);
      OneMore(w, s, ds, d);
      t := Process(w, t, d);
      ds := ds + [d];
    }
    forall d | Rooted(w, d) && d in s.queue
      ensures if d in w.zms then Holds(t.table, d, Wanted(w, d)) else d !in t.table
    {
      RootedEndsSettled(w, s, ds, d);
    }
  }

  // ----- with a cycle it may run for ever -----

  function Stored(w: World, d: string): Entry
    requires d in w.zms
  {
    Entry(Wanted(w, d), "")
  }

  /** Of the cycle only its i-th domain is stored, and all are queued. */
  ghost predicate Holding(w: World, xs: seq<string>, i: nat, s: Sync)
    requires i < |xs|
  {
    xs[i] in w.zms && s.table == map[xs[i] := Stored(w, xs[i])] && forall d :: d in s.queue <==> d in xs
  }

  /** The next domain is created for the i-th one's sake. */
  lemma CycleCreates(w: World, xs: seq<string>, i: nat, s: Sync)
    requires OneWayCycle(w, xs) && i < |xs| && Holding(w, xs, i, s)
    ensures var a, b := xs[i], xs[Next(xs, i)];
            var t := Process(w, s, b);
            t.table == map[a := Stored(w, a), b := Stored(w, b)] && t.queue == s.queue
  {
    var a, b := xs[i], xs[Next(xs, i)];
    assert OneWay(w, a, b);
    assert a != b && a in s.table && b in Trusts(s.table[a].spec);
    assert !Rooted(w, b) && Valid(w, s.table, b) && Unsettled(w, s, b);
    assert WrittenTable(w, s, b) == map[a := Stored(w, a), b := Stored(w, b)];
  }

  /** The i-th one, whose own parent is not stored, is deleted. */
  lemma CycleDeletes(w: World, xs: seq<string>, i: nat, s: Sync)
    requires OneWayCycle(w, xs) && i < |xs| && (forall d :: d in s.queue <==> d in xs)
    requires var a, b := xs[i], xs[Next(xs, i)]; s.table == map[a := Stored(w, a), b := Stored(w, b)]
    ensures Holding(w, xs, Next(xs, i), Process(w, s, xs[i]))
  {
    var a, b := xs[i], xs[Next(xs, i)];
    OneBefore(w, xs, i);
    assert OneWay(w, a, b);
    assert a != b && !Trusted(s.table, a);
    assert s.table - {a} == map[b := Stored(w, b)];
    assert WrittenTable(w, s, a) == map[b := Stored(w, b)];
  }

  /** Every member has one before it, so none is rooted or wants itself. */
  lemma OneBefore(w: World, xs: seq<string>, i: nat)
    requires OneWayCycle(w, xs) && i < |xs|
    ensures !Rooted(w, xs[i]) && xs[i] in w.zms && xs[i] !in Trusts(Wanted(w, xs[i]))
  {
    var p := if i > 0 then i - 1 else |xs| - 1;
    assert Next(xs, p) == i && OneWay(w, xs[p], xs[Next(xs, p)]);
  }

  lemma CycleShifts(w: World, xs: seq<string>, i: nat, s: Sync) returns (ds: seq<string>)
    requires OneWayCycle(w, xs) && i < |xs| && Holding(w, xs, i, s)
    ensures Runs(w, s, ds) && |ds| == 2 && Holding(w, xs, Next(xs, i), After(w, s, ds))
  {
    var a, b := xs[i], xs[Next(xs, i)];
    assert a in xs && b in xs;
    CycleCreates(w, xs, i, s);
    var t := Process(w, s, b);
    CycleDeletes(w, xs, i, t);
    TwoItems(w, s, b, a);
    ds := [b, a];
  }

  /** Where n shifts lead. */
  function Shifted(xs: seq<string>, i: nat, n: nat): (j: nat)
    requires i < |xs|
    ensures j < |xs|
  {
    if n == 0 then i else Next(xs, Shifted(xs, i, n - 1))
  }

  lemma {:induction false} ShiftedOnward(xs: seq<string>, i: nat, n: nat)
    requires i < |xs|
    ensures Shifted(xs, i, n) == if i + n < |xs| then i + n else Shifted(xs, 0, i + n - |xs|)
  {
    if n > 0 { ShiftedOnward(xs, i, n - 1); }
  }

  /** As many shifts as there are domains come back. */
  lemma FullTurn(xs: seq<string>, i: nat)
    requires i < |xs|
    ensures Shifted(xs, i, |xs|) == i
  {
    ShiftedOnward(xs, i, |xs|);
    ShiftedOnward(xs, 0, i);
  }

  lemma {:induction false} CycleTurns(w: World, xs: seq<string>, i: nat, s: Sync, n: nat) returns (ds: seq<string>)
    requires OneWayCycle(w, xs) && i < |xs| && Holding(w, xs, i, s)
    ensures Runs(w, s, ds) && |ds| == 2 * n
    ensures Holding(w, xs, Shifted(xs, i, n), After(w, s, ds))
    decreases n
  {
    if n == 0 {
      ds := [];
    } else {
      var first := CycleTurns(w, xs, i, s, n - 1);
      var j, t := Shifted(xs, i, n - 1), After(w, s, first);
      var rest := CycleShifts(w, xs, j, t);
      assert Shifted(xs, i, n) == Next(xs, j);
      AfterConcat(w, s, first, rest);
      assert After(w, s, first + rest) == After(w, t, rest);
      ds := first + rest;
    }
  }

  /** A round of them all comes back to the same domain stored and all queued. */
  lemma CycleReturns(w: World, xs: seq<string>, i: nat, s: Sync) returns (ds: seq<string>)
    requires OneWayCycle(w, xs) && i < |xs| && Holding(w, xs, i, s)
    ensures Runs(w, s, ds) && |ds| == 2 * |xs| && Holding(w, xs, i, After(w, s, ds))
  {
    ds := CycleTurns(w, xs, i, s, |xs|);
    FullTurn(xs, i);
  }

  /** So there are runs of any length that drain nothing. */
  lemma {:induction false} CycleNeverDrains(w: World, xs: seq<string>, i: nat, s: Sync, n: nat)
    returns (ds: seq<string>)
    requires OneWayCycle(w, xs) && i < |xs| && Holding(w, xs, i, s)
    ensures Runs(w, s, ds) && |ds| >= n
    ensures Holding(w, xs, i, After(w, s, ds)) && After(w, s, ds).queue != {}
    decreases n
  {
    assert xs[i] in xs;
    if n == 0 {
      ds := [];
      assert xs[i] in s.queue;
    } else {
      var first := CycleReturns(w, xs, i, s);
      var rest := CycleNeverDrains(w, xs, i, After(w, s, first), n - 1);
      AfterConcat(w, s, first, rest);
      ds := first + rest;
    }
  }

  /** Such worlds exist: three domains suffice. */
  lemma ThreeMakeACycle(a: string, b: string, c: string)
    requires a != b && b != c && a != c && a != "" && b != "" && c != ""
    ensures var zms := map[a := Trusting(a, b), b := Trusting(b, c), c := Trusting(c, a)];
            OneWayCycle(World(Util("", [], {}, false), {}, zms, true), [a, b, c])
  {
    TrustingTrusts(a, b);
    TrustingTrusts(b, c);
    TrustingTrusts(c, a);
  }

  // ----- the exact condition -----

  ghost predicate RunsWithin(w: World, s: Sync, bound: nat) { forall ds | Runs(w, s, ds) :: |ds| <= bound }

  /** Every run from s, in any order of the queue, ends. */
  ghost predicate AlwaysDrains(w: World, s: Sync) { exists bound: nat :: RunsWithin(w, s, bound) }

  lemma Quiesces(w: World, s: Sync)
    requires !exists xs :: OneWayCycle(w, xs)
    ensures AlwaysDrains(w, s)
  {
    var m := ScaleOf(w, s);
    MeasureNonNegative(w, s, m);
    var bound: nat := Measure(w, s, m);
    forall ds | Runs(w, s, ds) ensures |ds| <= bound { RunsAreShort(w, s, ds, m); }
    assert RunsWithin(w, s, bound);
  }

  lemma CycleEscapes(w: World, xs: seq<string>) returns (s: Sync)
    requires OneWayCycle(w, xs)
    ensures !AlwaysDrains(w, s)
  {
    OneBefore(w, xs, 0);
    s := Sync(map[xs[0] := Stored(w, xs[0])], {}, set x | x in xs);
    if AlwaysDrains(w, s) {
      var bound: nat :| RunsWithin(w, s, bound);
      var ds := CycleNeverDrains(w, xs, 0, s, bound + 1);
    }
  }

  /** For fixed ZMS and namespaces, the loop drains its queue from every state and in every order exactly
      when there is no cycle of one-way trust. */
  lemma TerminationExactly(w: World)
    ensures (forall s :: AlwaysDrains(w, s)) <==> !exists xs :: OneWayCycle(w, xs)
  {
    if xs :| OneWayCycle(w, xs) {
      var s := CycleEscapes(w, xs);
    } else {
      forall s ensures AlwaysDrains(w, s) { Quiesces(w, s); }
    }
  }
}
