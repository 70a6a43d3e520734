/** When a single full resync is enough. From any drained state it is when a set of stored domains supports
    itself and nothing else can come to be trusted. After namespaces or ZMS domains have gone, one round followed by a
    drain leaves only supported resources in every order of the queue if and only if no resource stays
    valid by the trust of resources that are themselves to go. */
module OneRound {
  import opened Codec
  import opened Resources
  import opened Quiescence
  import opened Convergence
  import opened Sums
  import opened Termination

  /** No write is due but removals. */
  ghost predicate OnlyRemovalsDue(w: World, s: Sync) {
    forall d :: Valid(w, s.table, d) && d in w.zms ==> AtRest(w, s, d)
  }

  /** Stored, and to be removed as things are. */
  predicate Doomed(w: World, table: map<string, Entry>, d: string) {
    d in table && !(Valid(w, table, d) && d in w.zms)
  }

  predicate Spared(w: World, table: map<string, Entry>, d: string) { d in table && Valid(w, table, d) && d in w.zms }

  predicate BackedBy(w: World, table: map<string, Entry>, p: string, t: string) {
    Spared(w, table, p) && t in Trusts(table[p].spec)
  }

  /** Whatever is spared for the sake of trust alone is trusted by something spared. */
  predicate Backed(w: World, table: map<string, Entry>) {
    forall t :: t in table && Spared(w, table, t) && !Rooted(w, t) ==>
      exists p :: p in table && BackedBy(w, table, p, t)
  }

  predicate Supported(w: World, table: map<string, Entry>) {
    forall d :: d in table ==> Valid(w, table, d) && d in w.zms
  }

  /** The table has only shrunk since it was `start`, and what was doomed then is gone or still queued. */
  ghost predicate Shrunk(w: World, start: map<string, Entry>, s: Sync) {
    && OnlyRemovalsDue(w, s)
    && (forall d :: d in s.table ==> d in start && s.table[d] == start[d])
    && (forall d :: d in s.table && Doomed(w, start, d) ==> d in s.queue)
  }

  lemma ProcessOnlyRemoves(w: World, s: Sync, x: string)
    requires OnlyRemovalsDue(w, s) && x in s.queue
    ensures var s' := Process(w, s, x);
            if Doomed(w, s.table, x)
            then s'.table == s.table - {x} && s'.queue == s.queue + {x} + NewTrusts(w, s'.table, x)
            else s'.table == s.table && s'.queue == s.queue - {x} + NewTrusts(w, s.table, x)
  {
  }

  lemma OnlyRemovalsStep(w: World, s: Sync, x: string)
    requires OnlyRemovalsDue(w, s) && x in s.queue
    ensures OnlyRemovalsDue(w, Process(w, s, x))
  {
    var s' := Process(w, s, x);
    ProcessOnlyRemoves(w, s, x);
    forall d | Valid(w, s'.table, d) && d in w.zms ensures AtRest(w, s', d) {
      ValidityShrinks(w, s.table, s'.table, d);
      if d in NewTrusts(w, s'.table, x) { assert TrustedByRooted(w, x, d); }
    }
  }

  lemma ShrunkStep(w: World, start: map<string, Entry>, s: Sync, x: string)
    requires Shrunk(w, start, s) && x in s.queue
    ensures Shrunk(w, start, Process(w, s, x))
  {
    OnlyRemovalsStep(w, s, x);
    ProcessOnlyRemoves(w, s, x);
    if Doomed(w, start, x) && x in s.table && Valid(w, s.table, x) { ValidityShrinks(w, start, s.table, x); }
  }

  /** When every spared resource is backed, what is spared stays. */
  lemma SparedStays(w: World, start: map<string, Entry>, s: Sync, x: string, d: string)
    requires Shrunk(w, start, s) && x in s.queue && Backed(w, start)
    requires (forall y :: Spared(w, start, y) ==> y in s.table) && Spared(w, start, d)
    ensures d in Process(w, s, x).table
  {
    ProcessOnlyRemoves(w, s, x);
    if !Rooted(w, d) {
      var p :| p in start && BackedBy(w, start, p, d);
      assert p in s.table;
    }
  }

  lemma {:induction false} BackedRoundEnds(w: World, start: map<string, Entry>, s: Sync, ds: seq<string>)
    requires Shrunk(w, start, s) && Backed(w, start) && (forall d :: Spared(w, start, d) ==> d in s.table)
    requires Runs(w, s, ds) && After(w, s, ds).queue == {}
    ensures Supported(w, After(w, s, ds).table)
    decreases |ds|
  {
    if ds == [] {
      forall d | d in s.table ensures Valid(w, s.table, d) && d in w.zms {
        assert Spared(w, start, d);
        if !Rooted(w, d) {
          var p :| p in start && BackedBy(w, start, p, d);
          assert p in s.table;
        }
      }
    } else {
      var x := ds[0];
      ShrunkStep(w, start, s, x);
      forall d | Spared(w, start, d) ensures d in Process(w, s, x).table { SparedStays(w, start, s, x, d); }
      BackedRoundEnds(w, start, Process(w, s, x), ds[1..]);
    }
  }

  /** A resource served before those whose trust alone makes it valid, all of them to go, is left behind. */
  lemma {:induction false} UnbackedStays(w: World, start: map<string, Entry>, s: Sync, ds: seq<string>, t: string)
    requires Shrunk(w, start, s) && t in s.table && t !in s.queue
    requires !Rooted(w, t) && forall p :: p in start ==> !BackedBy(w, start, p, t)
    requires Runs(w, s, ds) && After(w, s, ds).queue == {}
    ensures var table := After(w, s, ds).table; t in table && !Valid(w, table, t)
    decreases |ds|
  {
    if ds == [] {
      forall p | p in s.table ensures t !in Trusts(s.table[p].spec) { assert !BackedBy(w, start, p, t); }
    } else {
      ShrunkStep(w, start, s, ds[0]);
      ProcessOnlyRemoves(w, s, ds[0]);
      UnbackedStays(w, start, Process(w, s, ds[0]), ds[1..], t);
    }
  }

  lemma ResyncShrunk(w: World, s: Sync)
    requires s.queue == {} && WellNamed(w, s) && KeysCover(w, s) && OnlyRemovalsDue(w, s)
    ensures Shrunk(w, s.table, Resync(w, s))
  {
    var s' := Resync(w, s);
    forall d | Valid(w, s'.table, d) && d in w.zms ensures AtRest(w, s', d) { ResyncKeepsRest(w, s, d); }
    forall d | d in s.table ensures d in s'.queue { ResyncCoversStored(w, s, d); }
  }

  /** While only removals are due some order of the queue drains it, with trust cycles or without. */
  lemma {:induction false} RemovalsDrain(w: World, s: Sync, us: seq<string>) returns (ds: seq<string>)
    requires OnlyRemovalsDue(w, s) && InPlay(w, s, us)
    ensures Runs(w, s, ds) && After(w, s, ds).queue == {}
    decreases |s.table.Keys|, Sum(us, Load(w, s, us))
  {
    if s.queue == {} {
      ds := [];
    } else {
      var d :| d in s.queue;
      var s' := Process(w, s, d);
      ProcessOnlyRemoves(w, s, d);
      OnlyRemovalsStep(w, s, d);
      InPlayStep(w, s, d, us);
      LoadRange(w, s', us);
      if Unsettled(w, s, d) {
        assert s'.table.Keys == s.table.Keys - {d};
      } else {
        LoadFalls(w, s, d, us);
      }
      ds := RemovalsDrain(w, s', us);
      ds := [d] + ds;
    }
  }

  lemma UnbackedRound(w: World, s: Sync, t: string) returns (ds: seq<string>)
    requires s.queue == {} && WellNamed(w, s) && KeysCover(w, s) && OnlyRemovalsDue(w, s)
    requires Spared(w, s.table, t) && !Rooted(w, t) && forall p :: p in s.table ==> !BackedBy(w, s.table, p, t)
    ensures Round(w, s, ds) && !Supported(w, After(w, Resync(w, s), ds).table)
  {
    var s0 := Resync(w, s);
    ResyncShrunk(w, s);
    ResyncCoversStored(w, s, t);
    var us := NamesInPlay(w, s0);
    InPlayStep(w, s0, t, us);
    ShrunkStep(w, s.table, s0, t);
    ProcessOnlyRemoves(w, s0, t);
    var s1 := Process(w, s0, t);
    var rest := RemovalsDrain(w, s1, us);
    UnbackedStays(w, s.table, s1, rest, t);
    ds := [t] + rest;
  }

  /** One round is enough, whatever the order of the queue, exactly when everything spared is backed. */
  lemma OneRoundExactly(w: World, s: Sync)
    requires s.queue == {} && WellNamed(w, s) && KeysCover(w, s) && OnlyRemovalsDue(w, s)
    ensures (forall ds | Round(w, s, ds) :: Supported(w, After(w, Resync(w, s), ds).table)) <==> Backed(w, s.table)
  {
    if Backed(w, s.table) {
      ResyncShrunk(w, s);
      forall ds | Round(w, s, ds) ensures Supported(w, After(w, Resync(w, s), ds).table) {
        BackedRoundEnds(w, s.table, Resync(w, s), ds);
      }
    } else {
      var t :| t in s.table && Spared(w, s.table, t) && !Rooted(w, t)
               && !exists p :: p in s.table && BackedBy(w, s.table, p, t);
      var ds := UnbackedRound(w, s, t);
    }
  }

  // ----- any drained state -----

  /** Stored domains of ZMS that stay valid whatever is written: each rooted, or trusted by another of them
      in its stored and in its wanted content. */
  ghost predicate SupportsItself(w: World, table: map<string, Entry>, kept: set<string>) {
    forall d :: d in kept ==>
      d in table && d in w.zms && (Rooted(w, d) || exists p :: p in kept && TrustsBothWays(w, table, p, d))
  }

  predicate TrustsBothWays(w: World, table: map<string, Entry>, p: string, d: string) {
    p in table && p in w.zms && d in Trusts(table[p].spec) && d in Trusts(Wanted(w, p))
  }

  /** Sure to be stored at the end of a round: kept, rooted, or wanted by something rooted. */
  predicate Lasting(w: World, kept: set<string>, p: string) {
    p in w.zms && (p in kept || Rooted(w, p) || exists q :: q in w.zms && TrustedByRooted(w, q, p))
  }

  predicate WantedByLasting(w: World, kept: set<string>, d: string) {
    exists p :: p in w.zms && Lasting(w, kept, p) && d in Trusts(Wanted(w, p))
  }

  /** Any other domain of ZMS that is or will be trusted, without being rooted, is wanted by such a one. */
  ghost predicate TrustLasts(w: World, table: map<string, Entry>, kept: set<string>) {
    forall x, y :: Edge(w, table, x, y) && !Rooted(w, y) && y in w.zms ==> y in kept || WantedByLasting(w, kept, y)
  }

  /** Not queued, and stored as wanted, for a reason that lasts. */
  predicate Done(w: World, kept: set<string>, s: Sync, d: string) {
    d in w.zms && Holds(s.table, d, Wanted(w, d)) && (Rooted(w, d) || d in kept || WantedByLasting(w, kept, d))
  }

  /** The kept domains hold their first or their wanted content, and anything else stored is done or queued. */
  ghost predicate Held(w: World, start: map<string, Entry>, kept: set<string>, s: Sync) {
    && (forall d :: d in kept && d in start && d in w.zms ==>
          d in s.table && (s.table[d].spec == start[d].spec || s.table[d].spec == Wanted(w, d)))
    && (forall d :: d in s.table ==> d in s.queue || Done(w, kept, s, d))
  }

  lemma KeptIsValid(w: World, start: map<string, Entry>, kept: set<string>, s: Sync, d: string)
    requires SupportsItself(w, start, kept) && Held(w, start, kept, s) && d in kept
    ensures d in w.zms && d in s.table && Valid(w, s.table, d)
  {
    if !Rooted(w, d) {
      var p :| p in kept && TrustsBothWays(w, start, p, d);
      assert p in s.table && d in Trusts(s.table[p].spec);
    }
  }

  lemma HeldStep(w: World, start: map<string, Entry>, kept: set<string>, s: Sync, x: string)
    requires SupportsItself(w, start, kept) && TrustLasts(w, s.table, kept) && Held(w, start, kept, s)
    requires x in s.queue
    ensures TrustLasts(w, Process(w, s, x).table, kept) && Held(w, start, kept, Process(w, s, x))
  {
    var s' := Process(w, s, x);
    forall a, b | Edge(w, s'.table, a, b) && !Rooted(w, b) && b in w.zms
      ensures b in kept || WantedByLasting(w, kept, b)
    {
      EdgesShrink(w, s, x, a, b);
    }
    if x in kept { KeptIsValid(w, start, kept, s, x); }
    if x in s.table && !Unsettled(w, s, x) && !Rooted(w, x) {
      var p :| p in s.table && x in Trusts(s.table[p].spec);
      assert Edge(w, s.table, p, x);
    }
    forall d | d in s'.table ensures d in s'.queue || Done(w, kept, s', d) {
      if d != x && d !in s.queue { assert Done(w, kept, s, d); }
    }
  }

  lemma {:induction false} HeldRuns(w: World, start: map<string, Entry>, kept: set<string>, s: Sync, ds: seq<string>)
    requires SupportsItself(w, start, kept) && TrustLasts(w, s.table, kept) && Held(w, start, kept, s)
    requires Runs(w, s, ds)
    ensures Held(w, start, kept, After(w, s, ds))
    decreases |ds|
  {
    if ds != [] {
      HeldStep(w, start, kept, s, ds[0]);
      HeldRuns(w, start, kept, Process(w, s, ds[0]), ds[1..]);
    }
  }

  /** A lasting domain is stored at the end of the round, with the wanted content. */
  lemma LastingIsStored(w: World, s: Sync, kept: set<string>, ds: seq<string>, p: string)
    requires s.queue == {} && WellNamed(w, s) && KeysCover(w, s) && Round(w, s, ds)
    requires SupportsItself(w, s.table, kept) && Held(w, s.table, kept, After(w, Resync(w, s), ds))
             && Lasting(w, kept, p)
    ensures Holds(After(w, Resync(w, s), ds).table, p, Wanted(w, p))
  {
    var s0, t := Resync(w, s), After(w, Resync(w, s), ds);
    AdminDomainIsListed(w.util);
    if p in kept {
      KeptIsValid(w, s.table, kept, t, p);
    } else if Rooted(w, p) {
      RootedEndsSettled(w, s0, ds, p);
    } else {
      var q :| q in w.zms && TrustedByRooted(w, q, p);
      TrustedEndsStored(w, s0, ds, q, p);
    }
    assert p in t.table && Done(w, kept, t, p);
  }

  /** From any drained state, whatever is stale or missing and with or without trust cycles: one round is
      enough in every order of the queue if some stored domains support themselves, and every other
      domain that is or will be trusted is wanted by one sure to be stored. */
  lemma OneRoundSuffices(w: World, s: Sync, kept: set<string>)
    requires s.queue == {} && WellNamed(w, s) && KeysCover(w, s)
    requires SupportsItself(w, s.table, kept) && TrustLasts(w, s.table, kept)
    ensures forall ds | Round(w, s, ds) :: Supported(w, After(w, Resync(w, s), ds).table)
  {
    var s0 := Resync(w, s);
    forall d | d in s.table ensures d in s0.queue { ResyncCoversStored(w, s, d); }
    forall ds | Round(w, s, ds) ensures Supported(w, After(w, s0, ds).table) {
      var t := After(w, s0, ds);
      HeldRuns(w, s.table, kept, s0, ds);
      forall d | d in t.table ensures Valid(w, t.table, d) && d in w.zms {
        assert Done(w, kept, t, d);
        if d in kept {
          KeptIsValid(w, s.table, kept, t, d);
        } else if !Rooted(w, d) {
          var p :| p in w.zms && Lasting(w, kept, p) && d in Trusts(Wanted(w, p));
          LastingIsStored(w, s, kept, ds, p);
          SameTrusts(t.table[p].spec, Wanted(w, p));
        }
      }
    }
  }

  /** So it is when whatever is trusted without being rooted is wanted by something rooted: no chain of
      trust is longer than one. */
  lemma ShortTrustSuffices(w: World, s: Sync)
    requires s.queue == {} && WellNamed(w, s) && KeysCover(w, s)
    requires forall x, y :: Edge(w, s.table, x, y) && !Rooted(w, y) && y in w.zms ==>
               exists p :: p in w.zms && TrustedByRooted(w, p, y)
    ensures forall ds | Round(w, s, ds) :: Supported(w, After(w, Resync(w, s), ds).table)
  {
    forall x, y | Edge(w, s.table, x, y) && !Rooted(w, y) && y in w.zms ensures WantedByLasting(w, {}, y) {
      var p :| p in w.zms && TrustedByRooted(w, p, y);
      assert Lasting(w, {}, p);
    }
    OneRoundSuffices(w, s, {});
  }
}
