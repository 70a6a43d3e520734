/** Full resync rounds over the synchronous loop: FullResync queues, the queue drains. One round may
    leave an orphan behind; without cycles of one-way trust enough rounds remove them all, and one round
    per rank of trust does where all trust has ranks. */
module Convergence {
  import opened Codec
  import opened Resources
  import opened Quiescence
  import opened Termination

  /** What one round of FullResync queues. */
  function ResyncSet(w: World, s: Sync): set<string> {
    (set ns | ns in w.names && ns !in w.util.excludeNamespaces :: NamespaceToDomain(w.util, ns))
    + (set d | d in AdminSystemDomains(w.util))
    + (s.keys * s.table.Keys)
  }

  function Resync(w: World, s: Sync): Sync { s.(queue := s.queue + ResyncSet(w, s)) }

  /** Names lead to the domains they come from: every domain in play that a namespace makes valid is
      queued by that namespace, and no domain is nameless. */
  ghost predicate WellNamed(w: World, s: Sync) {
    && w.retainKeys
    && (forall d :: d in w.zms || d in s.table ==>
          d != "" && (DomainToNamespace(w.util, d) in w.names ==>
            CanonicalDomain(w.util, d) && DomainToNamespace(w.util, d) !in w.util.excludeNamespaces))
  }

  /** Every stored domain is rooted or a key of the trust index. */
  predicate KeysCover(w: World, s: Sync) {
    TableTrusts(s.table) <= s.keys && forall d :: d in s.table ==> Rooted(w, d) || d in s.keys
  }

  lemma KeysCoverStep(w: World, s: Sync, d: string)
    requires WellNamed(w, s) && KeysCover(w, s)
    ensures WellNamed(w, Process(w, s, d)) && KeysCover(w, Process(w, s, d))
  {
    if Trusted(s.table, d) {
      var p :| p in s.table && d in Trusts(s.table[p].spec);
      assert d in TableTrusts(s.table);
    }
  }

  /** Resync coverage: a full resync queues every stored domain that ValidateDomain accepts, given that its
      name is not empty, canonical and of no excluded namespace. */
  lemma ResyncCoversValid(w: World, s: Sync, d: string)
    requires d in s.table && Valid(w, s.table, d) && TableTrusts(s.table) <= s.keys
    requires d != "" && CanonicalDomain(w.util, d) && DomainToNamespace(w.util, d) !in w.util.excludeNamespaces
    ensures d in Resync(w, s).queue
  {
    AdminDomainIsListed(w.util);
    if !Rooted(w, d) {
      var p :| p in s.table && d in Trusts(s.table[p].spec);
      assert d in TableTrusts(s.table);
    }
  }

  /** The converse: what a live regular namespace queues, ValidateDomain accepts. */
  lemma NamespaceDomainsAreValid(w: World, s: Sync, ns: string)
    requires ns in w.names && RegularNamespace(w.util, ns)
    ensures Valid(w, s.table, NamespaceToDomain(w.util, ns))
  {
    RegularRoundTrip(w.util, ns);
  }

  /** With the index keys complete, a full resync queues every stored domain, valid or not. */
  lemma ResyncCoversStored(w: World, s: Sync, d: string)
    requires WellNamed(w, s) && KeysCover(w, s) && d in s.table
    ensures d in Resync(w, s).queue
  {
    AdminDomainIsListed(w.util);
  }

  /** Domains a resync or a rooted domain's trust loop may queue whether stored or not. */
  predicate Source(w: World, d: string) {
    || (exists ns :: ns in w.names && ns !in w.util.excludeNamespaces && NamespaceToDomain(w.util, ns) == d)
    || d in AdminSystemDomains(w.util)
    || (exists p :: p in w.zms && TrustedByRooted(w, p, d))
  }

  predicate TrustedByRooted(w: World, p: string, d: string)
    requires p in w.zms
  {
    Rooted(w, p) && p != d && d in Trusts(Wanted(w, p))
  }

  /** d is settled, or it is not stored and nothing will ever queue it. */
  predicate AtRest(w: World, s: Sync, d: string) {
    !Unsettled(w, s, d) || (d !in s.table && !Source(w, d) && d !in s.queue)
  }

  /** A queued rooted domain will queue d if d is still missing then. */
  predicate Awaited(w: World, s: Sync, d: string) {
    d !in s.table && exists p :: p in w.zms && TrustedByRooted(w, p, d) && p in s.queue
  }

  predicate Attended(w: World, s: Sync, d: string) {
    AtRest(w, s, d) || d in s.queue || Awaited(w, s, d)
  }

  ghost predicate RestBelow(w: World, s: Sync, rank: string -> nat, k: nat) {
    forall d :: rank(d) < k ==> AtRest(w, s, d)
  }

  // ----- ranks -----

  /** Trust edges into domains that are neither a namespace's nor the admin domain strictly increase rank. */
  ghost predicate Ranked(w: World, table: map<string, Entry>, rank: string -> nat) {
    forall x, y :: Edge(w, table, x, y) && !Rooted(w, y) ==> rank(x) < rank(y)
  }

  /** The validity of t can change only by a write of a domain with an edge to it. */
  lemma ValidityMoves(w: World, s: Sync, d: string, t: string)
    requires Valid(w, Process(w, s, d).table, t) != Valid(w, s.table, t)
    ensures Edge(w, s.table, d, t) && !Rooted(w, t) && Unsettled(w, s, d)
  {
    assert forall p :: p != d ==> (p in s.table <==> p in Process(w, s, d).table);
  }

  /** A write settles its domain, and unsettles only domains of higher rank. */
  lemma WriteSettles(w: World, s: Sync, d: string, t: string, rank: string -> nat)
    requires Ranked(w, s.table, rank)
    ensures var s' := Process(w, s, d);
            && !Unsettled(w, s', d)
            && (Unsettled(w, s', t) != Unsettled(w, s, t) ==>
                  t == d || (rank(d) < rank(t) && !Rooted(w, t) && Unsettled(w, s, d)))
  {
    var s' := Process(w, s, d);
    if Valid(w, s'.table, d) != Valid(w, s.table, d) { ValidityMoves(w, s, d, d); }
    if t != d && Valid(w, s'.table, t) != Valid(w, s.table, t) { ValidityMoves(w, s, d, t); }
  }

  /** While everything below rank k rests, processing x moves nothing of rank k or below but x. */
  lemma LowRanksKeep(w: World, s: Sync, x: string, d: string, rank: string -> nat, k: nat)
    requires Ranked(w, s.table, rank) && RestBelow(w, s, rank, k) && x in s.queue && rank(d) <= k && x != d
    ensures var s' := Process(w, s, x);
            Unsettled(w, s', d) == Unsettled(w, s, d) && (d in s'.table <==> d in s.table)
            && (d in s.queue ==> d in s'.queue)
            && (d in s'.queue ==> d in s.queue || Source(w, d))
  {
    WriteSettles(w, s, x, d, rank);
    assert rank(x) < k ==> AtRest(w, s, x);
    if d in NewTrusts(w, Process(w, s, x).table, x) { assert TrustedByRooted(w, x, d); }
  }

  lemma RestStep(w: World, s: Sync, x: string, d: string, rank: string -> nat, k: nat)
    requires Ranked(w, s.table, rank) && RestBelow(w, s, rank, k) && x in s.queue
    requires rank(d) <= k && AtRest(w, s, d)
    ensures AtRest(w, Process(w, s, x), d)
  {
    if x == d { WriteSettles(w, s, d, d, rank); } else { LowRanksKeep(w, s, x, d, rank, k); }
  }

  lemma AttendedStep(w: World, s: Sync, x: string, d: string, rank: string -> nat, k: nat)
    requires Ranked(w, s.table, rank) && RestBelow(w, s, rank, k) && x in s.queue
    requires rank(d) <= k && Attended(w, s, d)
    ensures Attended(w, Process(w, s, x), d)
  {
    var s' := Process(w, s, x);
    if AtRest(w, s, d) {
      RestStep(w, s, x, d, rank, k);
    } else if x == d {
      WriteSettles(w, s, d, d, rank);
    } else {
      LowRanksKeep(w, s, x, d, rank, k);
      if d !in s.queue {
        var p :| p in w.zms && TrustedByRooted(w, p, d) && p in s.queue;
        if p != x || Unsettled(w, s, x) {
          assert p in s'.queue;
        } else {
          assert d in NewTrusts(w, s'.table, x);
        }
      }
    }
  }

  lemma {:induction false} DrainRests(w: World, s: Sync, ds: seq<string>, rank: string -> nat, k: nat)
    requires Ranked(w, s.table, rank) && Runs(w, s, ds) && After(w, s, ds).queue == {}
    requires WellNamed(w, s) && KeysCover(w, s)
    requires RestBelow(w, s, rank, k) && forall d :: rank(d) == k ==> Attended(w, s, d)
    ensures var t := After(w, s, ds);
            RestBelow(w, t, rank, k + 1) && Ranked(w, t.table, rank) && WellNamed(w, t) && KeysCover(w, t)
    decreases |ds|
  {
    if ds == [] {
      forall d | rank(d) < k + 1 ensures AtRest(w, s, d) {
        assert rank(d) == k ==> Attended(w, s, d);
      }
    } else {
      var x := ds[0];
      var s' := Process(w, s, x);
      forall a, b | Edge(w, s'.table, a, b) ensures Edge(w, s.table, a, b) { EdgesShrink(w, s, x, a, b); }
      forall d | rank(d) < k ensures AtRest(w, s', d) { RestStep(w, s, x, d, rank, k); }
      forall d | rank(d) == k ensures Attended(w, s', d) { AttendedStep(w, s, x, d, rank, k); }
      KeysCoverStep(w, s, x);
      DrainRests(w, s', ds[1..], rank, k);
    }
  }

  /** After a resync of a drained state every domain is attended to. */
  lemma ResyncAttends(w: World, s: Sync, d: string)
    requires s.queue == {} && WellNamed(w, s) && KeysCover(w, s)
    ensures Attended(w, Resync(w, s), d)
  {
    var s' := Resync(w, s);
    if d in s.table {
      ResyncCoversStored(w, s, d);
    } else if Source(w, d) && d !in s'.queue {
      var p :| p in w.zms && TrustedByRooted(w, p, d);
      AdminDomainIsListed(w.util);
      assert p in s'.queue;
      assert Awaited(w, s', d);
    }
  }

  lemma ResyncKeepsRest(w: World, s: Sync, d: string)
    requires AtRest(w, s, d)
    ensures AtRest(w, Resync(w, s), d)
  {
  }

  /** One round: resync, then the queue drains. */
  predicate Round(w: World, s: Sync, ds: seq<string>) {
    Runs(w, Resync(w, s), ds) && After(w, Resync(w, s), ds).queue == {}
  }

  predicate Rounds(w: World, s: Sync, rounds: seq<seq<string>>)
    decreases |rounds|
  {
    rounds == [] || (Round(w, s, rounds[0]) && Rounds(w, After(w, Resync(w, s), rounds[0]), rounds[1..]))
  }

  function AfterRounds(w: World, s: Sync, rounds: seq<seq<string>>): Sync
    decreases |rounds|
  {
    if rounds == [] then s else AfterRounds(w, After(w, Resync(w, s), rounds[0]), rounds[1..])
  }

  lemma {:induction false} RoundsRest(w: World, s: Sync, rounds: seq<seq<string>>, rank: string -> nat, k: nat)
    requires s.queue == {} && WellNamed(w, s) && KeysCover(w, s) && Ranked(w, s.table, rank)
    requires RestBelow(w, s, rank, k) && Rounds(w, s, rounds)
    ensures RestBelow(w, AfterRounds(w, s, rounds), rank, k + |rounds|)
    decreases |rounds|
  {
    if rounds != [] {
      var s' := Resync(w, s);
      forall d | rank(d) < k ensures AtRest(w, s', d) { ResyncKeepsRest(w, s, d); }
      forall d | rank(d) == k ensures Attended(w, s', d) { ResyncAttends(w, s, d); }
      DrainRests(w, s', rounds[0], rank, k);
      RoundsRest(w, After(w, s', rounds[0]), rounds[1..], rank, k + 1);
    }
  }

  /** Every stored domain is valid and carries the filtered ZMS content, and every valid domain that ZMS has
      and that a namespace, the configuration or a rooted domain's trust asks for is stored so. */
  predicate Converged(w: World, t: Sync) {
    && (forall d :: d in t.table ==> Valid(w, t.table, d) && d in w.zms && Holds(t.table, d, Wanted(w, d)))
    && (forall d :: d in w.zms && Source(w, d) && Valid(w, t.table, d) ==> Holds(t.table, d, Wanted(w, d)))
  }

  /** With ranked trust, more rounds than there are ranks are enough, in whatever order the queues were
      served. */
  lemma RankedRoundsConverge(w: World, s: Sync, rounds: seq<seq<string>>, rank: string -> nat, top: nat)
    requires s.queue == {} && WellNamed(w, s) && KeysCover(w, s) && Ranked(w, s.table, rank)
    requires forall d :: rank(d) <= top
    requires Rounds(w, s, rounds) && |rounds| > top
    ensures Converged(w, AfterRounds(w, s, rounds))
  {
    assert RestBelow(w, s, rank, 0);
    RoundsRest(w, s, rounds, rank, 0);
    var t := AfterRounds(w, s, rounds);
    forall d ensures AtRest(w, t, d) { assert rank(d) < |rounds|; }
    RestIsSynced(w, t);
  }

  lemma RestIsSynced(w: World, t: Sync)
    requires AllAtRest(w, t)
    ensures Converged(w, t)
  {
    forall d | d in t.table ensures Valid(w, t.table, d) && d in w.zms && Holds(t.table, d, Wanted(w, d)) {
      assert AtRest(w, t, d);
    }
    forall d | d in w.zms && Source(w, d) && Valid(w, t.table, d) ensures Holds(t.table, d, Wanted(w, d)) {
      assert AtRest(w, t, d);
    }
  }

  // ----- without ranks -----

  ghost predicate AllAtRest(w: World, s: Sync) { forall d :: AtRest(w, s, d) }

  lemma {:induction false} WritesNeverRise(w: World, s: Sync, ds: seq<string>, m: Scale)
    requires Fits(w, s, m) && Runs(w, s, ds)
    ensures Fits(w, After(w, s, ds), m) && WritesLeft(w, After(w, s, ds).table, m) <= WritesLeft(w, s.table, m)
    decreases |ds|
  {
    if ds != [] {
      MeasureFalls(w, s, ds[0], m);
      if Unsettled(w, s, ds[0]) { WritesFall(w, s, ds[0], m); }
      WritesNeverRise(w, Process(w, s, ds[0]), ds[1..], m);
    }
  }

  /** The drained run wrote nothing: what its writes had left is as before. */
  ghost predicate Writeless(w: World, s: Sync, ds: seq<string>, m: Scale) {
    && Fits(w, s, m) && Runs(w, s, ds) && After(w, s, ds).queue == {}
    && WritesLeft(w, After(w, s, ds).table, m) == WritesLeft(w, s.table, m)
  }

  lemma WritelessStep(w: World, s: Sync, ds: seq<string>, m: Scale)
    requires Writeless(w, s, ds, m) && ds != []
    ensures !Unsettled(w, s, ds[0]) && Process(w, s, ds[0]).table == s.table
            && Writeless(w, Process(w, s, ds[0]), ds[1..], m)
  {
    MeasureFalls(w, s, ds[0], m);
    if Unsettled(w, s, ds[0]) { WritesFall(w, s, ds[0], m); }
    WritesNeverRise(w, Process(w, s, ds[0]), ds[1..], m);
  }

  /** So whatever was queued, or would be by what was queued, was settled. */
  lemma {:induction false} WritelessIsSettled(w: World, s: Sync, ds: seq<string>, m: Scale, d: string)
    requires Writeless(w, s, ds, m) && (d in s.queue || Awaited(w, s, d))
    ensures !Unsettled(w, s, d)
    decreases |ds|
  {
    WritelessStep(w, s, ds, m);
    var s' := Process(w, s, ds[0]);
    if d != ds[0] {
      if d !in s.queue {
        var p :| p in w.zms && TrustedByRooted(w, p, d) && p in s.queue;
        assert p != ds[0] ==> p in s'.queue;
        assert p == ds[0] ==> d in NewTrusts(w, s.table, p);
      }
      WritelessIsSettled(w, s', ds[1..], m, d);
    }
  }

  lemma {:induction false} WritelessKeepsTable(w: World, s: Sync, ds: seq<string>, m: Scale)
    requires Writeless(w, s, ds, m)
    ensures After(w, s, ds).table == s.table
    decreases |ds|
  {
    if ds != [] {
      WritelessStep(w, s, ds, m);
      WritelessKeepsTable(w, Process(w, s, ds[0]), ds[1..], m);
    }
  }

  /** A round without writes ends with everything at rest. */
  lemma WritelessRoundRests(w: World, s: Sync, ds: seq<string>, m: Scale)
    requires s.queue == {} && WellNamed(w, s) && KeysCover(w, s) && Writeless(w, Resync(w, s), ds, m)
    ensures AllAtRest(w, After(w, Resync(w, s), ds))
  {
    var s0, t := Resync(w, s), After(w, Resync(w, s), ds);
    WritelessKeepsTable(w, s0, ds, m);
    forall d ensures AtRest(w, t, d) {
      ResyncAttends(w, s, d);
      if d in s0.queue || Awaited(w, s0, d) { WritelessIsSettled(w, s0, ds, m, d); }
    }
  }

  /** And whatever is at rest stays so. */
  lemma AllRestStep(w: World, s: Sync, x: string)
    requires AllAtRest(w, s) && x in s.queue
    ensures AllAtRest(w, Process(w, s, x))
  {
    var s' := Process(w, s, x);
    assert AtRest(w, s, x);
    forall d ensures AtRest(w, s', d) {
      assert AtRest(w, s, d);
      if d in NewTrusts(w, s.table, x) { assert TrustedByRooted(w, x, d); }
    }
  }

  lemma {:induction false} AllRestRuns(w: World, s: Sync, ds: seq<string>)
    requires AllAtRest(w, s) && Runs(w, s, ds)
    ensures AllAtRest(w, After(w, s, ds))
    decreases |ds|
  {
    if ds != [] {
      AllRestStep(w, s, ds[0]);
      AllRestRuns(w, Process(w, s, ds[0]), ds[1..]);
    }
  }

  lemma {:induction false} CoverRuns(w: World, s: Sync, ds: seq<string>)
    requires WellNamed(w, s) && KeysCover(w, s) && Runs(w, s, ds)
    ensures WellNamed(w, After(w, s, ds)) && KeysCover(w, After(w, s, ds))
    decreases |ds|
  {
    if ds != [] {
      KeysCoverStep(w, s, ds[0]);
      CoverRuns(w, Process(w, s, ds[0]), ds[1..]);
    }
  }

  /** What every resync queues, whatever is stored. */
  function AlwaysQueued(w: World): set<string> { ResyncSet(w, Sync(map[], {}, {})) }

  lemma ResyncFits(w: World, s: Sync, m: Scale)
    requires Fits(w, s, m) && forall d :: d in AlwaysQueued(w) ==> d in m.us
    ensures Fits(w, Resync(w, s), m)
  {
    forall d | d in ResyncSet(w, s) ensures d in m.us {
      if d !in s.table { assert d in AlwaysQueued(w); }
    }
  }

  /** A round either writes, or ends at rest. */
  lemma OneRoundOn(w: World, s: Sync, ds: seq<string>, m: Scale)
    requires s.queue == {} && WellNamed(w, s) && KeysCover(w, s) && Round(w, s, ds)
    requires Fits(w, s, m) && forall d :: d in AlwaysQueued(w) ==> d in m.us
    ensures var t := After(w, Resync(w, s), ds);
            && WellNamed(w, t) && KeysCover(w, t) && Fits(w, t, m)
            && (AllAtRest(w, s) ==> AllAtRest(w, t))
            && (AllAtRest(w, t) || WritesLeft(w, t.table, m) < WritesLeft(w, s.table, m))
  {
    var s0 := Resync(w, s);
    ResyncFits(w, s, m);
    CoverRuns(w, s0, ds);
    WritesNeverRise(w, s0, ds, m);
    if AllAtRest(w, s) {
      forall d ensures AtRest(w, s0, d) { ResyncKeepsRest(w, s, d); }
      AllRestRuns(w, s0, ds);
    } else if WritesLeft(w, After(w, s0, ds).table, m) == WritesLeft(w, s.table, m) {
      WritelessRoundRests(w, s, ds, m);
    }
  }

  lemma {:induction false} RoundsEndAtRest(w: World, s: Sync, rounds: seq<seq<string>>, m: Scale)
    requires s.queue == {} && WellNamed(w, s) && KeysCover(w, s) && Rounds(w, s, rounds)
    requires Fits(w, s, m) && forall d :: d in AlwaysQueued(w) ==> d in m.us
    requires AllAtRest(w, s) || |rounds| > WritesLeft(w, s.table, m)
    ensures AllAtRest(w, AfterRounds(w, s, rounds))
    decreases |rounds|
  {
    WritesLeftNonNegative(w, s, m);
    if rounds != [] {
      OneRoundOn(w, s, rounds[0], m);
      RoundsEndAtRest(w, After(w, Resync(w, s), rounds[0]), rounds[1..], m);
    }
  }

  /** Convergence: without cycles of one-way trust, and whatever else trusts itself or each other, there is
      a number of rounds after which everything has converged, in whatever order the queues are served. */
  lemma RoundsConverge(w: World, s: Sync) returns (bound: nat)
    requires s.queue == {} && WellNamed(w, s) && KeysCover(w, s) && !exists xs :: OneWayCycle(w, xs)
    ensures forall rounds | Rounds(w, s, rounds) && |rounds| > bound :: Converged(w, AfterRounds(w, s, rounds))
  {
    var m := ScaleOf(w, s.(queue := AlwaysQueued(w)));
    assert Fits(w, s, m);
    WritesLeftNonNegative(w, s, m);
    bound := WritesLeft(w, s.table, m);
    forall rounds | Rounds(w, s, rounds) && |rounds| > bound ensures Converged(w, AfterRounds(w, s, rounds)) {
      RoundsEndAtRest(w, s, rounds, m);
      RestIsSynced(w, AfterRounds(w, s, rounds));
    }
  }

  // ----- one round is not enough -----

  function Plain(d: string): SignedDomain { SignedDomain(DomainData(d, 1, [], [], "", ""), "", "") }

  /** An orphan p trusts t; ZMS has both, no namespace has either. */
  function OrphanChain(retain: bool, p: string, t: string): (World, Sync) {
    (World(Util("", [], {}, false), {}, map[p := Trusting(p, t), t := Plain(t)], retain),
     Sync(map[p := Entry(Trusting(p, t), ""), t := Entry(Plain(t), "")], {p, t}, {}))
  }

  /** Served before p, t is still valid; p goes, and t stays behind without support. Without retained
      index keys it is never looked at again. */
  lemma OneRoundLeavesAnOrphan(retain: bool, p: string, t: string)
    requires p != t && p != "" && t != ""
    ensures var (w, s) := OrphanChain(retain, p, t);
            var after := After(w, Resync(w, s), [t, p, p]);
            && KeysCover(w, s) && Round(w, s, [t, p, p])
            && t in after.table && !Valid(w, after.table, t)
            && (!retain ==> Resync(w, after) == after)
  {
    var (w, s) := OrphanChain(retain, p, t);
    TrustingTrusts(p, t);
    assert TableTrusts(s.table) <= {t};
    var s0 := Resync(w, s);
    assert s0.queue == {p, t};
    assert t in Trusts(s0.table[p].spec);
    var s1 := s0.(queue := {p});
    assert Process(w, s0, t) == s1;
    var s2 := Process(w, s1, p);
    OrphanAlone(retain, p, t, s1);
    var s3 := s2.(queue := {});
    assert [t, p, p][1..] == [p, p] && [p, p][1..] == [p] && [p][1..] == [];
    assert After(w, s2, [p]) == s3 && Runs(w, s2, [p]);
    assert After(w, s1, [p, p]) == s3 && Runs(w, s1, [p, p]);
  }

  lemma OrphanAlone(retain: bool, p: string, t: string, s1: Sync)
    requires p != t && p != "" && t != ""
    requires s1 == OrphanChain(retain, p, t).1.(queue := {p})
    ensures var w := OrphanChain(retain, p, t).0;
            var s2 := Process(w, s1, p);
            && s2.table == map[t := Entry(Plain(t), "")] && s2.queue == {p}
            && !Valid(w, s2.table, t) && (!retain ==> s2.keys == {})
            && Process(w, s2, p) == s2.(queue := {})
  {
    TrustingTrusts(p, t);
    var w := OrphanChain(retain, p, t).0;
    assert !Valid(w, s1.table, p);
    assert s1.table - {p} == map[t := Entry(Plain(t), "")];
  }
}
