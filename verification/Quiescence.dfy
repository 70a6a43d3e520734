/** The sync loop with a synchronous cache: ZMS and the namespaces frozen, API calls reliable, every
    write in the cache and its event queued before anything else happens. A step processes one queued
    domain, in any order. */
module Quiescence {
  import opened Codec
  import opened Resources
  import opened Sums

  /** What is frozen. `retainKeys` as in Protocol.Config. */
  datatype World = World(util: Util, names: set<string>, zms: map<string, SignedDomain>, retainKeys: bool)

  /** A stored resource without its version. */
  datatype Entry = Entry(spec: SignedDomain, status: string)

  datatype Sync = Sync(table: map<string, Entry>, keys: set<string>, queue: set<string>)

  function Wanted(w: World, d: string): SignedDomain
    requires d in w.zms
  {
    Filter(w.util, w.zms[d])
  }

  predicate Rooted(w: World, d: string) { DomainToNamespace(w.util, d) in w.names || IsAdminDomain(w.util, d) }

  predicate Trusted(table: map<string, Entry>, d: string) { exists p :: p in table && d in Trusts(table[p].spec) }

  predicate Valid(w: World, table: map<string, Entry>, d: string) { Rooted(w, d) || Trusted(table, d) }

  predicate Holds(table: map<string, Entry>, d: string, data: SignedDomain) {
    d in table && SameContent(table[d].spec, data) && table[d].status == ""
  }

  function TableTrusts(table: map<string, Entry>): set<string> {
    set d, t | d in table && t in Trusts(table[d].spec) :: t
  }

  /** Processing d now would write. */
  predicate Unsettled(w: World, s: Sync, d: string) {
    if Valid(w, s.table, d) && d in w.zms then !Holds(s.table, d, Wanted(w, d)) else d in s.table
  }

  function WrittenTable(w: World, s: Sync, d: string): map<string, Entry> {
    if Valid(w, s.table, d) && d in w.zms then s.table[d := Entry(Wanted(w, d), "")] else s.table - {d}
  }

  /** The trusts the loop at the end of sync queues. */
  function NewTrusts(w: World, table: map<string, Entry>, d: string): set<string> {
    if Rooted(w, d) && d in w.zms then set t | t in Trusts(Wanted(w, d)) && t != d && t !in table else {}
  }

  /** sync and its item's end, with the event of its write. */
  function Process(w: World, s: Sync, d: string): Sync {
    if Unsettled(w, s, d) then
      var table := WrittenTable(w, s, d);
      Sync(table, (if w.retainKeys then s.keys else {}) + TableTrusts(table), s.queue + {d} + NewTrusts(w, table, d))
    else
      s.(queue := s.queue - {d} + NewTrusts(w, s.table, d))
  }

  /** A run processes queued domains one after the other. */
  predicate Runs(w: World, s: Sync, ds: seq<string>)
    decreases |ds|
  {
    ds == [] || (ds[0] in s.queue && Runs(w, Process(w, s, ds[0]), ds[1..]))
  }

  function After(w: World, s: Sync, ds: seq<string>): Sync
    decreases |ds|
  {
    if ds == [] then s else After(w, Process(w, s, ds[0]), ds[1..])
  }

  lemma {:induction false} AfterConcat(w: World, s: Sync, a: seq<string>, b: seq<string>)
    ensures Runs(w, s, a) && Runs(w, After(w, s, a), b) ==> Runs(w, s, a + b)
    ensures After(w, s, a + b) == After(w, After(w, s, a), b)
    decreases |a|
  {
    if a == [] {
      assert a + b == b;
    } else {
      assert (a + b)[1..] == a[1..] + b;
      AfterConcat(w, Process(w, s, a[0]), a[1..], b);
    }
  }

  lemma OneMore(w: World, s: Sync, ds: seq<string>, d: string)
    requires Runs(w, s, ds) && d in After(w, s, ds).queue
    ensures Runs(w, s, ds + [d]) && After(w, s, ds + [d]) == Process(w, After(w, s, ds), d)
  {
    var t := After(w, s, ds);
    assert [d][0] == d && [d][1..] == [];
    assert Runs(w, Process(w, t, d), []) && Runs(w, t, [d]);
    AfterConcat(w, s, ds, [d]);
  }

  lemma TwoItems(w: World, s: Sync, b: string, a: string)
    requires b in s.queue && a in Process(w, s, b).queue
    ensures Runs(w, s, [b, a]) && After(w, s, [b, a]) == Process(w, Process(w, s, b), a)
  {
    assert Runs(w, s, []);
    OneMore(w, s, [], b);
    assert [] + [b] == [b] && [b] + [a] == [b, a];
    OneMore(w, s, [b], a);
  }

  // ----- trust edges -----

  /** x has, or will have, a role trusting y. */
  predicate Edge(w: World, table: map<string, Entry>, x: string, y: string) {
    (x in table && y in Trusts(table[x].spec)) || (x in w.zms && y in Trusts(Wanted(w, x)))
  }

  /** All names in play are among `us`. */
  ghost predicate InPlay(w: World, s: Sync, us: seq<string>) {
    && (forall d :: d in s.queue || d in s.table ==> d in us)
    && (forall x, y :: Edge(w, s.table, x, y) ==> y in us)
  }

  lemma EdgesShrink(w: World, s: Sync, d: string, x: string, y: string)
    requires Edge(w, Process(w, s, d).table, x, y)
    ensures Edge(w, s.table, x, y)
  {
  }

  lemma ValidityShrinks(w: World, big: map<string, Entry>, small: map<string, Entry>, d: string)
    requires forall p :: p in small ==> p in big && small[p] == big[p]
    requires Valid(w, small, d)
    ensures Valid(w, big, d)
  {
  }

  lemma InPlayStep(w: World, s: Sync, d: string, us: seq<string>)
    requires InPlay(w, s, us) && d in s.queue
    ensures InPlay(w, Process(w, s, d), us)
  {
    var s' := Process(w, s, d);
    forall x, y | Edge(w, s'.table, x, y) ensures Edge(w, s.table, x, y) { EdgesShrink(w, s, d, x, y); }
    forall t | t in NewTrusts(w, s'.table, d) ensures t in us { assert Edge(w, s.table, d, t); }
  }

  /** All names a run can meet. */
  lemma NamesInPlay(w: World, s: Sync) returns (us: seq<string>)
    ensures InPlay(w, s, us)
  {
    var wanted := set d, t | d in w.zms && t in Trusts(Wanted(w, d)) :: t;
    us := Enumerate(s.queue + s.table.Keys + TableTrusts(s.table) + wanted);
    forall x, y | Edge(w, s.table, x, y) ensures y in us {
      assert y in TableTrusts(s.table) || y in wanted;
    }
  }

  // ----- where a drained run ends -----

  /** A queued namespace or admin domain ends, once the queue is drained, with its resource equal to the
      filtered ZMS content modulo signatures, or without one when ZMS lacks it. */
  lemma {:induction false} RootedEndsSettled(w: World, s: Sync, ds: seq<string>, d: string)
    requires Runs(w, s, ds) && After(w, s, ds).queue == {}
    requires Rooted(w, d) && (d in s.queue || !Unsettled(w, s, d))
    ensures var t := After(w, s, ds).table;
            if d in w.zms then Holds(t, d, Wanted(w, d)) else d !in t
    decreases |ds|
  {
    if ds != [] { RootedEndsSettled(w, Process(w, s, ds[0]), ds[1..], d); }
  }

  /** p is queued, or holds its content and t is stored, queued, or unknown to ZMS. */
  predicate TrustServed(w: World, s: Sync, p: string, t: string)
    requires p in w.zms
  {
    p in s.queue || (Holds(s.table, p, Wanted(w, p)) && (t in s.table || t in s.queue || t !in w.zms))
  }

  lemma TrustServedStep(w: World, s: Sync, d: string, p: string, t: string)
    requires Rooted(w, p) && p in w.zms && t in Trusts(Wanted(w, p)) && t != p
    requires d in s.queue && TrustServed(w, s, p, t)
    ensures TrustServed(w, Process(w, s, d), p, t)
  {
    if d == t && p !in s.queue {
      SameTrusts(s.table[p].spec, Wanted(w, p));
      assert Trusted(s.table, t);
    }
  }

  /** Every domain trusted by a queued namespace or admin domain is stored in the end, if ZMS has both. */
  lemma {:induction false} TrustedEndsStored(w: World, s: Sync, ds: seq<string>, p: string, t: string)
    requires Runs(w, s, ds) && After(w, s, ds).queue == {}
    requires Rooted(w, p) && p in w.zms && t in Trusts(Wanted(w, p)) && t != p && t in w.zms
    requires TrustServed(w, s, p, t)
    ensures t in After(w, s, ds).table
    decreases |ds|
  {
    if ds != [] {
      TrustServedStep(w, s, ds[0], p, t);
      TrustedEndsStored(w, Process(w, s, ds[0]), ds[1..], p, t);
    }
  }

  // ----- small contents for examples -----

  function Trusting(d: string, t: string): SignedDomain {
    SignedDomain(DomainData(d, 1, [Role("r", t, "")], [], "", ""), "", "")
  }

  lemma TrustingTrusts(d: string, t: string)
    requires t != ""
    ensures Trusts(Trusting(d, t)) == {t}
  {
    assert Role("r", t, "") in Trusting(d, t).domain.roles;
  }
}
