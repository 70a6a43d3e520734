/** Sums over names and the weights that make lexicographic orders out of them. */
module Sums {

  /** n * k, by recursion so that all that follows is linear; 0 for negative n. */
  function Times(n: int, k: nat): nat { if n <= 0 then 0 else Times(n - 1, k) + k }

  function Sum(us: seq<string>, f: string -> int): int {
    if us == [] then 0 else Sum(us[..|us| - 1], f) + f(us[|us| - 1])
  }

  lemma {:induction false} SumBound(us: seq<string>, f: string -> int, g: string -> int, rise: nat)
    requires forall d :: d in us ==> g(d) <= f(d) + rise
    ensures Sum(us, g) <= Sum(us, f) + Times(|us|, rise)
  {
    if us != [] {
      var rest := us[..|us| - 1];
      SumBound(rest, f, g, rise);
      assert us[|us| - 1] in us;
    }
  }

  lemma {:induction false} SumDrop(us: seq<string>, f: string -> int, g: string -> int, rise: nat, d: string, drop: nat)
    requires forall t :: t in us ==> g(t) <= f(t) + rise
    requires d in us && g(d) <= f(d) - drop
    ensures Sum(us, g) <= Sum(us, f) - drop + Times(|us|, rise)
  {
    var rest, last := us[..|us| - 1], us[|us| - 1];
    assert last in us;
    if d == last {
      SumBound(rest, f, g, rise);
    } else {
      assert d in rest;
      SumDrop(rest, f, g, rise, d, drop);
    }
  }

  lemma {:induction false} SumRange(us: seq<string>, f: string -> int, most: nat)
    requires forall d :: d in us ==> 0 <= f(d) <= most
    ensures 0 <= Sum(us, f) <= Times(|us|, most)
  {
    if us != [] {
      var rest := us[..|us| - 1];
      SumRange(rest, f, most);
      assert us[|us| - 1] in us;
    }
  }

  function Pow(b: nat, e: nat): nat { if e == 0 then 1 else Times(b, Pow(b, e - 1)) }

  lemma {:induction false} TimesGrows(a: nat, b: nat, k: nat)
    requires a <= b
    ensures Times(a, k) <= Times(b, k)
    decreases b
  {
    if a < b { TimesGrows(a, b - 1, k); }
  }

  lemma {:induction false} TimesOne(n: nat)
    ensures Times(n, 1) == n && Times(n, 0) == 0
  {
    if n > 0 { TimesOne(n - 1); }
  }

  lemma {:induction false} PowPositive(b: nat, e: nat)
    requires b > 0
    ensures Pow(b, e) > 0
  {
    if e > 0 { PowPositive(b, e - 1); }
  }

  lemma {:induction false} PowMonotone(b: nat, e: nat, f: nat)
    requires b > 0 && e <= f
    ensures Pow(b, e) <= Pow(b, f)
  {
    if e < f {
      PowMonotone(b, e, f - 1);
      TimesGrows(1, b, Pow(b, f - 1));
    }
  }

  lemma {:induction false} SumSame(us: seq<string>, f: string -> int, g: string -> int)
    requires forall d :: d in us ==> f(d) == g(d)
    ensures Sum(us, f) == Sum(us, g)
  {
    if us != [] {
      assert us[|us| - 1] in us;
      SumSame(us[..|us| - 1], f, g);
    }
  }

  lemma {:induction false} SumNonNegative(us: seq<string>, f: string -> int)
    requires forall d :: d in us ==> f(d) >= 0
    ensures Sum(us, f) >= 0
  {
    if us != [] {
      assert us[|us| - 1] in us;
      SumNonNegative(us[..|us| - 1], f);
    }
  }

  lemma Lexicographic(p: int, p': int, q: int, q': int, k: nat)
    requires 0 <= p' && 0 <= q' < k && 0 <= q < k && (p' < p || (p' == p && q' < q))
    ensures 0 <= Times(p', k) + q' < Times(p, k) + q
  {
    if p' < p { TimesGrows(p' + 1, p, k); }
  }

  /** The heaviest rise of one domain when a domain of rank r is settled. */
  function Rise(n: nat, r: nat, top: nat): nat { if r < top then Pow(n + 1, top - r - 1) else 0 }

  lemma WeightDominates(n: nat, r: nat, top: nat)
    requires r <= top
    ensures Times(n, Rise(n, r, top)) < Pow(n + 1, top - r)
  {
    var rise := Rise(n, r, top);
    TimesOne(n);
    if r < top {
      PowPositive(n + 1, top - r - 1);
      assert Times(n + 1, rise) == Times(n, rise) + rise;
    }
  }

  lemma RiseCovers(n: nat, r: nat, r': nat, top: nat)
    requires r < r' <= top
    ensures Pow(n + 1, top - r') <= Rise(n, r, top)
  {
    PowMonotone(n + 1, top - r', top - r - 1);
  }

  lemma Enumerate(names: set<string>) returns (us: seq<string>)
    ensures forall d :: d in us <==> d in names
    decreases |names|
  {
    if names == {} {
      us := [];
    } else {
      var d :| d in names;
      us := Enumerate(names - {d});
      us := us + [d];
    }
  }

  function MaxRank(us: seq<string>, rank: string -> nat): nat {
    if us == [] then 0
    else
      var m := MaxRank(us[..|us| - 1], rank);
      if rank(us[|us| - 1]) > m then rank(us[|us| - 1]) else m
  }

  lemma {:induction false} MaxRankCovers(us: seq<string>, rank: string -> nat)
    ensures forall d :: d in us ==> rank(d) <= MaxRank(us, rank)
  {
    if us != [] {
      MaxRankCovers(us[..|us| - 1], rank);
      assert us == us[..|us| - 1] + [us[|us| - 1]];
    }
  }
}
