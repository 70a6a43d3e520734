/** The namespace/domain codec of pkg/util/util.go: Go's left-to-right string replacement, the two
    name conversions built from it, and the name lists kept by Util. */
module Codec {

  /** The settings of pkg/util/util.go's Util. */
  datatype Util = Util(
    adminDomain: string,
    systemNamespaces: seq<string>,
    excludeNamespaces: set<string>,
    excludeMSDRules: bool)

  /** Go's strings.Replace(s, from, to, -1) for a non-empty `from`: greedy, left to right, not overlapping. */
  function ReplaceAll(s: string, from: string, to: string): string
    requires from != ""
    decreases |s|
  {
    if |s| < |from| then s
    else if s[..|from|] == from then to + ReplaceAll(s[|from|..], from, to)
    else [s[0]] + ReplaceAll(s[1..], from, to)
  }

  function TrimPrefix(s: string, prefix: string): string {
    if prefix <= s then s[|prefix|..] else s
  }

  predicate IsAdminDomain(u: Util, domain: string) { domain == u.adminDomain }

  predicate InAdminPrefix(u: Util, domain: string) { u.adminDomain != "" && u.adminDomain <= domain }

  function DomainToNamespace(u: Util, domain: string): string {
    if InAdminPrefix(u, domain) then TrimPrefix(domain, u.adminDomain + ".")
    else ReplaceAll(ReplaceAll(domain, "-", "--"), ".", "-")
  }

  function NamespaceToDomain(u: Util, ns: string): string {
    if ns in u.systemNamespaces then u.adminDomain + "." + ns
    else ReplaceAll(ReplaceAll(ns, "-", "."), "..", "-")
  }

  /** The domain comes back from its namespace: the side condition under which an event on the
      namespace names this domain. */
  predicate CanonicalDomain(u: Util, domain: string) {
    NamespaceToDomain(u, DomainToNamespace(u, domain)) == domain
  }

  /** No '.' stands immediately before a '.' or a '-'. */
  predicate NoDotBeforeSeparator(d: string) {
    forall i :: 0 <= i < |d| - 1 && d[i] == '.' ==> d[i + 1] != '.' && d[i + 1] != '-'
  }

  /** The names AddAdminSystemDomains queues, in order. */
  function AdminSystemDomains(u: Util): seq<string> {
    (if u.adminDomain != "" then [u.adminDomain] else []) + SystemDomains(u, u.systemNamespaces)
  }

  function SystemDomains(u: Util, nss: seq<string>): seq<string> {
    if nss == [] then []
    else
      var d := NamespaceToDomain(u, nss[|nss| - 1]);
      SystemDomains(u, nss[..|nss| - 1]) + if d != "" then [d] else []
  }

  lemma AdminDomainIsListed(u: Util)
    ensures u.adminDomain != "" ==> u.adminDomain in AdminSystemDomains(u)
  {
  }

  lemma {:induction false} SystemDomainsListed(u: Util, nss: seq<string>)
    requires forall ns :: ns in nss ==> ns in u.systemNamespaces
    ensures |SystemDomains(u, nss)| == |nss|
    ensures forall i :: 0 <= i < |nss| ==> SystemDomains(u, nss)[i] == u.adminDomain + "." + nss[i]
  {
    if nss != [] {
      SystemDomainsListed(u, nss[..|nss| - 1]);
      assert nss[|nss| - 1] in nss;
    }
  }

  /** The list in full: the admin domain, if there is one, and the admin domain, '.', and each system
      namespace in its turn. */
  lemma AdminSystemDomainsListed(u: Util)
    ensures AdminSystemDomains(u)
            == (if u.adminDomain != "" then [u.adminDomain] else [])
               + seq(|u.systemNamespaces|, i requires 0 <= i < |u.systemNamespaces| =>
                       u.adminDomain + "." + u.systemNamespaces[i])
    ensures forall x :: x in AdminSystemDomains(u)
              <==> (x == u.adminDomain != "" || exists ns :: ns in u.systemNamespaces && x == u.adminDomain + "." + ns)
  {
    var nss := u.systemNamespaces;
    SystemDomainsListed(u, nss);
    forall x ensures x in SystemDomains(u, nss) <==> exists ns :: ns in nss && x == u.adminDomain + "." + ns {
      if ns :| ns in nss && x == u.adminDomain + "." + ns {
        var i :| 0 <= i < |nss| && nss[i] == ns;
        assert SystemDomains(u, nss)[i] == x;
      }
    }
  }

  // ----- the replacements, one character at a time -----

  /** Both replacements of the encoder at once. */
  function Encode(d: string): string {
    if d == "" then ""
    else (if d[0] == '-' then "--" else if d[0] == '.' then "-" else [d[0]]) + Encode(d[1..])
  }

  /** The decoder after its first replacement. */
  function Dots(ns: string): string {
    if ns == "" then "" else [if ns[0] == '-' then '.' else ns[0]] + Dots(ns[1..])
  }

  function Undot(s: string): string { ReplaceAll(s, "..", "-") }

  lemma ReplaceCharUnfold(a: string, c: char, to: string)
    requires a != ""
    ensures ReplaceAll(a, [c], to) == (if a[0] == c then to else [a[0]]) + ReplaceAll(a[1..], [c], to)
  {
    assert a[..1] == [a[0]];
  }

  lemma {:induction false} ReplaceCharConcat(a: string, b: string, c: char, to: string)
    ensures ReplaceAll(a + b, [c], to) == ReplaceAll(a, [c], to) + ReplaceAll(b, [c], to)
  {
    if a == "" {
      assert a + b == b;
    } else {
      var head := if a[0] == c then to else [a[0]];
      var rest := ReplaceAll(a[1..], [c], to);
      assert ReplaceAll(a, [c], to) == head + rest by { ReplaceCharUnfold(a, c, to); }
      assert ReplaceAll(a + b, [c], to) == head + (rest + ReplaceAll(b, [c], to)) by {
        ReplaceCharUnfold(a + b, c, to);
        assert (a + b)[1..] == a[1..] + b;
        ReplaceCharConcat(a[1..], b, c, to);
      }
    }
  }

  lemma {:induction false} EncodeIsReplace(d: string)
    ensures ReplaceAll(ReplaceAll(d, "-", "--"), ".", "-") == Encode(d)
  {
    if d != "" {
      EncodeIsReplace(d[1..]);
      assert d[..1] == [d[0]];
      var head := if d[0] == '-' then "--" else [d[0]];
      assert ReplaceAll(d, "-", "--") == head + ReplaceAll(d[1..], "-", "--");
      ReplaceCharConcat(head, ReplaceAll(d[1..], "-", "--"), '.', "-");
      assert ReplaceAll(head, ".", "-") == if d[0] == '-' then "--" else if d[0] == '.' then "-" else [d[0]] by {
        assert head[..1] == [head[0]];
        if d[0] == '-' {
          assert head[1..] == "-";
          assert "-"[..1] == "-";
        }
      }
    }
  }

  lemma {:induction false} DotsIsReplace(ns: string)
    ensures ReplaceAll(ns, "-", ".") == Dots(ns)
  {
    if ns != "" {
      assert ns[..1] == [ns[0]];
      DotsIsReplace(ns[1..]);
    }
  }

  lemma UndotPair(s: string)
    ensures Undot(".." + s) == "-" + Undot(s)
  {
    assert (".." + s)[..2] == "..";
    assert (".." + s)[2..] == s;
  }

  lemma UndotOne(c: char, s: string)
    requires !(c == '.' && |s| > 0 && s[0] == '.')
    ensures Undot([c] + s) == [c] + Undot(s)
  {
    var cs := [c] + s;
    if |cs| >= 2 {
      assert cs[..2] == [c, s[0]];
      assert cs[1..] == s;
    } else {
      assert s == "";
    }
  }

  // ----- the two conversions, spelled out -----

  /** Outside the admin prefix the encoding goes character by character. */
  lemma EncodeLaw(u: Util, c: char, d: string)
    requires !(u.adminDomain != "" && u.adminDomain <= [c] + d)
    ensures DomainToNamespace(u, [c] + d)
            == (if c == '-' then "--" else if c == '.' then "-" else [c]) + DomainToNamespace(u.(adminDomain := ""), d)
    ensures DomainToNamespace(u, "") == ""
  {
    EncodeIsReplace([c] + d);
    EncodeIsReplace(d);
    assert ([c] + d)[1..] == d;
  }

  /** Under the admin domain and a '.' the rest is the namespace; any other name beginning alike is its own. */
  lemma PrefixLaw(u: Util, rest: string)
    requires u.adminDomain != ""
    ensures DomainToNamespace(u, u.adminDomain + "." + rest) == rest
    ensures (rest == "" || rest[0] != '.') ==> DomainToNamespace(u, u.adminDomain + rest) == u.adminDomain + rest
  {
    var a, dotted := u.adminDomain, u.adminDomain + ".";
    assert a <= dotted + rest by { assert (dotted + rest)[..|a|] == a; }
    assert (dotted + rest)[|dotted|..] == rest;
    if dotted <= a + rest { assert (a + rest)[|a|] == '.' && rest[0] == '.'; }
  }

  /** Outside the system list the decoding takes two separators for '-' and one for '.'; in it the admin
      domain and a '.' go in front. */
  lemma DecodeLaw(u: Util, ns: string)
    ensures ns in u.systemNamespaces ==> NamespaceToDomain(u, ns) == u.adminDomain + "." + ns
    ensures ns !in u.systemNamespaces ==>
              var plain := u.(systemNamespaces := []);
              NamespaceToDomain(u, ns)
              == if ns == "" then ""
                 else if |ns| >= 2 && ns[0] in {'-', '.'} && ns[1] in {'-', '.'}
                 then "-" + NamespaceToDomain(plain, ns[2..])
                 else (if ns[0] == '-' then "." else [ns[0]]) + NamespaceToDomain(plain, ns[1..])
  {
    DotsIsReplace(ns);
    if ns != "" {
      DotsIsReplace(ns[1..]);
      if |ns| >= 2 && ns[0] in {'-', '.'} && ns[1] in {'-', '.'} {
        DotsIsReplace(ns[2..]);
        assert ns[1..][1..] == ns[2..];
        assert Dots(ns) == ".." + Dots(ns[2..]);
        UndotPair(Dots(ns[2..]));
      } else {
        UndotOne(if ns[0] == '-' then '.' else ns[0], Dots(ns[1..]));
      }
    }
  }

  // ----- domain -> namespace -> domain -----

  lemma DotsCons(c: char, s: string)
    ensures Dots([c] + s) == [if c == '-' then '.' else c] + Dots(s)
  {
    assert ([c] + s)[1..] == s;
  }

  lemma DotsOfEncodeHead(d: string)
    requires d != ""
    ensures Dots(Encode(d)) == (if d[0] == '-' then ".." else [d[0]]) + Dots(Encode(d[1..]))
  {
    var e := Encode(d[1..]);
    if d[0] == '-' {
      assert "--" + e == ['-'] + (['-'] + e);
      DotsCons('-', ['-'] + e);
      DotsCons('-', e);
    } else {
      DotsCons(if d[0] == '.' then '-' else d[0], e);
    }
  }

  lemma NoDotTail(d: string)
    requires d != ""
    ensures var r := d[1..];
            NoDotBeforeSeparator(d) <==> NoDotBeforeSeparator(r) && !(d[0] == '.' && r != "" && r[0] in {'.', '-'})
  {
    var r := d[1..];
    assert forall i :: 0 <= i < |r| ==> r[i] == d[i + 1];
    if NoDotBeforeSeparator(r) && !(d[0] == '.' && r != "" && r[0] in {'.', '-'}) {
      forall i | 0 <= i < |d| - 1 && d[i] == '.' ensures d[i + 1] != '.' && d[i + 1] != '-' {
        if i > 0 { assert r[i - 1] == '.'; }
      }
    }
  }

  lemma {:induction false} DecodeEncode(d: string)
    ensures Undot(Dots(Encode(d))) == d <==> NoDotBeforeSeparator(d)
  {
    if d != "" {
      var r := d[1..];
      DecodeEncode(r);
      DotsOfEncodeHead(d);
      NoDotTail(d);
      var tail := Dots(Encode(r));
      if d[0] == '-' {
        UndotPair(tail);
        assert d == "-" + r;
      } else if d[0] == '.' && r != "" && r[0] in {'.', '-'} {
        DotsOfEncodeHead(r);
        var rest := tail[1..];
        assert "." + tail == ".." + rest;
        UndotPair(rest);
        assert Undot(Dots(Encode(d)))[0] == '-';
      } else {
        if r != "" { DotsOfEncodeHead(r); }
        UndotOne(d[0], tail);
        assert d == [d[0]] + r;
      }
    }
  }

  /** A domain outside the admin prefix whose namespace is not a system namespace survives the trip
      through its namespace exactly when no '.' in it is followed by '.' or '-'. */
  lemma DomainRoundTrip(u: Util, d: string)
    requires !InAdminPrefix(u, d)
    requires DomainToNamespace(u, d) !in u.systemNamespaces
    ensures CanonicalDomain(u, d) <==> NoDotBeforeSeparator(d)
  {
    EncodeIsReplace(d);
    DotsIsReplace(Encode(d));
    DecodeEncode(d);
  }

  /** A domain mapped to a system namespace is canonical exactly as `admin.` and that namespace. */
  lemma SystemDomainRoundTrip(u: Util, d: string)
    requires DomainToNamespace(u, d) in u.systemNamespaces
    ensures CanonicalDomain(u, d) <==> u.adminDomain != "" && u.adminDomain + "." <= d
  {
    var prefix := u.adminDomain + ".";
    if u.adminDomain == "" {
      EncodeIsReplace(d);
      EncodeGrows(d);
    } else if prefix <= d {
      assert u.adminDomain <= d by {
        assert d[..|prefix|] == prefix;
        assert d[..|u.adminDomain|] == prefix[..|u.adminDomain|];
      }
      assert d == prefix + d[|prefix|..];
    }
  }

  // ----- namespace -> domain -> namespace -----

  lemma {:induction false} EncodeDecode(ns: string)
    ensures Encode(Undot(Dots(ns))) == ns <==> '.' !in ns
    decreases |ns|
  {
    if ns == "" {
    } else if |ns| >= 2 && ns[0] == '-' && ns[1] == '-' {
      var r := ns[2..];
      EncodeDecode(r);
      assert ns == "--" + r;
      assert ns[1..][1..] == r;
      assert Dots(ns) == ".." + Dots(r);
      UndotPair(Dots(r));
    } else {
      var r := ns[1..];
      EncodeDecodeTail(ns);
    }
  }

  lemma {:induction false} EncodeDecodeTail(ns: string)
    requires ns != "" && !(|ns| >= 2 && ns[0] == '-' && ns[1] == '-')
    ensures Encode(Undot(Dots(ns))) == ns <==> '.' !in ns
    decreases |ns|, 0
  {
    EncodeHasNoDot(Undot(Dots(ns)));
    if '.' !in ns {
      var r := ns[1..];
      EncodeDecode(r);
      var c := if ns[0] == '-' then '.' else ns[0];
      assert Dots(ns) == [c] + Dots(r);
      UndotOne(c, Dots(r));
      assert ns == [ns[0]] + r;
    }
  }

  lemma {:induction false} EncodeHasNoDot(d: string)
    ensures '.' !in Encode(d)
  {
    if d != "" { EncodeHasNoDot(d[1..]); }
  }

  /** A namespace outside the system list whose domain avoids the admin prefix comes back from its
      domain exactly when it has no '.', whatever its runs of dashes. */
  lemma NamespaceRoundTrip(u: Util, ns: string)
    requires ns !in u.systemNamespaces && !InAdminPrefix(u, NamespaceToDomain(u, ns))
    ensures DomainToNamespace(u, NamespaceToDomain(u, ns)) == ns <==> '.' !in ns
  {
    DotsIsReplace(ns);
    EncodeIsReplace(Undot(Dots(ns)));
    EncodeDecode(ns);
  }

  lemma {:induction false} EncodeGrows(d: string)
    ensures |Encode(d)| >= |d|
  {
    if d != "" { EncodeGrows(d[1..]); }
  }

  /** A system namespace comes back from its domain exactly when an admin domain is configured. */
  lemma SystemNamespaceRoundTrip(u: Util, ns: string)
    requires ns in u.systemNamespaces
    ensures DomainToNamespace(u, NamespaceToDomain(u, ns)) == ns <==> u.adminDomain != ""
  {
    var d := NamespaceToDomain(u, ns);
    if u.adminDomain != "" {
      assert d[..|u.adminDomain|] == u.adminDomain;
      assert d == (u.adminDomain + ".") + ns;
    } else {
      assert d == "." + ns;
      EncodeIsReplace(d);
      EncodeGrows(ns);
      assert d[1..] == ns;
    }
  }

  /** What Encode does to a name without '.': nothing, or it gets longer. */
  lemma {:induction false} EncodeOfUndotted(d: string)
    requires '.' !in d
    ensures if '-' in d then |Encode(d)| > |d| else Encode(d) == d
  {
    if d != "" {
      EncodeOfUndotted(d[1..]);
      EncodeGrows(d[1..]);
      assert d == [d[0]] + d[1..];
    }
  }

  lemma UndotShrinks(s: string)
    ensures |Undot(s)| <= |s|
    decreases |s|
  {
    if |s| >= 2 { UndotShrinks(if s[..2] == ".." then s[2..] else s[1..]); }
  }

  lemma {:induction false} DotsLength(ns: string)
    ensures |Dots(ns)| == |ns|
  {
    if ns != "" { DotsLength(ns[1..]); }
  }

  /** An ordinary namespace without '.' whose domain begins with the admin domain comes back exactly when
      it has no '-' either, as under a longer name that merely begins alike. */
  lemma PrefixedNamespaceRoundTrip(u: Util, ns: string)
    requires ns !in u.systemNamespaces && InAdminPrefix(u, NamespaceToDomain(u, ns)) && '.' !in ns
    ensures DomainToNamespace(u, NamespaceToDomain(u, ns)) == ns <==> '-' !in ns
  {
    var d := NamespaceToDomain(u, ns);
    DotsIsReplace(ns);
    EncodeDecode(ns);
    EncodeOfUndotted(ns);
    UndotShrinks(Dots(ns));
    DotsLength(ns);
    if '-' !in ns {
      DecodeEncode(ns);
      assert d == ns;
      assert !(u.adminDomain + "." <= d) by { assert (u.adminDomain + ".")[|u.adminDomain|] == '.'; }
    }
  }

  /** The namespaces that come back from their domains. */
  predicate RegularNamespace(u: Util, ns: string) {
    if ns in u.systemNamespaces then u.adminDomain != ""
    else '.' !in ns && (InAdminPrefix(u, NamespaceToDomain(u, ns)) ==> '-' !in ns)
  }

  lemma RegularRoundTrip(u: Util, ns: string)
    requires IsLabel(u, ns)
    ensures DomainToNamespace(u, NamespaceToDomain(u, ns)) == ns <==> RegularNamespace(u, ns)
    ensures RegularNamespace(u, ns) ==> CanonicalDomain(u, NamespaceToDomain(u, ns))
  {
    if ns in u.systemNamespaces {
      SystemNamespaceRoundTrip(u, ns);
    } else if InAdminPrefix(u, NamespaceToDomain(u, ns)) {
      PrefixedNamespaceRoundTrip(u, ns);
    } else {
      NamespaceRoundTrip(u, ns);
    }
  }

  // ----- when two namespaces share a domain -----

  /** A system namespace, or a name that a Kubernetes namespace can have: one without '.'. */
  predicate IsLabel(u: Util, ns: string) { ns in u.systemNamespaces || '.' !in ns }

  /** Ordinary namespaces never share a domain, whatever the admin domain. */
  lemma OrdinaryNamespacesDiffer(u: Util, a: string, b: string)
    requires a !in u.systemNamespaces && b !in u.systemNamespaces && '.' !in a && '.' !in b
    requires NamespaceToDomain(u, a) == NamespaceToDomain(u, b)
    ensures a == b
  {
    DotsIsReplace(a);
    DotsIsReplace(b);
    EncodeDecode(a);
    EncodeDecode(b);
  }

  /** The ordinary namespace x is spelled as the domain of the system namespace k would be. */
  predicate Collides(u: Util, x: string, k: string) {
    x !in u.systemNamespaces && k in u.systemNamespaces
    && x == Encode(u.adminDomain + "." + k) && NoDotBeforeSeparator(u.adminDomain + "." + k)
  }

  lemma CollisionExactly(u: Util, x: string, k: string)
    requires x !in u.systemNamespaces && k in u.systemNamespaces && '.' !in x
    ensures NamespaceToDomain(u, x) == NamespaceToDomain(u, k) <==> Collides(u, x, k)
  {
    DotsIsReplace(x);
    EncodeDecode(x);
    DecodeEncode(u.adminDomain + "." + k);
  }

  /** Two namespaces share a domain exactly when they are the same or one is ordinary and spelled as the
      domain of the other, a system namespace. */
  lemma SharedDomainExactly(u: Util, a: string, b: string)
    requires IsLabel(u, a) && IsLabel(u, b)
    ensures NamespaceToDomain(u, a) == NamespaceToDomain(u, b) <==> a == b || Collides(u, a, b) || Collides(u, b, a)
  {
    if a in u.systemNamespaces && b in u.systemNamespaces {
      var prefix := u.adminDomain + ".";
      if prefix + a == prefix + b { assert (prefix + a)[|prefix|..] == a && (prefix + b)[|prefix|..] == b; }
    } else if b in u.systemNamespaces {
      CollisionExactly(u, a, b);
    } else if a in u.systemNamespaces {
      CollisionExactly(u, b, a);
    } else if NamespaceToDomain(u, a) == NamespaceToDomain(u, b) {
      OrdinaryNamespacesDiffer(u, a, b);
    }
  }

  // ----- the name lists -----

  /** isSystemNamespace: a search loop. */
  method FindSystemNamespace(u: Util, ns: string) returns (found: bool)
    ensures found <==> exists i :: 0 <= i < |u.systemNamespaces| && u.systemNamespaces[i] == ns
  {
    var i := 0;
    while i < |u.systemNamespaces|
      invariant 0 <= i <= |u.systemNamespaces|
      invariant ns !in u.systemNamespaces[..i]
    {
      if ns == u.systemNamespaces[i] { return true; }
      i := i + 1;
    }
    assert u.systemNamespaces[..i] == u.systemNamespaces;
    return false;
  }

  /** GetSystemNSDomains, in list order. */
  method GetSystemNSDomains(u: Util) returns (domains: seq<string>)
    ensures |domains| == |u.systemNamespaces|
    ensures forall i :: 0 <= i < |domains| ==> domains[i] == u.adminDomain + "." + u.systemNamespaces[i]
    ensures u.adminDomain != "" ==>
              forall i :: 0 <= i < |domains| ==> DomainToNamespace(u, domains[i]) == u.systemNamespaces[i]
  {
    domains := [];
    for i := 0 to |u.systemNamespaces|
      invariant |domains| == i
      invariant forall j :: 0 <= j < i ==> domains[j] == u.adminDomain + "." + u.systemNamespaces[j]
      invariant u.adminDomain != "" ==>
                  forall j :: 0 <= j < i ==> DomainToNamespace(u, domains[j]) == u.systemNamespaces[j]
    {
      SystemNamespaceRoundTrip(u, u.systemNamespaces[i]);
      domains := domains + [NamespaceToDomain(u, u.systemNamespaces[i])];
    }
  }
}
