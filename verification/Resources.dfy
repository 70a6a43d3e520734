/** AthenzDomain resources and the ZMS data they carry: pkg/apis/athenz/v1, the comparison and writes
    of pkg/cr/cr.go, and the MSD filter of pkg/util/util.go. Resources are values. */
module Resources {
  import opened Codec
  import opened Options

  datatype Role = Role(name: string, trust: string, body: string)
  datatype Policy = Policy(name: string, body: string)

  /** `body` stands for the parts the syncer only copies; `modified` is in milliseconds. */
  datatype DomainData = DomainData(
    name: string, modified: nat, roles: seq<Role>, policies: seq<Policy>, policiesSignature: string, body: string)
  datatype SignedDomain = SignedDomain(domain: DomainData, signature: string, keyId: string)

  /** An AthenzDomain resource; `version` is its resource version. */
  datatype CR = CR(spec: SignedDomain, status: string, version: nat)

  function Lookup<T>(m: map<string, T>, k: string): Option<T> { if k in m then Some(m[k]) else None }

  /** The non-empty trust names of a domain's roles: its keys in the trust index. */
  function Trusts(sd: SignedDomain): set<string> {
    set r | r in sd.domain.roles && r.trust != "" :: r.trust
  }

  /** TrustDomainIndexFunc. */
  method TrustDomainIndex(sd: SignedDomain) returns (keys: seq<string>)
    ensures forall t :: t in keys <==> t != "" && exists r :: r in sd.domain.roles && r.trust == t
    ensures forall t :: t in keys <==> t in Trusts(sd)
  {
    keys := [];
    var roles := sd.domain.roles;
    for i := 0 to |roles|
      invariant forall t :: t in keys <==> exists j :: 0 <= j < i && roles[j].trust == t && t != ""
    {
      if roles[i].trust != "" { keys := keys + [roles[i].trust]; }
    }
  }

  // ----- comparing and writing -----

  /** The content without the two signatures updateCR ignores. */
  function Unsigned(sd: SignedDomain): SignedDomain {
    sd.(signature := "", domain := sd.domain.(policiesSignature := ""))
  }

  predicate SameContent(a: SignedDomain, b: SignedDomain) { Unsigned(a) == Unsigned(b) }

  lemma SameTrusts(a: SignedDomain, b: SignedDomain)
    requires SameContent(a, b)
    ensures Trusts(a) == Trusts(b)
  {
    assert Unsigned(a).domain.roles == a.domain.roles && Unsigned(b).domain.roles == b.domain.roles;
  }

  /** The resource already carries the content, without an error message. */
  predicate UpToDate(cr: CR, data: SignedDomain) { SameContent(cr.spec, data) && cr.status == "" }

  /** How the API server treats one request: it serves it, refuses it, or serves it and loses the reply. */
  datatype ApiReply = Served | Refused | ReplyLost

  datatype WriteResult = Wrote | Skipped | Failed

  /** The server takes a creation of what does not exist and an update of the version it holds. */
  predicate Accepts(server: map<string, CR>, d: string, seen: Option<CR>) {
    if seen.None? then d !in server else d in server && server[d].version == seen.value.version
  }

  /** CreateUpdateAthenzDomain and updateCR against the cached copy `seen`: the server's table after it,
      and the result. The server rejects a stale version; a refused creation whose resource exists
      falls through to an update of nothing, which is an error. */
  function Upsert(server: map<string, CR>, next: nat, d: string, seen: Option<CR>, data: SignedDomain, api: ApiReply)
    : (map<string, CR>, WriteResult)
  {
    if seen.Some? && UpToDate(seen.value, data) then (server, Skipped)
    else if api.Refused? || !Accepts(server, d, seen) then (server, Failed)
    else (server[d := CR(data, "", next)], if api.Served? then Wrote else Failed)
  }

  /** RemoveAthenzDomain once the cache has the resource. */
  function Remove(server: map<string, CR>, d: string, api: ApiReply): (map<string, CR>, bool) {
    if api.Refused? || d !in server then (server, false) else (server - {d}, api.Served?)
  }

  /** A write is skipped exactly when the cached copy has no message and differs at most in its two
      signatures. */
  lemma SkipExactly(server: map<string, CR>, next: nat, d: string, seen: Option<CR>, data: SignedDomain, api: ApiReply)
    ensures Upsert(server, next, d, seen, data, api).1.Skipped?
            <==> exists sig, polSig :: seen.Some? && seen.value.status == ""
                   && seen.value.spec == data.(signature := sig, domain := data.domain.(policiesSignature := polSig))
  {
    if seen.Some? && SameContent(seen.value.spec, data) {
      var o := seen.value.spec;
      assert o.domain == Unsigned(o).domain.(policiesSignature := o.domain.policiesSignature);
      assert o == data.(signature := o.signature,
             domain := data.domain.(policiesSignature := o.domain.policiesSignature));
    }
  }

  /** Once the cache shows a write, writing the same data again changes nothing, whatever the server does. */
  lemma WriteIsIdempotent(server: map<string, CR>, next: nat, d: string, seen: Option<CR>, data: SignedDomain,
                          api: ApiReply, next': nat, api': ApiReply)
    requires Upsert(server, next, d, seen, data, api).1.Wrote?
    ensures var server' := Upsert(server, next, d, seen, data, api).0;
            Upsert(server', next', d, Lookup(server', d), data, api') == (server', Skipped)
  {
  }

  // ----- the MSD filter -----

  predicate MsdRole(domain: string, role: Role) {
    domain + ":role.acl." <= role.name || domain + ":role.msd-read-role-" <= role.name
  }

  predicate MsdPolicy(domain: string, policy: Policy) {
    domain + ":policy.acl." <= policy.name || domain + ":policy.msd-read-policy-" <= policy.name
  }

  function KeepRoles(domain: string, roles: seq<Role>): seq<Role> {
    if roles == [] then []
    else
      var last := roles[|roles| - 1];
      KeepRoles(domain, roles[..|roles| - 1]) + if MsdRole(domain, last) then [] else [last]
  }

  function KeepPolicies(domain: string, policies: seq<Policy>): seq<Policy> {
    if policies == [] then []
    else
      var last := policies[|policies| - 1];
      KeepPolicies(domain, policies[..|policies| - 1]) + if MsdPolicy(domain, last) then [] else [last]
  }

  /** What the syncer stores for a fetched domain. */
  function Filter(u: Util, sd: SignedDomain): SignedDomain {
    if !u.excludeMSDRules then sd
    else
      var d := sd.domain;
      sd.(domain := d.(roles := KeepRoles(d.name, d.roles), policies := KeepPolicies(d.name, d.policies)))
  }

  lemma {:induction false} KeptRoles(domain: string, roles: seq<Role>)
    ensures forall r :: multiset(KeepRoles(domain, roles))[r] == if MsdRole(domain, r) then 0 else multiset(roles)[r]
    ensures forall r :: r in KeepRoles(domain, roles) <==> r in roles && !MsdRole(domain, r)
  {
    if roles != [] {
      KeptRoles(domain, roles[..|roles| - 1]);
      assert roles == roles[..|roles| - 1] + [roles[|roles| - 1]];
    }
  }

  lemma {:induction false} KeptPolicies(domain: string, policies: seq<Policy>)
    ensures forall p ::
              multiset(KeepPolicies(domain, policies))[p] == if MsdPolicy(domain, p) then 0 else multiset(policies)[p]
    ensures forall p :: p in KeepPolicies(domain, policies) <==> p in policies && !MsdPolicy(domain, p)
  {
    if policies != [] {
      KeptPolicies(domain, policies[..|policies| - 1]);
      assert policies == policies[..|policies| - 1] + [policies[|policies| - 1]];
    }
  }

  lemma {:induction false} NothingToDrop(domain: string, roles: seq<Role>, policies: seq<Policy>)
    ensures (forall r :: r in roles ==> !MsdRole(domain, r)) ==> KeepRoles(domain, roles) == roles
    ensures (forall p :: p in policies ==> !MsdPolicy(domain, p)) ==> KeepPolicies(domain, policies) == policies
    decreases |roles| + |policies|
  {
    if roles != [] {
      NothingToDrop(domain, roles[..|roles| - 1], policies);
      assert roles == roles[..|roles| - 1] + [roles[|roles| - 1]];
    } else if policies != [] {
      NothingToDrop(domain, roles, policies[..|policies| - 1]);
      assert policies == policies[..|policies| - 1] + [policies[|policies| - 1]];
    }
  }

  lemma {:induction false} KeepRolesConcat(domain: string, a: seq<Role>, b: seq<Role>)
    ensures KeepRoles(domain, a + b) == KeepRoles(domain, a) + KeepRoles(domain, b)
  {
    if b == [] {
      assert a + b == a;
    } else {
      KeepRolesConcat(domain, a, b[..|b| - 1]);
      assert (a + b)[..|a + b| - 1] == a + b[..|b| - 1];
    }
  }

  lemma {:induction false} KeepPoliciesConcat(domain: string, a: seq<Policy>, b: seq<Policy>)
    ensures KeepPolicies(domain, a + b) == KeepPolicies(domain, a) + KeepPolicies(domain, b)
  {
    if b == [] {
      assert a + b == a;
    } else {
      KeepPoliciesConcat(domain, a, b[..|b| - 1]);
      assert (a + b)[..|a + b| - 1] == a + b[..|b| - 1];
    }
  }

  /** The filter works element by element: what it keeps of a list is what it keeps of its parts, in
      order and as often. */
  lemma FilterKeepsOrder(domain: string, a: seq<Role>, b: seq<Role>, p: seq<Policy>, q: seq<Policy>)
    ensures KeepRoles(domain, a + b) == KeepRoles(domain, a) + KeepRoles(domain, b)
    ensures KeepPolicies(domain, p + q) == KeepPolicies(domain, p) + KeepPolicies(domain, q)
  {
    KeepRolesConcat(domain, a, b);
    KeepPoliciesConcat(domain, p, q);
  }

  /** With the filter on, exactly the roles and policies without an MSD name stay, as often as they were,
      everything else is untouched, and filtering stored data again changes nothing; with it off, nothing
      is changed. */
  lemma FilterMeaning(u: Util, sd: SignedDomain)
    ensures !u.excludeMSDRules ==> Filter(u, sd) == sd
    ensures u.excludeMSDRules ==>
              var f, name := Filter(u, sd), sd.domain.name;
              && (forall r :: multiset(f.domain.roles)[r]
                    == if name + ":role.acl." <= r.name || name + ":role.msd-read-role-" <= r.name then 0
                       else multiset(sd.domain.roles)[r])
              && (forall p :: multiset(f.domain.policies)[p]
                    == if name + ":policy.acl." <= p.name || name + ":policy.msd-read-policy-" <= p.name then 0
                       else multiset(sd.domain.policies)[p])
              && f == sd.(domain := sd.domain.(roles := f.domain.roles, policies := f.domain.policies))
    ensures Filter(u, Filter(u, sd)) == Filter(u, sd)
  {
    var d := sd.domain;
    KeptRoles(d.name, d.roles);
    KeptPolicies(d.name, d.policies);
    NothingToDrop(d.name, KeepRoles(d.name, d.roles), KeepPolicies(d.name, d.policies));
  }

  /** filterMSDRules with its two loops. */
  method DropMSDRules(sd: SignedDomain) returns (f: SignedDomain)
    ensures f == sd.(domain := sd.domain.(roles := KeepRoles(sd.domain.name, sd.domain.roles),
                                          policies := KeepPolicies(sd.domain.name, sd.domain.policies)))
  {
    var d := sd.domain;
    var roles, policies := [], [];
    for i := 0 to |d.roles|
      invariant roles == KeepRoles(d.name, d.roles[..i])
    {
      assert d.roles[..i + 1][..i] == d.roles[..i];
      if !MsdRole(d.name, d.roles[i]) { roles := roles + [d.roles[i]]; }
    }
    for i := 0 to |d.policies|
      invariant policies == KeepPolicies(d.name, d.policies[..i])
    {
      assert d.policies[..i + 1][..i] == d.policies[..i];
      if !MsdPolicy(d.name, d.policies[i]) { policies := policies + [d.policies[i]]; }
    }
    assert d.roles[..|d.roles|] == d.roles && d.policies[..|d.policies|] == d.policies;
    return sd.(domain := d.(roles := roles, policies := policies));
  }

  /** FilterMSDRules. */
  method FilterMSDRules(u: Util, sd: SignedDomain) returns (f: SignedDomain)
    ensures f == Filter(u, sd)
    ensures !u.excludeMSDRules ==> f == sd
    ensures u.excludeMSDRules ==>
              f == sd.(domain := sd.domain.(roles := f.domain.roles, policies := f.domain.policies))
    ensures u.excludeMSDRules ==>
              var name := sd.domain.name;
              && (forall r :: multiset(f.domain.roles)[r]
                    == if name + ":role.acl." <= r.name || name + ":role.msd-read-role-" <= r.name then 0
                       else multiset(sd.domain.roles)[r])
              && (forall p :: multiset(f.domain.policies)[p]
                    == if name + ":policy.acl." <= p.name || name + ":policy.msd-read-policy-" <= p.name then 0
                       else multiset(sd.domain.policies)[p])
  {
    if u.excludeMSDRules {
      f := DropMSDRules(sd);
    } else {
      f := sd;
    }
    FilterMeaning(u, sd);
  }

  // ----- the start-up cursor -----

  const SECOND: nat := 1000

  /** GetLatestTimestamp over the stored resources: the latest modification, written without its
      fraction of a second; None when there is none to write. */
  method GetLatestTimestamp(crs: seq<CR>) returns (tag: Option<nat>)
    ensures tag.Some? ==> tag.value > 0 && tag.value % 1000 == 0
    ensures tag.Some? ==> exists cr :: cr in crs && tag.value <= cr.spec.domain.modified
    ensures forall cr :: cr in crs ==> cr.spec.domain.modified < (if tag.Some? then tag.value else 0) + 1000
    ensures crs == [] ==> tag.None?
  {
    var latest: nat := 0;
    if crs == [] { return None; }
    for i := 0 to |crs|
      invariant forall j :: 0 <= j < i ==> crs[j].spec.domain.modified <= latest
      invariant latest > 0 ==> exists j :: 0 <= j < i && crs[j].spec.domain.modified == latest
    {
      if crs[i].spec.domain.modified > latest { latest := crs[i].spec.domain.modified; }
    }
    var seconds: nat := latest / SECOND * SECOND;
    if seconds == 0 { return None; }
    return Some(seconds);
  }
}
