/** The token provider of pkg/identity/identity.go on an explicit clock. Instants and durations are
    nanoseconds; minting a token and recording its expiry happen at one instant. */
module Identity {
  import opened Arithmetic

  const SECOND: nat := 1_000_000_000
  const HOUR: nat := 3600 * SECOND
  const REFRESH_INTERVAL_FACTOR: nat := 10

  /** Go's zero time, in nanoseconds before the Unix epoch. */
  const ZERO_TIME: int := -62135596800 * SECOND

  datatype Token = NoToken | Minted(at: int)
  datatype Result<+T> = Ok(value: T) | Err

  /** A quarter of the expiry, cut down to whole seconds. */
  function Grace(expiry: nat): nat { SECOND * (expiry / (4 * SECOND)) }

  function Interval(expiry: nat): nat { expiry / REFRESH_INTERVAL_FACTOR }

  /** The grace period is the largest number of whole seconds in a quarter of the expiry, and a tick comes
      every tenth of it; both in nanoseconds. */
  lemma TimesSpelledOut(expiry: nat)
    ensures Grace(expiry) % 1_000_000_000 == 0 && 4 * Grace(expiry) <= expiry < 4 * (Grace(expiry) + 1_000_000_000)
    ensures 10 * Interval(expiry) <= expiry < 10 * (Interval(expiry) + 1)
  {
    var q := expiry / 4_000_000_000;
    assert expiry == 4_000_000_000 * q + expiry % 4_000_000_000;
    assert Grace(expiry) == 1_000_000_000 * q;
  }

  // ----- runs of the refresh loop -----

  /** The recorded expiry after a run of ticks that started with a token minted at 0. Tick n comes at
      n intervals; keys[n - 1] tells whether a signing key can be had then. */
  function ExpiryAfter(expiry: nat, keys: seq<bool>): int {
    if keys == [] then expiry
    else
      var e := ExpiryAfter(expiry, keys[..|keys| - 1]);
      var now := |keys| * Interval(expiry);
      if e < now + Grace(expiry) && keys[|keys| - 1] then now + expiry else e
  }

  /** Instant t lies between ticks n and n + 1. */
  predicate Between(expiry: nat, n: nat, t: int) {
    n * Interval(expiry) <= t <= (n + 1) * Interval(expiry)
  }

  /** The installed token is unexpired at every instant of the run up to the tick after its last. */
  ghost predicate AlwaysUnexpired(expiry: nat, keys: seq<bool>) {
    forall n: nat, t: int :: n <= |keys| && Between(expiry, n, t) ==> t < ExpiryAfter(expiry, keys[..n])
  }

  /** The length of the key outage a run ends in. */
  function Outage(keys: seq<bool>): nat {
    if keys == [] || keys[|keys| - 1] then 0 else Outage(keys[..|keys| - 1]) + 1
  }

  /** No more than k consecutive ticks find no key. */
  ghost predicate OutagesAtMost(keys: seq<bool>, k: nat) {
    forall n: nat :: n <= |keys| ==> Outage(keys[..n]) <= k
  }

  /** The largest age, in ticks, at which a check still keeps the token. */
  function LastKeptAge(expiry: nat): nat
    requires Interval(expiry) > 0
  {
    (expiry - Grace(expiry)) / Interval(expiry)
  }

  lemma KeptAge(expiry: nat, age: nat)
    requires Interval(expiry) > 0
    ensures age <= LastKeptAge(expiry) <==> age * Interval(expiry) + Grace(expiry) <= expiry
  {
    var i, room := Interval(expiry), expiry - Grace(expiry);
    var j := LastKeptAge(expiry);
    assert j * i <= room < (j + 1) * i;
    if age <= j { MulOrder(age, j, i); } else { MulOrder(j + 1, age, i); }
  }

  /** The token in force was minted at some tick m, and its age exceeds the last kept age by no more
      than the current outage. */
  lemma {:induction false} AgeBound(expiry: nat, keys: seq<bool>) returns (m: nat)
    requires Interval(expiry) > 0
    ensures m <= |keys| && ExpiryAfter(expiry, keys) == m * Interval(expiry) + expiry
    ensures |keys| - m <= LastKeptAge(expiry) + Outage(keys)
  {
    if keys == [] {
      m := 0;
    } else {
      var i, n := Interval(expiry), |keys|;
      m := AgeBound(expiry, keys[..n - 1]);
      assert n * i == (n - m) * i + m * i;
      KeptAge(expiry, n - m);
      if ExpiryAfter(expiry, keys[..n - 1]) < n * i + Grace(expiry) && keys[n - 1] { m := n; }
    }
  }

  /** The longest outage a run may contain. */
  ghost predicate Tolerates(expiry: nat, k: nat)
    requires Interval(expiry) > 0
  {
    (LastKeptAge(expiry) + k + 1) * Interval(expiry) < expiry
  }

  lemma ToleratedOutagesAreSafe(expiry: nat, k: nat, keys: seq<bool>)
    requires Interval(expiry) > 0 && Tolerates(expiry, k) && OutagesAtMost(keys, k)
    ensures AlwaysUnexpired(expiry, keys)
  {
    var i := Interval(expiry);
    forall n: nat, t: int | n <= |keys| && Between(expiry, n, t)
      ensures t < ExpiryAfter(expiry, keys[..n])
    {
      var m := AgeBound(expiry, keys[..n]);
      assert Outage(keys[..n]) <= k;
      MulOrder(n - m + 1, LastKeptAge(expiry) + k + 1, i);
      assert (n + 1) * i == (n - m + 1) * i + m * i;
    }
  }

  /** Keys are at hand while the first token is kept, then missing for k ticks. */
  function WorstRun(kept: nat, k: nat): seq<bool> { seq(kept + k, j => j < kept) }

  lemma {:induction false} WorstRunKeepsFirstToken(expiry: nat, k: nat, n: nat)
    requires Interval(expiry) > 0 && n <= LastKeptAge(expiry) + k
    ensures var keys := WorstRun(LastKeptAge(expiry), k)[..n];
            ExpiryAfter(expiry, keys) == expiry
              && Outage(keys) == if n <= LastKeptAge(expiry) then 0 else n - LastKeptAge(expiry)
  {
    if n > 0 {
      WorstRunKeepsFirstToken(expiry, k, n - 1);
      var run := WorstRun(LastKeptAge(expiry), k);
      assert run[..n][..n - 1] == run[..n - 1];
      KeptAge(expiry, n);
    }
  }

  lemma UntoleratedOutageExpires(expiry: nat, k: nat) returns (keys: seq<bool>)
    requires Interval(expiry) > 0 && !Tolerates(expiry, k)
    ensures OutagesAtMost(keys, k) && !AlwaysUnexpired(expiry, keys)
  {
    var kept, i := LastKeptAge(expiry), Interval(expiry);
    keys := WorstRun(kept, k);
    forall n: nat | n <= |keys| ensures Outage(keys[..n]) <= k {
      WorstRunKeepsFirstToken(expiry, k, n);
    }
    WorstRunKeepsFirstToken(expiry, k, kept + k);
    var t := (kept + k + 1) * i;
    assert t == (kept + k) * i + i;
    assert Between(expiry, kept + k, t) && t >= ExpiryAfter(expiry, keys[..kept + k]);
  }

  /** Exactly which outages every run survives. */
  lemma ValidityExactly(expiry: nat, k: nat)
    requires Interval(expiry) > 0
    ensures (forall keys | OutagesAtMost(keys, k) :: AlwaysUnexpired(expiry, keys)) <==> Tolerates(expiry, k)
  {
    if Tolerates(expiry, k) {
      forall keys | OutagesAtMost(keys, k) ensures AlwaysUnexpired(expiry, keys) {
        ToleratedOutagesAreSafe(expiry, k, keys);
      }
    } else {
      var keys := UntoleratedOutageExpires(expiry, k);
    }
  }

  /** Without failed refreshes the token is valid throughout exactly when the expiry is at least 4 s:
      below that the truncated grace period is zero. */
  lemma FourSeconds(expiry: nat)
    requires Interval(expiry) > 0
    ensures Tolerates(expiry, 0) <==> expiry >= 4 * SECOND
  {
    var i, g, j := Interval(expiry), Grace(expiry), LastKeptAge(expiry);
    assert j * i <= expiry - g < (j + 1) * i;
    if expiry >= 4 * SECOND {
      assert i < g;
    } else {
      assert g == 0;
    }
  }

  /** From 16 s on, any single failed tick between successes is survived. */
  lemma SixteenSecondsSurviveOneFailure(expiry: nat)
    requires expiry >= 16 * SECOND
    ensures Interval(expiry) > 0 && Tolerates(expiry, 1)
  {
    var i, g, j := Interval(expiry), Grace(expiry), LastKeptAge(expiry);
    assert j * i <= expiry - g;
    assert (j + 2) * i == j * i + 2 * i;
    assert 2 * i < g;
  }

  // ----- the provider -----

  class TokenProvider {
    const tokenExpiry: nat
    var current: Token
    var expire: int
    var credentials: Token  // what the ZMS client sends

    ghost predicate Valid()
      reads this
    {
      credentials == current && (current.Minted? ==> expire == current.at + tokenExpiry)
    }

    constructor Unset(expiry: nat)
      ensures Valid() && tokenExpiry == expiry && current == NoToken && expire == ZERO_TIME
    {
      tokenExpiry, current, expire, credentials := expiry, NoToken, ZERO_TIME, NoToken;
    }

    method UpdateToken(now: int, haveKey: bool) returns (ok: bool)
      requires Valid()
      modifies this
      ensures Valid() && ok == haveKey
      ensures ok ==> current == Minted(now)
      ensures !ok ==> current == old(current) && expire == old(expire)
    {
      if !haveKey { return false; }
      current := Minted(now);
      expire := now + tokenExpiry;
      credentials := current;
      return true;
    }

    /** On success the returned token is the installed one and outlives the grace period. */
    method GetToken(now: int, haveKey: bool) returns (r: Result<Token>)
      requires Valid()
      modifies this
      ensures Valid()
      ensures r.Err? <==> old(expire) < now + Grace(tokenExpiry) && !haveKey
      ensures r.Ok? ==> r.value == current && expire >= now + Grace(tokenExpiry)
      ensures var refreshed := old(expire) < now + Grace(tokenExpiry) && haveKey;
              && current == (if refreshed then Minted(now) else old(current))
              && expire == (if refreshed then now + tokenExpiry else old(expire))
    {
      var gracePeriod := tokenExpiry / 4 / SECOND;
      var limit := now + SECOND * gracePeriod;
      assert SECOND * gracePeriod == Grace(tokenExpiry) <= tokenExpiry;
      if expire < limit {
        var ok := UpdateToken(now, haveKey);
        if !ok { return Err; }
      }
      return Ok(current);
    }

    /** refreshLoop over |keys| prompt ticks, for a token minted at `start`. */
    method RefreshLoop(start: int, keys: seq<bool>)
      requires Valid() && current == Minted(start)
      modifies this
      ensures Valid() && current.Minted?
      ensures expire == start + ExpiryAfter(tokenExpiry, keys)
    {
      var n := 0;
      while n < |keys|
        invariant 0 <= n <= |keys|
        invariant Valid() && current.Minted?
        invariant expire == start + ExpiryAfter(tokenExpiry, keys[..n])
      {
        n := n + 1;
        assert keys[..n][..n - 1] == keys[..n - 1];
        var r := GetToken(start + n * (tokenExpiry / REFRESH_INTERVAL_FACTOR), keys[n - 1]);
      }
      assert keys[..n] == keys;
    }
  }

  /** NewTokenProvider without its goroutine: an expiry of zero means an hour, and no provider comes
      back without a first token. */
  method NewTokenProvider(expiry: nat, now: nat, haveKey: bool) returns (r: Result<TokenProvider>)
    ensures r.Ok? <==> haveKey
    ensures r.Ok? ==> fresh(r.value) && r.value.Valid() && r.value.current == Minted(now)
                      && r.value.tokenExpiry == if expiry == 0 then 3_600_000_000_000 else expiry
  {
    var tp := new TokenProvider.Unset(if expiry == 0 then HOUR else expiry);
    var t := tp.GetToken(now, haveKey);
    if t.Err? { return Err; }
    return Ok(tp);
  }
}
