/** The synchronous loop is a schedule of the lagging protocol: each Process step is what the worker
    does to one item when the API serves its requests and events arrive at once. */
module Refinement {
  import opened Codec
  import opened Resources
  import opened Protocol
  import Consistency
  import Convergence
  import Garbage
  import NoLostUpdate
  import Quiescence

  /** t can be reached from s. */
  ghost predicate Reaches(c: Config, s: State, t: State) {
    exists actions :: Leads(c, s, actions, t)
  }

  ghost predicate Leads(c: Config, s: State, actions: seq<Action>, t: State)
    decreases |actions|
  {
    if actions == [] then s == t
    else Enabled(s, actions[0]) && Leads(c, Step(c, s, actions[0]), actions[1..], t)
  }

  lemma {:induction false} LeadsOn(c: Config, s: State, a: seq<Action>, t: State, b: seq<Action>, u: State)
    requires Leads(c, s, a, t) && Leads(c, t, b, u)
    ensures Leads(c, s, a + b, u)
    decreases |a|
  {
    if a == [] {
      assert a + b == b;
    } else {
      assert (a + b)[1..] == a[1..] + b;
      LeadsOn(c, Step(c, s, a[0]), a[1..], t, b, u);
    }
  }

  lemma ReachesOn(c: Config, s: State, t: State, u: State)
    requires Reaches(c, s, t) && Reaches(c, t, u)
    ensures Reaches(c, s, u)
  {
    var a :| Leads(c, s, a, t);
    var b :| Leads(c, t, b, u);
    LeadsOn(c, s, a, t, b, u);
  }

  lemma ReachesSelf(c: Config, s: State)
    ensures Reaches(c, s, s)
  {
    assert Leads(c, s, [], s);
  }

  lemma ThenStep(c: Config, s: State, t: State, a: Action)
    requires Reaches(c, s, t) && Enabled(t, a)
    ensures Reaches(c, s, Step(c, t, a))
  {
    var u := Step(c, t, a);
    assert [a][1..] == [] && Leads(c, u, [], u);
    assert Leads(c, t, [a], u);
    ReachesOn(c, s, t, u);
  }

  /** An undisturbed sync is one schedule of the protocol among the others. */
  lemma {:induction false} FinishSyncIsASchedule(c: Config, s: State, t: State, zms: ZmsReply, api: ApiReply)
    requires Reaches(c, s, t) && t.startup.Up? && Answerable(t, zms)
    ensures Reaches(c, s, FinishSync(c, t, zms, api))
    decreases Stage(t.worker), RolesLeft(t.worker)
  {
    if Stage(t.worker) > 0 {
      ThenStep(c, s, t, AWorker(Work(zms, api)));
      FinishSyncIsASchedule(c, s, WorkerStep(c, t, Work(zms, api)), zms, api);
    }
  }

  lemma {:induction false} LeadsExtendRun(c: Config, states: seq<State>, actions: seq<Action>, more: seq<Action>,
                                          t: State)
    returns (longer: seq<State>)
    requires Run(c, states, actions) && Leads(c, states[|actions|], more, t)
    ensures Run(c, longer, actions + more) && states <= longer && longer[|actions| + |more|] == t
    decreases |more|
  {
    if more == [] {
      assert actions + more == actions;
      longer := states;
    } else {
      var states', actions' := states + [Step(c, states[|actions|], more[0])], actions + [more[0]];
      assert Run(c, states', actions');
      longer := LeadsExtendRun(c, states', actions', more[1..], t);
      assert actions' + more[1..] == actions + more;
    }
  }

  /** What can be reached from the end of a run is the end of a longer run. */
  lemma ReachesExtendsRun(c: Config, states: seq<State>, actions: seq<Action>, t: State)
    returns (longer: seq<State>, more: seq<Action>)
    requires Run(c, states, actions) && Reaches(c, states[|actions|], t)
    ensures Run(c, longer, actions + more) && states <= longer && longer[|actions| + |more|] == t
  {
    more :| Leads(c, states[|actions|], more, t);
    longer := LeadsExtendRun(c, states, actions, more, t);
  }

  /** So the invariants of runs hold wherever a method of the controller arrives, started at the end of a
      run. */
  lemma InvariantsCarryOver(c: Config, states: seq<State>, actions: seq<Action>, t: State, d: string)
    requires Run(c, states, actions) && Reaches(c, states[|actions|], t)
    ensures Consistency.Consistent(t) && NoLostUpdate.Covered(c, t, d) && (c.retainKeys ==> Garbage.Tracked(c, t, d))
  {
    var longer, more := ReachesExtendsRun(c, states, actions, t);
    var i := |actions| + |more|;
    Consistency.RunConsistent(c, longer, actions + more, i);
    NoLostUpdate.NoUpdateIsLost(c, longer, actions + more, i, d);
    if c.retainKeys { Garbage.GarbageIsTracked(c, longer, actions + more, i, d); }
  }

  /** Nothing lags. */
  ghost predicate Calm(s: State) {
    && s.startup.Up? && s.store.cache == s.store.server
    && (forall d :: Events(s.store.watch, d) == [])
  }

  function Strip(cache: map<string, CR>): map<string, Quiescence.Entry> {
    map d | d in cache :: Quiescence.Entry(cache[d].spec, cache[d].status)
  }

  function AbsWorld(c: Config, s: State): Quiescence.World {
    Quiescence.World(c.util, s.names.cache, s.zms.domains, c.retainKeys)
  }

  function Abs(s: State): Quiescence.Sync {
    Quiescence.Sync(Strip(s.store.cache), s.store.keys, s.queue.waiting + s.queue.dirty)
  }

  lemma StripTrusts(cache: map<string, CR>)
    ensures Quiescence.TableTrusts(Strip(cache)) == AllTrusts(cache)
    ensures forall d :: Quiescence.Trusted(Strip(cache), d) <==> d in AllTrusts(cache)
  {
    var table := Strip(cache);
    forall d, t | d in cache && t in Trusts(cache[d].spec) ensures t in Quiescence.TableTrusts(table) {
      assert d in table && t in Trusts(table[d].spec);
    }
    forall d, t | d in table && t in Trusts(table[d].spec) ensures t in AllTrusts(cache) {
      assert d in cache && t in Trusts(cache[d].spec);
    }
  }

  /** A quiet state of a run is a drained state of the synchronous loop with complete index keys, from
      which its rounds may start, unless a stored domain was given up or has no usable name. */
  lemma QuietIsDrained(c: Config, states: seq<State>, actions: seq<Action>, i: nat)
    requires Run(c, states, actions) && i < |states| && Garbage.Quiet(states[i]) && c.retainKeys
    requires forall d :: d in states[i].store.cache ==> NoLostUpdate.Follows(c, d) && d !in states[i].queue.dropped
    ensures var s := states[i];
            Calm(s) && Abs(s).queue == {} && Convergence.KeysCover(AbsWorld(c, s), Abs(s))
  {
    var s := states[i];
    Garbage.QuietMeansSynced(c, states, actions, i);
    Consistency.RunConsistent(c, states, actions, i);
    StripTrusts(s.store.cache);
  }

  /** The parts of the state that no step of this schedule touches. */
  predicate SameAround(s: State, t: State) {
    t.zms == s.zms && t.names == s.names && t.cron == s.cron && t.startup == s.startup
  }

  // ----- the item is taken up -----

  lemma TakeUp(c: Config, s: State, d: string) returns (t: State)
    requires s.startup.Up? && s.worker.Idle? && Queued(s.queue, d)
    ensures Reaches(c, s, t) && SameAround(s, t) && t.store == s.store && t.worker == Started(d)
    ensures t.queue.waiting + t.queue.dirty == s.queue.waiting + s.queue.dirty - {d}
  {
    ReachesSelf(c, s);
    t := s;
    if d in s.queue.waiting {
      t := Step(c, s, AInner(Ready(d)));
      ThenStep(c, s, s, AInner(Ready(d)));
    }
    var get := AWorker(Get(d));
    ThenStep(c, s, t, get);
    t := Step(c, t, get);
  }

  lemma Judge(c: Config, s: State, t: State, d: string) returns (u: State)
    requires Reaches(c, s, t) && t.startup.Up? && t.worker == Started(d)
    ensures Reaches(c, s, u)
    ensures var valid := Quiescence.Valid(AbsWorld(c, t), Strip(t.store.cache), d);
            u == t.(worker := if valid then Fetching(d) else Removing(d))
  {
    StripTrusts(t.store.cache);
    var go := AWorker(Work(OtherError, Served));
    ThenStep(c, s, t, go);
    u := Step(c, t, go);
    if u.worker.NotNamespace? {
      ThenStep(c, s, u, go);
      u := Step(c, u, go);
    }
  }

  // ----- a write and its event -----

  /** The cache catches up with a server in which only d's entry is new. */
  lemma DeliveredIsCalm(retain: bool, before: Store, d: string, server: map<string, CR>)
    requires before.cache == before.server && (forall x :: Events(before.watch, x) == [])
    requires forall x :: x != d ==> Lookup(server, x) == Lookup(before.server, x)
    ensures var st := Put(before, d, server);
            && Events(st.watch, d) == [Lookup(server, d)]
            && var st' := DeliverCr(st, retain, d);
               && st'.server == server && st'.cache == server && (forall x :: Events(st'.watch, x) == [])
               && st'.keys == (if retain then before.keys else {}) + AllTrusts(server)
               && st'.notify == before.notify + multiset{d}
  {
    var st := Put(before, d, server);
    var st' := DeliverCr(st, retain, d);
    assert st'.cache == server by {
      forall x ensures Lookup(st'.cache, x) == Lookup(server, x) {
        assert x != d ==> Lookup(st'.cache, x) == Lookup(before.cache, x);
      }
      SameLookups(st'.cache, server);
    }
    forall x ensures Events(st'.watch, x) == [] { assert x != d ==> Events(st'.watch, x) == Events(before.watch, x); }
  }

  lemma EventArrives(c: Config, s: State, t: State, before: Store, d: string, server: map<string, CR>)
    returns (u: State)
    requires Reaches(c, s, t) && !t.worker.Crashed? && t.startup.Up?
    requires before.cache == before.server && (forall x :: Events(before.watch, x) == []) && d !in before.notify
    requires t.store == Put(before, d, server) && (forall x :: x != d ==> Lookup(server, x) == Lookup(before.server, x))
    ensures Reaches(c, s, u) && SameAround(t, u) && u.worker == t.worker && u.queue == Enqueue(t.queue, d)
    ensures Calm(u) && u.store.cache == server && u.store.notify == before.notify
    ensures u.store.keys == (if c.retainKeys then before.keys else {}) + AllTrusts(u.store.cache)
  {
    DeliveredIsCalm(c.retainKeys, before, d, server);
    ThenStep(c, s, t, AInner(CrDeliver(d)));
    var v := Step(c, t, AInner(CrDeliver(d)));
    ThenStep(c, s, v, AInner(CrHandle(d)));
    u := Step(c, v, AInner(CrHandle(d)));
    assert u.store.notify == before.notify;
  }

  lemma SameLookups(a: map<string, CR>, b: map<string, CR>)
    requires forall x :: Lookup(a, x) == Lookup(b, x)
    ensures a == b
  {
    forall x ensures x in a <==> x in b { assert Lookup(a, x) == Lookup(b, x); }
    forall x | x in a ensures a[x] == b[x] { assert Lookup(a, x) == Lookup(b, x); }
  }

  // ----- the trust loop -----

  function RestTrusts(data: SignedDomain, handled: nat, d: string, cache: map<string, CR>): set<string> {
    set j | handled <= j < |data.domain.roles| && data.domain.roles[j].trust != "" && data.domain.roles[j].trust != d
            && data.domain.roles[j].trust !in cache :: data.domain.roles[j].trust
  }

  lemma {:induction false} TrustLoop(c: Config, s: State, t: State, d: string, data: SignedDomain, handled: nat)
    returns (u: State)
    requires Reaches(c, s, t) && t.startup.Up? && t.worker == Trusting(d, data, handled)
             && handled <= |data.domain.roles|
    ensures Reaches(c, s, u) && SameAround(t, u) && u.store == t.store && u.worker == Idle
    ensures u.queue.waiting + u.queue.dirty
            == t.queue.waiting + t.queue.dirty
               + (if IsNamespaceOrAdmin(c.util, t.names.cache, d) then RestTrusts(data, handled, d, t.store.cache)
                 else {})
    decreases |data.domain.roles| - handled
  {
    var go := AWorker(Work(OtherError, Served));
    ThenStep(c, s, t, go);
    var v := Step(c, t, go);
    if handled == |data.domain.roles| {
      ThenStep(c, s, v, go);
      u := Step(c, v, go);
      assert RestTrusts(data, handled, d, t.store.cache) == {};
    } else {
      var name := data.domain.roles[handled].trust;
      if v.worker.TrustParent? {
        ThenStep(c, s, v, go);
        v := Step(c, v, go);
        assert RestTrusts(data, handled, d, t.store.cache) == {name} + RestTrusts(data, handled + 1, d, t.store.cache);
      } else {
        assert RestTrusts(data, handled, d, t.store.cache) == RestTrusts(data, handled + 1, d, t.store.cache);
      }
      u := TrustLoop(c, s, v, d, data, handled + 1);
    }
  }

  lemma RestIsNew(w: Quiescence.World, cache: map<string, CR>, d: string)
    requires d in w.zms && Quiescence.Rooted(w, d)
    ensures RestTrusts(Quiescence.Wanted(w, d), 0, d, cache) == Quiescence.NewTrusts(w, Strip(cache), d)
  {
    var data := Quiescence.Wanted(w, d);
    forall t | t in Quiescence.NewTrusts(w, Strip(cache), d) ensures t in RestTrusts(data, 0, d, cache) {
      var r :| r in data.domain.roles && r.trust == t;
      var j :| 0 <= j < |data.domain.roles| && data.domain.roles[j] == r;
    }
  }

  // ----- the two ways an item ends -----

  lemma DeletionArrives(c: Config, s: State, t: State, d: string) returns (u: State)
    requires Reaches(c, s, t) && Calm(t) && t.worker == Deleting(d) && d !in t.store.notify && d in t.store.server
    ensures Reaches(c, s, u) && SameAround(t, u) && Calm(u) && u.worker == Finishing(d, false)
            && u.store.notify == t.store.notify
    ensures u.store.cache == t.store.cache - {d} && u.queue == Enqueue(t.queue, d)
    ensures u.store.keys == (if c.retainKeys then t.store.keys else {}) + AllTrusts(u.store.cache)
  {
    var go := AWorker(Work(OtherError, Served));
    ThenStep(c, s, t, go);
    u := Step(c, t, go);
    u := EventArrives(c, s, u, t.store, d, t.store.server - {d});
  }

  lemma FinishRemoval(c: Config, s: State, t: State, d: string) returns (u: State)
    requires Reaches(c, s, t) && Calm(t) && t.worker == Removing(d) && d !in t.store.notify
    ensures Reaches(c, s, u) && SameAround(t, u) && Calm(u) && u.worker == Idle && u.store.notify == t.store.notify
    ensures u.store.cache == t.store.cache - {d}
    ensures u.store.keys == if d in t.store.cache
            then (if c.retainKeys then t.store.keys else {}) + AllTrusts(u.store.cache)
                            else t.store.keys
    ensures u.queue.waiting + u.queue.dirty == t.queue.waiting + t.queue.dirty + if d in t.store.cache then {d} else {}
  {
    var go := AWorker(Work(OtherError, Served));
    ThenStep(c, s, t, go);
    var v := Step(c, t, go);
    if d in t.store.cache {
      v := DeletionArrives(c, s, v, d);
    } else {
      assert t.store.cache - {d} == t.store.cache;
    }
    ThenStep(c, s, v, go);
    u := Step(c, v, go);
  }

  lemma FinishWrite(c: Config, s: State, t: State, d: string, data: SignedDomain) returns (u: State)
    requires Reaches(c, s, t) && Calm(t) && t.worker == Fetched(d, data) && d !in t.store.notify
    ensures Reaches(c, s, u) && SameAround(t, u) && Calm(u) && u.store.notify == t.store.notify
    ensures u.worker == Trusting(d, data, 0)
    ensures var skip := d in t.store.cache && UpToDate(t.store.cache[d], data);
            && (skip ==> u.store == t.store && u.queue == t.queue)
            && (!skip ==> Strip(u.store.cache) == Strip(t.store.cache)[d := Quiescence.Entry(data, "")]
                          && u.store.keys == (if c.retainKeys then t.store.keys else {}) + AllTrusts(u.store.cache)
                          && u.queue == Enqueue(t.queue, d))
  {
    var go := AWorker(Work(OtherError, Served));
    ThenStep(c, s, t, go);
    var v := Step(c, t, go);
    ThenStep(c, s, v, go);
    u := Step(c, v, go);
    if !(d in t.store.cache && UpToDate(t.store.cache[d], data)) {
      u := EventArrives(c, s, u, t.store, d, t.store.server[d := CR(data, "", t.store.next)]);
      assert u.store.cache == t.store.cache[d := CR(data, "", t.store.next)];
    }
  }

  lemma WriteMatches(c: Config, s: State, s3: State, d: string) returns (t: State)
    requires Reaches(c, s, s3) && SameAround(s, s3) && Calm(s3) && s3.store == s.store && d !in s.store.notify
    requires s3.queue.waiting + s3.queue.dirty == s.queue.waiting + s.queue.dirty - {d} && Queued(s.queue, d)
    requires d in s.zms.domains && Quiescence.Valid(AbsWorld(c, s), Strip(s.store.cache), d)
    requires s3.worker == Fetched(d, Filter(c.util, s.zms.domains[d]))
    ensures Reaches(c, s, t) && Calm(t) && t.worker.Idle? && SameAround(s, t) && t.store.notify == s.store.notify
    ensures Abs(t) == Quiescence.Process(AbsWorld(c, s), Abs(s), d)
  {
    var w, a := AbsWorld(c, s), Abs(s);
    var data := Quiescence.Wanted(w, d);
    var s4 := FinishWrite(c, s, s3, d, data);
    t := TrustLoop(c, s, s4, d, data, 0);
    StripTrusts(t.store.cache);
    var table := Strip(t.store.cache);
    var added := Quiescence.NewTrusts(w, table, d);
    if Quiescence.Rooted(w, d) { RestIsNew(w, t.store.cache, d); }
    assert Abs(t).queue == s4.queue.waiting + s4.queue.dirty + added;
    if Quiescence.Unsettled(w, a, d) {
      assert s4.queue == Enqueue(s3.queue, d);
      assert s4.queue.waiting + s4.queue.dirty == s3.queue.waiting + s3.queue.dirty + {d} == a.queue;
      assert table == Quiescence.WrittenTable(w, a, d);
      assert Abs(t).queue == a.queue + {d} + added;
    } else {
      assert Abs(t).queue == a.queue - {d} + added;
    }
  }

  lemma RemovalMatches(c: Config, s: State, s3: State, d: string) returns (t: State)
    requires Reaches(c, s, s3) && SameAround(s, s3) && Calm(s3) && s3.store == s.store && d !in s.store.notify
    requires s3.queue.waiting + s3.queue.dirty == s.queue.waiting + s.queue.dirty - {d} && Queued(s.queue, d)
    requires !(d in s.zms.domains && Quiescence.Valid(AbsWorld(c, s), Strip(s.store.cache), d))
    requires s3.worker == Removing(d)
    ensures Reaches(c, s, t) && Calm(t) && t.worker.Idle? && SameAround(s, t) && t.store.notify == s.store.notify
    ensures Abs(t) == Quiescence.Process(AbsWorld(c, s), Abs(s), d)
  {
    var w, a := AbsWorld(c, s), Abs(s);
    t := FinishRemoval(c, s, s3, d);
    StripTrusts(t.store.cache);
    assert Strip(s.store.cache - {d}) == Strip(s.store.cache) - {d};
    assert Quiescence.NewTrusts(w, Strip(t.store.cache), d) == {} by {
      assert Quiescence.Rooted(w, d) ==> d !in w.zms;
    }
    if d in s.store.cache {
      assert Abs(t).queue == a.queue + {d};
    } else {
      assert s.store.cache - {d} == s.store.cache;
      assert Abs(t).queue == a.queue - {d};
    }
  }

  /** Refinement: from a state in which nothing lags, the protocol can reach, again without lag, exactly
      what a synchronous step computes. */
  lemma ProcessIsASchedule(c: Config, s: State, d: string) returns (t: State)
    requires Calm(s) && s.worker.Idle? && Queued(s.queue, d) && d !in s.store.notify
    ensures Reaches(c, s, t) && Calm(t) && t.worker.Idle? && SameAround(s, t) && t.store.notify == s.store.notify
    ensures AbsWorld(c, t) == AbsWorld(c, s)
    ensures Abs(t) == Quiescence.Process(AbsWorld(c, s), Abs(s), d)
  {
    var s1 := TakeUp(c, s, d);
    var s2 := Judge(c, s, s1, d);
    if !s2.worker.Fetching? {
      t := RemovalMatches(c, s, s2, d);
    } else {
      var reply := AWorker(Work(if d in s.zms.domains then Found else Empty, Served));
      ThenStep(c, s, s2, reply);
      var s3 := Step(c, s2, reply);
      if d in s.zms.domains { t := WriteMatches(c, s, s3, d); } else { t := RemovalMatches(c, s, s3, d); }
    }
  }
}
