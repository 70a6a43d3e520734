/** What every step of the protocol keeps about its plumbing: caches plus pending events agree with the
    server, stamps and tags stay behind the ZMS clock, versions identify contents. */
module Consistency {
  import opened Codec
  import opened Options
  import opened Resources
  import opened Protocol

  // ----- caches and watches -----

  /** The last watch event under way, or else the cache, tells whether the server has the namespace. */
  predicate NameSynced(n: Names, ns: string) {
    var e := Events(n.watch, ns);
    (if e == [] then ns in n.cache else e[|e| - 1]) <==> ns in n.server
  }

  predicate CrSynced(st: Store, d: string) {
    var e := Events(st.watch, d);
    (if e == [] then Lookup(st.cache, d) else e[|e| - 1]) == Lookup(st.server, d)
  }

  lemma NameSyncedStep(c: Config, s: State, a: Action, ns: string)
    requires Enabled(s, a) && NameSynced(s.names, ns)
    ensures NameSynced(Step(c, s, a).names, ns)
  {
    if a.AWorker? { WorkerFrame(c, s, a.w); }
  }

  /** The worker never touches ZMS, the namespaces, the cron or the start-up phase. */
  lemma WorkerFrame(c: Config, s: State, a: WorkerAction)
    requires WorkerEnabled(s, a)
    ensures var s' := WorkerStep(c, s, a);
            s'.zms == s.zms && s'.names == s.names && s'.cron == s.cron && s'.startup == s.startup
            && s'.store.cache == s.store.cache && s'.store.keys == s.store.keys && s'.store.notify == s.store.notify
  {
  }

  /** A step changes the store by a delivery, a handler call, or a server write that is also put on the
      watch. */
  ghost predicate StoreMove(c: Config, st: Store, st': Store) {
    || st' == st
    || (exists d :: DeliverMove(c, st, st', d))
    || (exists d :: d in st.notify && st' == st.(notify := st.notify - multiset{d}))
    || (exists d, cr :: PutMove(st, st', d, cr))
  }

  predicate DeliverMove(c: Config, st: Store, st': Store, d: string) {
    Events(st.watch, d) != [] && st' == DeliverCr(st, c.retainKeys, d)
  }

  /** Another content for d, of a version not used before, or its removal. */
  predicate PutMove(st: Store, st': Store, d: string, cr: Option<CR>) {
    && (cr.Some? ==> cr.value.version == st.next)
    && st' == Put(st, d, if cr.Some? then st.server[d := cr.value] else st.server - {d})
  }

  lemma WorkerStoreMove(c: Config, s: State, a: WorkerAction)
    requires WorkerEnabled(s, a)
    ensures StoreMove(c, s.store, WorkerStep(c, s, a).store)
  {
    var st' := WorkerStep(c, s, a).store;
    if st' != s.store {
      var d := s.worker.d;
      if s.worker.Deleting? {
        assert PutMove(s.store, st', d, None);
      } else {
        assert PutMove(s.store, st', d, Some(CR(s.worker.data, "", s.store.next)));
      }
    }
  }

  lemma StepStoreMove(c: Config, s: State, a: Action)
    requires Enabled(s, a)
    ensures StoreMove(c, s.store, Step(c, s, a).store)
  {
    var st' := Step(c, s, a).store;
    match a
    case AWorker(w) => WorkerStoreMove(c, s, w);
    case AOutside(o) => if o.CrEdit? { assert PutMove(s.store, st', o.d, o.cr); }
    case AInner(i) => if i.CrDeliver? { assert DeliverMove(c, s.store, st', i.d); }
    case ACron(_) =>
  }

  lemma CrSyncedDelivery(st: Store, retain: bool, x: string, d: string)
    requires Events(st.watch, x) != [] && CrSynced(st, d)
    ensures CrSynced(DeliverCr(st, retain, x), d)
  {
    var st' := DeliverCr(st, retain, x);
    if x == d {
      assert Events(st'.watch, d) == Events(st.watch, d)[1..];
    } else {
      assert Events(st'.watch, d) == Events(st.watch, d);
      assert Lookup(st'.cache, d) == Lookup(st.cache, d);
    }
  }

  lemma CrSyncedPut(st: Store, st': Store, x: string, cr: Option<CR>, d: string)
    requires PutMove(st, st', x, cr) && CrSynced(st, d)
    ensures CrSynced(st', d)
  {
    if x != d { assert Events(st'.watch, d) == Events(st.watch, d); }
  }

  lemma CrSyncedMove(c: Config, st: Store, st': Store, d: string)
    requires StoreMove(c, st, st') && CrSynced(st, d)
    ensures CrSynced(st', d)
  {
    if x :| DeliverMove(c, st, st', x) {
      CrSyncedDelivery(st, c.retainKeys, x, d);
    } else if x, cr :| PutMove(st, st', x, cr) {
      CrSyncedPut(st, st', x, cr, d);
    }
  }

  // ----- the clock -----

  predicate Dated(cr: Option<CR>, clock: nat) { cr.Some? ==> cr.value.spec.domain.modified <= clock }

  /** Before the cursor is set, no cached resource is stamped later than ZMS's clock. */
  ghost predicate StoreDated(s: State) {
    s.startup.BeforeEtag? ==>
      && (forall d :: d in s.store.cache ==> s.store.cache[d].spec.domain.modified <= s.zms.clock)
      && (forall d, cr :: cr in Events(s.store.watch, d) ==> Dated(cr, s.zms.clock))
  }

  predicate TagsDated(s: State) {
    && (s.cron.etag.Some? ==> s.cron.etag.value <= s.zms.clock)
    && (s.cron.pc.Walking? && s.cron.pc.tag.Some? ==> s.cron.pc.tag.value <= s.zms.clock)
  }

  /** Before the worker starts it is idle, and before the cursor is set the cron rests. */
  predicate StartupOrder(s: State) {
    && (!s.startup.Up? ==> s.worker.Idle?)
    && (s.startup.BeforeEtag? ==> s.cron == Cron(None, Resting))
    && (s.cron.pc.Walking? && s.cron.pc.checking ==> s.cron.pc.rem != [])
  }

  lemma DatedDelivery(st: Store, retain: bool, x: string, clock: nat)
    requires Events(st.watch, x) != []
    requires forall d :: d in st.cache ==> st.cache[d].spec.domain.modified <= clock
    requires forall d, cr :: cr in Events(st.watch, d) ==> Dated(cr, clock)
    ensures var st' := DeliverCr(st, retain, x);
            && (forall d :: d in st'.cache ==> st'.cache[d].spec.domain.modified <= clock)
            && (forall d, cr :: cr in Events(st'.watch, d) ==> Dated(cr, clock))
  {
    var st' := DeliverCr(st, retain, x);
    var e := Events(st.watch, x);
    assert e[0] in e && Dated(e[0], clock);
    forall d, cr | cr in Events(st'.watch, d) ensures Dated(cr, clock) {
      assert cr in Events(st.watch, d) by {
        assert Events(st'.watch, d) == if d == x then e[1..] else Events(st.watch, d);
      }
    }
  }

  lemma DatedEdit(st: Store, st': Store, x: string, edit: Option<CR>, clock: nat)
    requires PutMove(st, st', x, edit) && Dated(edit, clock)
    requires forall d, cr :: cr in Events(st.watch, d) ==> Dated(cr, clock)
    ensures forall d, cr :: cr in Events(st'.watch, d) ==> Dated(cr, clock)
  {
    forall d, cr | cr in Events(st'.watch, d) ensures Dated(cr, clock) {
      if d == x {
        assert Events(st'.watch, d) == Events(st.watch, d) + [edit];
      } else {
        assert Events(st'.watch, d) == Events(st.watch, d);
      }
    }
  }

  lemma ClockStep(c: Config, s: State, a: Action)
    requires Enabled(s, a) && StoreDated(s) && TagsDated(s) && StartupOrder(s)
    ensures var s' := Step(c, s, a); StoreDated(s') && TagsDated(s') && StartupOrder(s')
  {
    var s' := Step(c, s, a);
    match a
    case AWorker(w) => WorkerFrame(c, s, w);
    case AOutside(o) =>
      if s.startup.BeforeEtag? {
        if o.CrEdit? {
          DatedEdit(s.store, s'.store, o.d, o.cr, s.zms.clock);
        } else {
          forall d, cr | cr in Events(s.store.watch, d) ensures Dated(cr, s'.zms.clock) {
            assert Dated(cr, s.zms.clock);
          }
        }
      }
    case AInner(i) =>
      if i.CrDeliver? && s.startup.BeforeEtag? { DatedDelivery(s.store, c.retainKeys, i.d, s.zms.clock); }
    case ACron(_) =>
  }

  // ----- what the worker holds -----

  /** The copy the worker compares with is the cached one, unless an event about the domain is due or
      has queued it again. */
  predicate WriterInformed(s: State) {
    s.worker.Writing? ==>
      var d := s.worker.d;
      s.worker.seen == Lookup(s.store.cache, d) || d in s.store.notify || Queued(s.queue, d)
  }

  lemma {:induction false} EnqueueAllKeeps(q: Queue, ds: seq<string>, d: string)
    ensures Queued(EnqueueAll(q, ds), d) <==> Queued(q, d) || d in ds
    ensures d in EnqueueAll(q, ds).dropped ==> d in q.dropped
    ensures d in q.dropped && d !in ds ==> d in EnqueueAll(q, ds).dropped
  {
    if ds != [] {
      EnqueueAllKeeps(q, ds[..|ds| - 1], d);
      assert d in ds <==> d in ds[..|ds| - 1] || d == ds[|ds| - 1];
    }
  }

  lemma WriterInformedStep(c: Config, s: State, a: Action)
    requires Enabled(s, a) && WriterInformed(s)
    ensures WriterInformed(Step(c, s, a))
  {
    if a.AWorker? {
      WorkerFrame(c, s, a.w);
    } else if s.worker.Writing? && a.AInner? {
      WriterInformedInner(c, s, a.i);
    }
  }

  lemma WriterInformedInner(c: Config, s: State, a: Inner)
    requires InnerEnabled(s, a) && WriterInformed(s) && s.worker.Writing?
    ensures WriterInformed(InnerStep(c, s, a))
  {
    EnqueueAllKeeps(s.queue, AdminSystemDomains(c.util), s.worker.d);
  }

  // ----- the trust index -----

  predicate IndexCovers(st: Store) { AllTrusts(st.cache) <= st.keys }

  lemma IndexStep(c: Config, s: State, a: Action)
    requires Enabled(s, a) && IndexCovers(s.store)
    ensures var st' := Step(c, s, a).store; IndexCovers(st') && (c.retainKeys ==> s.store.keys <= st'.keys)
  {
    if a.AWorker? { WorkerFrame(c, s, a.w); }
  }

  // ----- versions -----

  /** Somebody holds this resource for d: the cache, a watch event, or the worker. */
  predicate Holds(s: State, d: string, cr: CR) {
    || Lookup(s.store.cache, d) == Some(cr)
    || Some(cr) in Events(s.store.watch, d)
    || (s.worker.Writing? && s.worker.d == d && s.worker.seen == Some(cr))
  }

  /** A version the server holds identifies the resource everywhere. */
  ghost predicate VersionsIdentify(s: State, d: string) {
    && (d in s.store.server ==> s.store.server[d].version < s.store.next)
    && forall cr :: Holds(s, d, cr) ==>
         cr.version < s.store.next
         && (d in s.store.server && s.store.server[d].version == cr.version ==> cr == s.store.server[d])
  }

  lemma VersionsStep(c: Config, s: State, a: Action, d: string)
    requires Enabled(s, a) && VersionsIdentify(s, d)
    ensures VersionsIdentify(Step(c, s, a), d)
  {
    var s' := Step(c, s, a);
    StepStoreMove(c, s, a);
    forall cr | Holds(s', d, cr)
      ensures cr.version < s'.store.next
      ensures d in s'.store.server && s'.store.server[d].version == cr.version ==> cr == s'.store.server[d]
    {
      VersionHeld(c, s, a, d, cr);
    }
  }

  lemma VersionHeld(c: Config, s: State, a: Action, d: string, cr: CR)
    requires Enabled(s, a) && VersionsIdentify(s, d) && Holds(Step(c, s, a), d, cr)
    ensures Holds(s, d, cr) || (cr.version == s.store.next && Lookup(Step(c, s, a).store.server, d) == Some(cr))
  {
  }

  /** What every reachable state has. */
  ghost predicate Consistent(s: State) {
    && (forall ns :: NameSynced(s.names, ns))
    && (forall d :: CrSynced(s.store, d))
    && (forall d :: VersionsIdentify(s, d))
    && StoreDated(s) && TagsDated(s) && StartupOrder(s)
    && WriterInformed(s) && IndexCovers(s.store)
  }

  lemma InitConsistent(s: State)
    requires Init(s)
    ensures Consistent(s)
  {
  }

  lemma ConsistentStep(c: Config, s: State, a: Action)
    requires Enabled(s, a) && Consistent(s)
    ensures Consistent(Step(c, s, a))
  {
    var s' := Step(c, s, a);
    forall ns ensures NameSynced(s'.names, ns) { NameSyncedStep(c, s, a, ns); }
    StepStoreMove(c, s, a);
    forall d ensures CrSynced(s'.store, d) { CrSyncedMove(c, s.store, s'.store, d); }
    forall d ensures VersionsIdentify(s', d) { VersionsStep(c, s, a, d); }
    ClockStep(c, s, a);
    WriterInformedStep(c, s, a);
    IndexStep(c, s, a);
  }

  lemma {:induction false} RunConsistent(c: Config, states: seq<State>, actions: seq<Action>, i: nat)
    requires Run(c, states, actions) && i < |states|
    ensures Consistent(states[i])
  {
    if i == 0 {
      InitConsistent(states[0]);
    } else {
      RunConsistent(c, states, actions, i - 1);
      ConsistentStep(c, states[i - 1], actions[i - 1]);
    }
  }

  // ----- the write requests -----

  /** In every reachable state an accepted update replaces exactly the resource its comparison saw, and
      an accepted creation replaces nothing: no content the cache had not shown is overwritten. */
  lemma NoBlindOverwrite(c: Config, states: seq<State>, actions: seq<Action>, i: nat)
    requires Run(c, states, actions) && i < |actions|
    requires actions[i].AWorker? && states[i].worker.Writing?
    requires states[i + 1].store.server != states[i].store.server
    ensures Lookup(states[i].store.server, states[i].worker.d) == states[i].worker.seen
    ensures states[i].worker.seen.Some? ==> !UpToDate(states[i].worker.seen.value, states[i].worker.data)
  {
    RunConsistent(c, states, actions, i);
    var s := states[i];
    assert VersionsIdentify(s, s.worker.d);
    if s.worker.seen.Some? { assert Holds(s, s.worker.d, s.worker.seen.value); }
  }
}
