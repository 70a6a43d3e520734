/** The synchronisation protocol as a step system in which everything lags: ZMS changes under the
    syncer, API writes reach the informer caches later, handlers run after that, and between any two
    shared accesses of sync, of the update cron or of a handler anything else may happen.
    Sources: pkg/controller/controller.go, pkg/cron/cron.go, pkg/cr/cr.go. */
module Protocol {
  import opened Codec
  import opened Options
  import opened Resources

  /** `retainKeys`: whether the trust index keeps the keys of an index entry that became empty. */
  datatype Config = Config(util: Util, retainKeys: bool)

  // ----- the state -----

  /** ZMS: its domains and the latest modification stamp it has given. */
  datatype Zms = Zms(domains: map<string, SignedDomain>, clock: nat)

  /** Namespaces: the API server's, the informer's cache, the watch events on their way (present or
      gone), and the handler calls due. */
  datatype Names = Names(server: set<string>, cache: set<string>, watch: map<string, seq<bool>>,
                         notify: multiset<string>)

  /** AthenzDomains likewise, with the trust index's keys and the server's next resource version. */
  datatype Store = Store(
    server: map<string, CR>, next: nat, cache: map<string, CR>, keys: set<string>,
    watch: map<string, seq<Option<CR>>>, notify: multiset<string>)

  /** The rate-limited queue: domains waiting out their delay, domains ready, the requeue counters, and
      the domains given up since they were last enqueued. */
  datatype Queue = Queue(waiting: set<string>, dirty: set<string>, requeues: map<string, nat>, dropped: set<string>)

  /** requestCall: walking the returned names `rem`, then adopting `tag`. `checking` is set between the
      two lookups of ValidateDomain for the first name. */
  datatype CronPc = Resting | Walking(rem: seq<string>, tag: Option<nat>, checking: bool)
  datatype Cron = Cron(etag: Option<nat>, pc: CronPc)

  /** Run, up to its worker. */
  datatype Startup = BeforeEtag | BeforeAdmin | Up

  /** processNextItem and sync, by the next shared access. */
  datatype Worker =
    | Idle
    | Started(d: string)                            // namespace lookup of ValidateDomain
    | NotNamespace(d: string)                       // index lookup of ValidateDomain
    | Fetching(d: string)                           // the ZMS call
    | Removing(d: string)                           // cache lookup of RemoveAthenzDomain
    | Deleting(d: string)                           // the delete request
    | ErrorLookup(d: string)                        // cache lookup after a ZMS error other than 404
    | Fetched(d: string, data: SignedDomain)        // cache lookup of CreateUpdateAthenzDomain
    | Writing(d: string, data: SignedDomain, seen: Option<CR>)
    | Trusting(d: string, data: SignedDomain, handled: nat)     // cache lookup of the next role's trust
    | TrustParent(d: string, data: SignedDomain, handled: nat)  // namespace lookup of the domain itself
    | Finishing(d: string, failed: bool)
    | Crashed(d: string)

  datatype State = State(zms: Zms, names: Names, store: Store, queue: Queue, cron: Cron, startup: Startup,
                         worker: Worker)

  // ----- the queue -----

  const WORKER_QUEUE_RETRY: nat := 3

  function Requeues(q: Queue, d: string): nat { if d in q.requeues then q.requeues[d] else 0 }

  /** AddRateLimited. */
  function Enqueue(q: Queue, d: string): Queue {
    Queue(q.waiting + {d}, q.dirty, q.requeues[d := Requeues(q, d) + 1], q.dropped - {d})
  }

  function EnqueueAll(q: Queue, ds: seq<string>): Queue {
    if ds == [] then q else Enqueue(EnqueueAll(q, ds[..|ds| - 1]), ds[|ds| - 1])
  }

  /** The end of processNextItem. */
  function Settle(q: Queue, d: string, failed: bool): Queue {
    if !failed then q
    else if Requeues(q, d) < WORKER_QUEUE_RETRY then Enqueue(q, d)
    else q.(requeues := q.requeues - {d}, dropped := q.dropped + {d})
  }

  predicate Queued(q: Queue, d: string) { d in q.waiting || d in q.dirty }

  // ----- informers -----

  function Events<T>(watch: map<string, seq<T>>, k: string): seq<T> { if k in watch then watch[k] else [] }

  function ChangeName(n: Names, ns: string, present: bool): Names {
    n.(server := if present then n.server + {ns} else n.server - {ns},
       watch := n.watch[ns := Events(n.watch, ns) + [present]])
  }

  function DeliverName(n: Names, ns: string): Names
    requires Events(n.watch, ns) != []
  {
    var e := n.watch[ns];
    n.(cache := if e[0] then n.cache + {ns} else n.cache - {ns},
       watch := n.watch[ns := e[1..]], notify := n.notify + multiset{ns})
  }

  function AllTrusts(cache: map<string, CR>): set<string> {
    set d, t | d in cache && t in Trusts(cache[d].spec) :: t
  }

  /** The server's table becomes `server`, of which only d's entry is new. */
  function Put(st: Store, d: string, server: map<string, CR>): Store {
    st.(server := server, next := st.next + 1, watch := st.watch[d := Events(st.watch, d) + [Lookup(server, d)]])
  }

  function DeliverCr(st: Store, retain: bool, d: string): Store
    requires Events(st.watch, d) != []
  {
    var e := st.watch[d];
    var cache := if e[0].Some? then st.cache[d := e[0].value] else st.cache - {d};
    st.(cache := cache, keys := (if retain then st.keys else {}) + AllTrusts(cache),
        watch := st.watch[d := e[1..]], notify := st.notify + multiset{d})
  }

  predicate NsPending(n: Names, ns: string) { Events(n.watch, ns) != [] || ns in n.notify }

  predicate CrPending(st: Store, d: string) { Events(st.watch, d) != [] || d in st.notify }

  // ----- ZMS, the namespaces and other writers -----

  /** Other writers of resources put in no modification stamp that ZMS has yet to reach. */
  datatype Outside =
    | ZmsPut(d: string, data: SignedDomain)
    | ZmsDelete(d: string)
    | NsChange(ns: string, present: bool)
    | CrEdit(d: string, cr: Option<CR>)

  predicate OutsideEnabled(s: State, a: Outside) {
    match a
    case ZmsPut(d, data) => data.domain.name == d && data.domain.modified > s.zms.clock
    case ZmsDelete(d) => true
    case NsChange(_, _) => true
    case CrEdit(d, cr) =>
      cr.Some? ==> cr.value.version == s.store.next && cr.value.spec.domain.modified <= s.zms.clock
  }

  function OutsideStep(s: State, a: Outside): State
    requires OutsideEnabled(s, a)
  {
    match a
    case ZmsPut(d, data) => s.(zms := Zms(s.zms.domains[d := data], data.domain.modified))
    case ZmsDelete(d) => s.(zms := s.zms.(domains := s.zms.domains - {d}))
    case NsChange(ns, present) => s.(names := ChangeName(s.names, ns, present))
    case CrEdit(d, cr) =>
      s.(store := Put(s.store, d, if cr.Some? then s.store.server[d := cr.value] else s.store.server - {d}))
  }

  // ----- deliveries, handlers and the queue's clock -----

  datatype Inner =
    | NsDeliver(ns: string)
    | NsRelist(ns: string)      // the informer's periodic resync
    | NsHandle(ns: string)
    | CrDeliver(d: string)
    | CrHandle(d: string)
    | Ready(d: string)          // a delay has run out
    | SetEtag(tag: Option<nat>)
    | AddAdminSystem
    | ResyncNamespace(ns: string)   // listed at some earlier moment, as are the domains of ResyncTrust
    | ResyncAdminSystem
    | ResyncTrust(d: string)

  predicate InnerEnabled(s: State, a: Inner) {
    && !s.worker.Crashed?
    && match a
       case NsDeliver(ns) => Events(s.names.watch, ns) != []
       case NsRelist(ns) => ns in s.names.cache
       case NsHandle(ns) => ns in s.names.notify
       case CrDeliver(d) => Events(s.store.watch, d) != []
       case CrHandle(d) => d in s.store.notify
       case Ready(d) => d in s.queue.waiting
       case SetEtag(tag) => s.startup.BeforeEtag? && LatestTimestamp(s.store.cache, tag)
       case AddAdminSystem => s.startup.BeforeAdmin?
       case ResyncNamespace(ns) => !s.startup.BeforeEtag?
       case ResyncAdminSystem => !s.startup.BeforeEtag?
       case ResyncTrust(d) => !s.startup.BeforeEtag?
  }

  /** What Resources.GetLatestTimestamp promises of the cached resources. */
  predicate LatestTimestamp(cache: map<string, CR>, tag: Option<nat>) {
    && (tag.Some? ==> exists d :: d in cache && tag.value <= cache[d].spec.domain.modified)
    && (forall d :: d in cache ==> cache[d].spec.domain.modified < (if tag.Some? then tag.value else 0) + SECOND)
  }

  function HandleName(u: Util, q: Queue, ns: string): Queue {
    if ns in u.excludeNamespaces then q else Enqueue(q, NamespaceToDomain(u, ns))
  }

  function InnerStep(c: Config, s: State, a: Inner): State
    requires InnerEnabled(s, a)
  {
    match a
    case NsDeliver(ns) => s.(names := DeliverName(s.names, ns))
    case NsRelist(ns) => s.(names := s.names.(notify := s.names.notify + multiset{ns}))
    case NsHandle(ns) =>
      s.(names := s.names.(notify := s.names.notify - multiset{ns}), queue := HandleName(c.util, s.queue, ns))
    case CrDeliver(d) => s.(store := DeliverCr(s.store, c.retainKeys, d))
    case CrHandle(d) =>
      s.(store := s.store.(notify := s.store.notify - multiset{d}), queue := Enqueue(s.queue, d))
    case Ready(d) => s.(queue := s.queue.(waiting := s.queue.waiting - {d}, dirty := s.queue.dirty + {d}))
    case SetEtag(tag) => s.(cron := s.cron.(etag := tag), startup := BeforeAdmin)
    case AddAdminSystem => s.(queue := EnqueueAll(s.queue, AdminSystemDomains(c.util)), startup := Up)
    case ResyncNamespace(ns) => s.(queue := HandleName(c.util, s.queue, ns))
    case ResyncAdminSystem => s.(queue := EnqueueAll(s.queue, AdminSystemDomains(c.util)))
    case ResyncTrust(d) => s.(queue := Enqueue(s.queue, d))
  }

  // ----- the update cron -----

  datatype CronAction = Request(names: seq<string>, tag: Option<nat>) | Visit | Adopt

  predicate Newer(modified: nat, tag: Option<nat>) { tag.Some? ==> modified > tag.value }

  /** ZMS names every domain modified after the tag it was sent, and hands out no tag from the future. */
  predicate CronEnabled(s: State, a: CronAction) {
    && !s.worker.Crashed? && !s.startup.BeforeEtag?
    && match a
       case Request(names, tag) =>
         && s.cron.pc.Resting?
         && (forall d :: d in s.zms.domains && Newer(s.zms.domains[d].domain.modified, s.cron.etag) ==> d in names)
         && (tag.Some? ==> tag.value <= s.zms.clock)
       case Visit => s.cron.pc.Walking? && s.cron.pc.rem != []
       case Adopt => s.cron.pc.Walking? && s.cron.pc.rem == []
  }

  /** The first lookup of ValidateDomain, with the admin test. */
  predicate IsNamespaceOrAdmin(u: Util, cache: set<string>, d: string) {
    DomainToNamespace(u, d) in cache || IsAdminDomain(u, d)
  }

  /** IsTrustDomain: some cached resource has a role trusting d. */
  predicate IsTrustDomain(cache: map<string, CR>, d: string) { d in AllTrusts(cache) }

  lemma TrustDomainMeans(cache: map<string, CR>, d: string)
    ensures IsTrustDomain(cache, d)
            <==> (d != "" && exists p, r :: p in cache && r in cache[p].spec.domain.roles && r.trust == d)
  {
    if p, r :| d != "" && p in cache && r in cache[p].spec.domain.roles && r.trust == d {
      assert d in Trusts(cache[p].spec);
    }
  }

  function CronStep(c: Config, s: State, a: CronAction): State
    requires CronEnabled(s, a)
  {
    match a
    case Request(names, tag) => s.(cron := s.cron.(pc := Walking(names, tag, false)))
    case Visit =>
      var pc := s.cron.pc;
      var d := pc.rem[0];
      var next := s.(cron := s.cron.(pc := Walking(pc.rem[1..], pc.tag, false)));
      if !pc.checking then
        if IsNamespaceOrAdmin(c.util, s.names.cache, d) then next.(queue := Enqueue(s.queue, d))
        else s.(cron := s.cron.(pc := pc.(checking := true)))
      else if IsTrustDomain(s.store.cache, d) then next.(queue := Enqueue(s.queue, d))
      else next
    case Adopt => s.(cron := Cron(if s.cron.pc.tag.Some? then s.cron.pc.tag else s.cron.etag, Resting))
  }

  // ----- the worker -----

  /** What the ZMS call brings: the domain, an empty list, a 404, another resource error, or a failure
      that is no resource error. */
  datatype ZmsReply = Found | Empty | NotFound | ResourceError | OtherError

  datatype WorkerAction = Get(d: string) | Work(zms: ZmsReply, api: ApiReply)

  predicate WorkerEnabled(s: State, a: WorkerAction) {
    && s.startup.Up? && !s.worker.Crashed?
    && match a
       case Get(d) => s.worker.Idle? && d in s.queue.dirty
       case Work(zms, _) =>
         && !s.worker.Idle?
         && (s.worker.Fetching? ==> (zms.Found? ==> s.worker.d in s.zms.domains)
                                    && (zms.Empty? || zms.NotFound? ==> s.worker.d !in s.zms.domains))
  }

  function WorkerStep(c: Config, s: State, a: WorkerAction): State
    requires WorkerEnabled(s, a)
  {
    match a
    case Get(d) => s.(queue := s.queue.(dirty := s.queue.dirty - {d}), worker := Started(d))
    case Work(zms, api) =>
      match s.worker
      case Started(d) =>
        s.(worker := if IsNamespaceOrAdmin(c.util, s.names.cache, d) then Fetching(d) else NotNamespace(d))
      case NotNamespace(d) => s.(worker := if IsTrustDomain(s.store.cache, d) then Fetching(d) else Removing(d))
      case Fetching(d) =>
        (match zms
         case Found => s.(worker := Fetched(d, Filter(c.util, s.zms.domains[d])))
         case Empty => s.(worker := Removing(d))
         case NotFound => s.(worker := Removing(d))
         case ResourceError => s.(worker := ErrorLookup(d))
         case OtherError => s.(worker := Finishing(d, true)))
      case ErrorLookup(d) =>
        // the shadowed error is nil: with a cached resource its message is asked for, without one it is returned
        s.(queue := s.queue.(dropped := s.queue.dropped + {d}),
           worker := if d in s.store.cache then Crashed(d) else Finishing(d, false))
      case Removing(d) => s.(worker := if d in s.store.cache then Deleting(d) else Finishing(d, false))
      case Deleting(d) =>
        if api.Refused? || d !in s.store.server then s.(worker := Finishing(d, true))
        else s.(store := Put(s.store, d, s.store.server - {d}), worker := Finishing(d, !api.Served?))
      case Fetched(d, data) => s.(worker := Writing(d, data, Lookup(s.store.cache, d)))
      case Writing(d, data, seen) =>
        var (server, result) := Upsert(s.store.server, s.store.next, d, seen, data, api);
        var refused := result.Skipped? || api.Refused? || !Accepts(s.store.server, d, seen);
        s.(store := if refused then s.store else Put(s.store, d, server),
           worker := if result.Failed? then Finishing(d, true) else Trusting(d, data, 0))
      case Trusting(d, data, handled) =>
        if handled >= |data.domain.roles| then s.(worker := Finishing(d, false))
        else
          var t := data.domain.roles[handled].trust;
          s.(worker := if t != "" && t != d && t !in s.store.cache then TrustParent(d, data, handled)
                       else Trusting(d, data, handled + 1))
      case TrustParent(d, data, handled) =>
        if handled >= |data.domain.roles| then s.(worker := Finishing(d, false))
        else
          s.(queue := if IsNamespaceOrAdmin(c.util, s.names.cache, d)
                      then Enqueue(s.queue, data.domain.roles[handled].trust) else s.queue,
             worker := Trusting(d, data, handled + 1))
      case Finishing(d, failed) => s.(queue := Settle(s.queue, d, failed), worker := Idle)
      case Crashed(d) => s
  }

  /** How far sync is from its end. */
  function Stage(w: Worker): nat {
    match w
    case Started(_) => 8
    case NotNamespace(_) => 7
    case Fetching(_) => 6
    case Fetched(_, _) => 5
    case Writing(_, _, _) => 4
    case Removing(_) => 3
    case Deleting(_) => 2
    case ErrorLookup(_) => 2
    case Trusting(_, _, _) => 1
    case TrustParent(_, _, _) => 1
    case _ => 0
  }

  function RolesLeft(w: Worker): nat {
    match w
    case Trusting(_, data, handled) =>
      if handled < |data.domain.roles| then 2 * (|data.domain.roles| - handled) + 1 else 1
    case TrustParent(_, data, handled) =>
      if handled < |data.domain.roles| then 2 * (|data.domain.roles| - handled) else 0
    case _ => 0
  }

  /** The reply is one that ZMS can give for the worker's domain. */
  predicate Answerable(s: State, zms: ZmsReply) {
    s.startup.Up? && Stage(s.worker) > 0 ==>
      (zms.Found? ==> s.worker.d in s.zms.domains) && (zms.Empty? || zms.NotFound? ==> s.worker.d !in s.zms.domains)
  }

  /** sync to its end when nothing interferes: every access answered by the same replies. */
  function FinishSync(c: Config, s: State, zms: ZmsReply, api: ApiReply): (t: State)
    requires s.startup.Up? && Answerable(s, zms)
    ensures Stage(t.worker) == 0 && t.startup.Up? && (t.worker.Idle? <==> s.worker.Idle?)
    decreases Stage(s.worker), RolesLeft(s.worker)
  {
    if Stage(s.worker) == 0 then s else FinishSync(c, WorkerStep(c, s, Work(zms, api)), zms, api)
  }

  // ----- the exclusion list -----

  /** An excluded namespace's own events and its place in a resync queue nothing; but its domain is valid
      while the namespace is cached, so the update cron queues it, and sync fetches it. */
  lemma ExclusionStopsAtTheHandlers(c: Config, s: State, ns: string, d: string)
    requires ns in c.util.excludeNamespaces && ns in s.names.cache && DomainToNamespace(c.util, d) == ns
    ensures forall a :: InnerEnabled(s, a) && (a == NsHandle(ns) || a == ResyncNamespace(ns)) ==>
            InnerStep(c, s, a).queue == s.queue
    ensures CronEnabled(s, Visit) && !s.cron.pc.checking && s.cron.pc.rem[0] == d ==>
            d in CronStep(c, s, Visit).queue.waiting
    ensures forall zms, api :: WorkerEnabled(s, Work(zms, api)) && s.worker == Started(d) ==>
              WorkerStep(c, s, Work(zms, api)).worker == Fetching(d)
  {
  }

  // ----- runs -----

  datatype Action = AOutside(o: Outside) | AInner(i: Inner) | ACron(cr: CronAction) | AWorker(w: WorkerAction)

  predicate Enabled(s: State, a: Action) {
    match a
    case AOutside(o) => OutsideEnabled(s, o)
    case AInner(i) => InnerEnabled(s, i)
    case ACron(k) => CronEnabled(s, k)
    case AWorker(w) => WorkerEnabled(s, w)
  }

  function Step(c: Config, s: State, a: Action): State
    requires Enabled(s, a)
  {
    match a
    case AOutside(o) => OutsideStep(s, o)
    case AInner(i) => InnerStep(c, s, i)
    case ACron(k) => CronStep(c, s, k)
    case AWorker(w) => WorkerStep(c, s, w)
  }

  /** A process start after the caches have synced: whatever resources and namespaces exist are cached,
      and their first events still wait for the handlers. */
  ghost predicate Init(s: State) {
    && s.names.cache == s.names.server && s.names.watch == map[]
    && (forall ns :: ns in s.names.cache ==> ns in s.names.notify)
    && s.store.cache == s.store.server && s.store.watch == map[]
    && (forall d :: d in s.store.cache ==> d in s.store.notify)
    && (forall d :: d in s.store.server ==>
          s.store.server[d].version < s.store.next && s.store.server[d].spec.domain.modified <= s.zms.clock)
    && s.store.keys == AllTrusts(s.store.cache)
    && (forall d :: d in s.zms.domains ==> s.zms.domains[d].domain.modified <= s.zms.clock)
    && s.queue == Queue({}, {}, map[], {})
    && s.cron == Cron(None, Resting) && s.startup == BeforeEtag && s.worker == Idle
  }

  /** The states of a run: consecutive ones are linked by an enabled step. */
  ghost predicate Run(c: Config, states: seq<State>, actions: seq<Action>) {
    && |states| == |actions| + 1 && Init(states[0])
    && forall i :: 0 <= i < |actions| ==>
         Enabled(states[i], actions[i]) && states[i + 1] == Step(c, states[i], actions[i])
  }
}
