/** The controller object: pkg/controller/controller.go, pkg/cron/cron.go and pkg/cr/cr.go as written,
    with loops and early returns, each method proved to do what a schedule of the lagging protocol does. What
    ZMS and the API server answer are parameters; the ghost parameter `z` is ZMS itself. */
module ControllerObject {
  import opened Codec
  import opened Options
  import opened Resources
  import opened Consistency
  import opened Protocol
  import opened Refinement

  /** The result of GetSignedDomains for one name. */
  datatype ZmsAnswer = Domains(domains: seq<SignedDomain>) | Code404 | OtherCode | NotAResourceError

  /** ZMS answers with the named domain or an empty list, and with a 404 only for what it lacks. */
  predicate Truthful(z: Zms, d: string, a: ZmsAnswer) {
    match a
    case Domains(ds) => ds == if d in z.domains then [z.domains[d]] else []
    case Code404 => d !in z.domains
    case _ => true
  }

  function Reply(a: ZmsAnswer): ZmsReply {
    match a
    case Domains(ds) => if ds == [] then Empty else Found
    case Code404 => NotFound
    case OtherCode => ResourceError
    case NotAResourceError => OtherError
  }

  datatype SyncResult = Synced | Error | Panic

  /** Where the worker stands after sync. */
  function AfterSync(d: string, r: SyncResult): Worker {
    match r
    case Synced => Finishing(d, false)
    case Error => Finishing(d, true)
    case Panic => Crashed(d)
  }

  class Controller {
    const c: Config
    var names: Names
    var store: Store
    var queue: Queue
    var cron: Cron

    /** The protocol's view of the running controller. */
    ghost function View(z: Zms, w: Worker): State
      reads this
    {
      State(z, names, store, queue, cron, Up, w)
    }

    constructor (config: Config, names: Names, store: Store)
      ensures c == config && this.names == names && this.store == store
      ensures queue == Queue({}, {}, map[], {}) && cron == Cron(None, Resting)
    {
      c, this.names, this.store := config, names, store;
      queue, cron := Queue({}, {}, map[], {}), Cron(None, Resting);
    }

    // ----- the queue and the handlers -----

    method AddRateLimited(d: string)
      modifies `queue
      ensures queue == Enqueue(old(queue), d)
      ensures d in queue.waiting && d !in queue.dropped
      ensures d in queue.requeues
              && queue.requeues[d] == (if old(d in queue.requeues) then old(queue.requeues[d]) else 0) + 1
      ensures queue.dirty == old(queue.dirty)
      ensures forall x :: x != d ==>
                && (x in queue.waiting <==> x in old(queue.waiting))
                && (x in queue.dropped <==> x in old(queue.dropped))
                && (x in queue.requeues <==> x in old(queue.requeues))
                && (x in queue.requeues ==> queue.requeues[x] == old(queue.requeues)[x])
    {
      var n := if d in queue.requeues then queue.requeues[d] else 0;
      queue := queue.(waiting := queue.waiting + {d}, requeues := queue.requeues[d := n + 1],
        dropped := queue.dropped - {d});
    }

    /** nsinformerhandler. */
    method HandleNamespace(ns: string, ghost z: Zms, ghost w: Worker)
      requires ns in names.notify && !w.Crashed?
      modifies `queue, `names
      ensures View(z, w) == InnerStep(c, old(View(z, w)), NsHandle(ns))
      ensures queue == if ns in c.util.excludeNamespaces then old(queue)
                       else Enqueue(old(queue), NamespaceToDomain(c.util, ns))
    {
      names := names.(notify := names.notify - multiset{ns});
      if ns in c.util.excludeNamespaces { return; }
      AddRateLimited(NamespaceToDomain(c.util, ns));
    }

    /** crinformerhandler. */
    method HandleDomain(d: string, ghost z: Zms, ghost w: Worker)
      requires d in store.notify && !w.Crashed?
      modifies `queue, `store
      ensures View(z, w) == InnerStep(c, old(View(z, w)), CrHandle(d))
      ensures queue == Enqueue(old(queue), d)
    {
      store := store.(notify := store.notify - multiset{d});
      AddRateLimited(d);
    }

    // ----- validation -----

    method ValidateDomain(d: string) returns (valid: bool)
      ensures valid <==> IsNamespaceOrAdmin(c.util, names.cache, d) || IsTrustDomain(store.cache, d)
      ensures valid <==> (DomainToNamespace(c.util, d) in names.cache || d == c.util.adminDomain
                          || (d != "" && exists p, r ::
                                p in store.cache && r in store.cache[p].spec.domain.roles && r.trust == d))
    {
      var known := DomainToNamespace(c.util, d) in names.cache;
      TrustDomainMeans(store.cache, d);
      return known || IsAdminDomain(c.util, d) || IsTrustDomain(store.cache, d);
    }

    // ----- writes -----

    /** updateCR on the cached object, None standing for a nil one. */
    method UpdateCR(d: string, existing: Option<CR>, data: SignedDomain, api: ApiReply) returns (r: WriteResult)
      modifies `store
      ensures existing.None? ==> r.Failed? && store == old(store)
      ensures existing.Some? ==>
                var (server, result) := Upsert(old(store.server), old(store.next), d, existing, data, api);
                && r == result
                && store == (if api.Refused? || result.Skipped? || !Accepts(old(store.server), d, existing)
                             then old(store)
                             else Put(old(store), d, server))
      ensures existing.Some? ==>
                (!r.Failed? <==> UpToDate(existing.value, data)
                                 || (api.Served? && d in old(store.server)
                                     && old(store.server)[d].version == existing.value.version))
      ensures r.Skipped? <==> existing.Some? && UpToDate(existing.value, data)
    {
      if existing.None? { return Failed; }
      if UpToDate(existing.value, data) { return Skipped; }
      if api.Refused? || d !in store.server || store.server[d].version != existing.value.version { return Failed; }
      store := Put(store, d, store.server[d := CR(data, "", store.next)]);
      return if api.Served? then Wrote else Failed;
    }

    method CreateUpdateAthenzDomain(d: string, data: SignedDomain, reply: ZmsReply, api: ApiReply, ghost z: Zms)
      returns (ok: bool)
      requires Answerable(View(z, Fetched(d, data)), reply)
      modifies `store
      ensures var after := View(z, if ok then Trusting(d, data, 0) else Finishing(d, true));
              FinishSync(c, old(View(z, Fetched(d, data))), reply, api) == FinishSync(c, after, reply, api)
      ensures store.cache == old(store.cache) && store.keys == old(store.keys)
      ensures var (server, r) := Upsert(old(store.server), old(store.next), d, Lookup(old(store.cache), d), data, api);
              store.server == server && (ok <==> !r.Failed?)
      ensures var current := old(d in store.cache && UpToDate(store.cache[d], data));
              var accepted := old(if d in store.cache
                                  then d in store.server && store.server[d].version == store.cache[d].version
                                  else d !in store.server);
              && (ok <==> current || (api.Served? && accepted))
              && store.server == (if !current && !api.Refused? && accepted
                                  then old(store.server)[d := CR(data, "", old(store.next))] else old(store.server))
    {
      var existing := Lookup(store.cache, d);
      assert FinishSync(c, View(z, Fetched(d, data)), reply, api)
             == FinishSync(c, View(z, Writing(d, data, existing)), reply, api);
      if existing.None? {
        if api.Refused? { return false; }
        if d !in store.server {
          store := Put(store, d, store.server[d := CR(data, "", store.next)]);
          return api.Served?;
        }
      }
      var r := UpdateCR(d, existing, data, api);
      return !r.Failed?;
    }

    method RemoveAthenzDomain(d: string, reply: ZmsReply, api: ApiReply, ghost z: Zms) returns (ok: bool)
      requires Answerable(View(z, Removing(d)), reply)
      modifies `store
      ensures View(z, Finishing(d, !ok)) == FinishSync(c, old(View(z, Removing(d))), reply, api)
      ensures if old(d in store.cache) then (store.server, ok) == Remove(old(store.server), d, api)
              else store == old(store) && ok
      ensures store.cache == old(store.cache)
      ensures ok <==> old(d !in store.cache) || (api.Served? && old(d in store.server))
      ensures store.server == if old(d in store.cache && d in store.server) && !api.Refused?
                              then old(store.server) - {d} else old(store.server)
    {
      ghost var s := View(z, Removing(d));
      if d in store.cache {
        OneAccess(c, s, reply, api);
        s := View(z, Deleting(d));
        ok := !api.Refused? && d in store.server;
        if ok {
          store := Put(store, d, store.server - {d});
          ok := api.Served?;
        }
      } else {
        ok := true;
      }
      OneAccess(c, s, reply, api);
    }

    /** The loop over the roles of a stored domain. */
    method QueueTrusts(d: string, data: SignedDomain)
      modifies `queue
      ensures queue == EnqueueAll(old(queue), NewTrusts(c.util, names.cache, store.cache, d, data.domain.roles))
      ensures forall t :: Queued(queue, t) <==>
                (Queued(old(queue), t)
                 || (t != "" && t != d && t !in store.cache
                     && (DomainToNamespace(c.util, d) in names.cache || d == c.util.adminDomain)
                     && exists r :: r in data.domain.roles && r.trust == t))
    {
      var roles := data.domain.roles;
      for i := 0 to |roles|
        invariant queue == EnqueueAll(old(queue), NewTrusts(c.util, names.cache, store.cache, d, roles[..i]))
      {
        var t := roles[i].trust;
        NewTrustsGrow(old(queue), c.util, names.cache, store.cache, d, roles, i);
        if t != "" && t != d {
          if t !in store.cache {
            if DomainToNamespace(c.util, d) in names.cache || IsAdminDomain(c.util, d) {
              AddRateLimited(t);
            }
          }
        }
      }
      assert roles[..|roles|] == roles;
      ghost var trusts := NewTrusts(c.util, names.cache, store.cache, d, roles);
      forall t ensures Queued(queue, t) <==>
          (Queued(old(queue), t)
           || (t != "" && t != d && t !in store.cache
               && (DomainToNamespace(c.util, d) in names.cache || d == c.util.adminDomain)
               && exists r :: r in roles && r.trust == t))
      {
        EnqueueAllKeeps(old(queue), trusts, t);
        NewTrustsMeans(c.util, names.cache, store.cache, d, roles, t);
      }
    }

    // ----- sync and its item -----

    /** What sync does with a domain that ZMS returned. */
    method Apply(d: string, data: SignedDomain, reply: ZmsReply, api: ApiReply, ghost z: Zms) returns (ok: bool)
      requires Answerable(View(z, Fetched(d, data)), reply)
      modifies `store, `queue
      ensures View(z, Finishing(d, !ok)) == FinishSync(c, old(View(z, Fetched(d, data))), reply, api)
      ensures store.cache == old(store.cache)
      ensures var current := old(d in store.cache && UpToDate(store.cache[d], data));
              var accepted := old(if d in store.cache
                                  then d in store.server && store.server[d].version == store.cache[d].version
                                  else d !in store.server);
              && (ok <==> current || (api.Served? && accepted))
              && store.server == (if !current && !api.Refused? && accepted
                                  then old(store.server)[d := CR(data, "", old(store.next))] else old(store.server))
              && (!ok ==> queue == old(queue))
      ensures ok ==> forall t :: Queued(queue, t) <==>
                  (Queued(old(queue), t)
                   || (t != "" && t != d && t !in store.cache
                       && (DomainToNamespace(c.util, d) in names.cache || d == c.util.adminDomain)
                       && exists r :: r in data.domain.roles && r.trust == t))
    {
      ok := CreateUpdateAthenzDomain(d, data, reply, api, z);
      if ok {
        TrustsQueued(c, View(z, Trusting(d, data, 0)), queue, d, data, 0, reply, api);
        QueueTrusts(d, data);
      }
    }

    /** What sync does with an answer from ZMS that is no error. */
    method ApplyAnswer(d: string, ds: seq<SignedDomain>, api: ApiReply, ghost z: Zms) returns (ok: bool)
      requires Truthful(z, d, Domains(ds))
      modifies `store, `queue
      ensures View(z, Finishing(d, !ok)) == FinishSync(c, old(View(z, Fetching(d))), Reply(Domains(ds)), api)
      ensures store.cache == old(store.cache)
      ensures ds == [] ==>
                && (ok <==> old(d !in store.cache) || (api.Served? && old(d in store.server)))
                && store.server == (if old(d in store.cache && d in store.server) && !api.Refused?
                                    then old(store.server) - {d} else old(store.server))
                && queue == old(queue)
      ensures ds != [] ==>
                var current := old(d in store.cache && UpToDate(store.cache[d], Filter(c.util, ds[0])));
                var accepted := old(if d in store.cache
                                    then d in store.server && store.server[d].version == store.cache[d].version
                                    else d !in store.server);
                && (ok <==> current || (api.Served? && accepted))
                && store.server == (if !current && !api.Refused? && accepted
                                    then old(store.server)[d := CR(Filter(c.util, ds[0]), "", old(store.next))]
                                    else old(store.server))
                && (!ok ==> queue == old(queue))
      ensures ds != [] && ok ==>
                forall t :: Queued(queue, t) <==>
                  (Queued(old(queue), t)
                   || (t != "" && t != d && t !in store.cache
                       && (DomainToNamespace(c.util, d) in names.cache || d == c.util.adminDomain)
                       && exists r :: r in Filter(c.util, ds[0]).domain.roles && r.trust == t))
    {
      var reply := Reply(Domains(ds));
      Answered(c, View(z, Fetching(d)), d, reply, api);
      if ds == [] {
        ok := RemoveAthenzDomain(d, reply, api, z);
      } else {
        var data := FilterMSDRules(c.util, ds[0]);
        ok := Apply(d, data, reply, api, z);
      }
    }

    /** sync of a valid domain: the ZMS call and what follows it. */
    method SyncValid(d: string, answer: ZmsAnswer, api: ApiReply, ghost z: Zms) returns (r: SyncResult)
      requires Truthful(z, d, answer)
      modifies `store, `queue
      ensures View(z, AfterSync(d, r)) == FinishSync(c, old(View(z, Fetching(d))), Reply(answer), api)
      ensures store.cache == old(store.cache)
      ensures answer == Code404 || answer == Domains([]) ==>
                && r == (if old(d !in store.cache) || (api.Served? && old(d in store.server)) then Synced else Error)
                && store.server == (if old(d in store.cache && d in store.server) && !api.Refused?
                                  then old(store.server) - {d} else old(store.server))
                && queue == old(queue)
      ensures answer.NotAResourceError? ==> r == Error && store == old(store) && queue == old(queue)
      ensures answer.OtherCode? ==>
                && r == (if d in store.cache then Panic else Synced)
                && store == old(store) && queue == old(queue).(dropped := old(queue).dropped + {d})
      ensures answer.Domains? && answer.domains != [] ==>
                !r.Panic? &&
                var current := old(d in store.cache && UpToDate(store.cache[d], Filter(c.util, answer.domains[0])));
                var accepted := old(if d in store.cache
                                    then d in store.server && store.server[d].version == store.cache[d].version
                                    else d !in store.server);
                && (r.Synced? <==> current || (api.Served? && accepted))
                && store.server == (if !current && !api.Refused? && accepted
                                    then old(store.server)[d := CR(Filter(c.util, answer.domains[0]), "",
                                                               old(store.next))]
                                    else old(store.server))
                && (r.Error? ==> queue == old(queue))
      ensures answer.Domains? && answer.domains != [] && r.Synced? ==>
                forall t :: Queued(queue, t) <==>
                  (Queued(old(queue), t)
                   || (t != "" && t != d && t !in store.cache
                       && (DomainToNamespace(c.util, d) in names.cache || d == c.util.adminDomain)
                       && exists r :: r in Filter(c.util, answer.domains[0]).domain.roles && r.trust == t))
    {
      var ok := false;
      Answered(c, View(z, Fetching(d)), d, Reply(answer), api);
      match answer {
        case NotAResourceError =>
        case OtherCode =>
          OneAccess(c, View(z, ErrorLookup(d)), Reply(answer), api);
          queue := queue.(dropped := queue.dropped + {d});
          return if d in store.cache then Panic else Synced;
        case Code404 =>
          ok := RemoveAthenzDomain(d, Reply(answer), api, z);
        case Domains(ds) =>
          ok := ApplyAnswer(d, ds, api, z);
      }
      return if ok then Synced else Error;
    }

    /** sync does exactly what the protocol's worker does when nothing interferes. */
    method Sync(d: string, answer: ZmsAnswer, api: ApiReply, ghost z: Zms) returns (r: SyncResult)
      requires Truthful(z, d, answer)
      modifies `store, `queue
      ensures View(z, AfterSync(d, r)) == FinishSync(c, old(View(z, Started(d))), Reply(answer), api)
      ensures store.cache == old(store.cache)
      ensures var valid := DomainToNamespace(c.util, d) in names.cache || d == c.util.adminDomain
                           || (d != "" && exists p, r ::
                                 p in store.cache && r in store.cache[p].spec.domain.roles && r.trust == d);
              !valid || answer == Code404 || answer == Domains([]) ==>
                && r == (if old(d !in store.cache) || (api.Served? && old(d in store.server)) then Synced else Error)
                && store.server == (if old(d in store.cache && d in store.server) && !api.Refused?
                                  then old(store.server) - {d} else old(store.server))
                && queue == old(queue)
      ensures var valid := DomainToNamespace(c.util, d) in names.cache || d == c.util.adminDomain
                           || (d != "" && exists p, r ::
                                 p in store.cache && r in store.cache[p].spec.domain.roles && r.trust == d);
              valid && answer.NotAResourceError? ==> r == Error && store == old(store) && queue == old(queue)
      ensures var valid := DomainToNamespace(c.util, d) in names.cache || d == c.util.adminDomain
                           || (d != "" && exists p, r ::
                                 p in store.cache && r in store.cache[p].spec.domain.roles && r.trust == d);
              valid && answer.OtherCode? ==>
                && r == (if d in store.cache then Panic else Synced)
                && store == old(store) && queue == old(queue).(dropped := old(queue).dropped + {d})
      ensures var valid := DomainToNamespace(c.util, d) in names.cache || d == c.util.adminDomain
                           || (d != "" && exists p, r ::
                                 p in store.cache && r in store.cache[p].spec.domain.roles && r.trust == d);
              valid && answer.Domains? && answer.domains != [] ==>
                !r.Panic? &&
                var current := old(d in store.cache && UpToDate(store.cache[d], Filter(c.util, answer.domains[0])));
                var accepted := old(if d in store.cache
                                    then d in store.server && store.server[d].version == store.cache[d].version
                                    else d !in store.server);
                && (r.Synced? <==> current || (api.Served? && accepted))
                && store.server == (if !current && !api.Refused? && accepted
                                    then old(store.server)[d := CR(Filter(c.util, answer.domains[0]), "",
                                                               old(store.next))]
                                    else old(store.server))
                && (r.Error? ==> queue == old(queue))
      ensures var valid := DomainToNamespace(c.util, d) in names.cache || d == c.util.adminDomain
                           || (d != "" && exists p, r ::
                                 p in store.cache && r in store.cache[p].spec.domain.roles && r.trust == d);
              valid && answer.Domains? && answer.domains != [] && r.Synced? ==>
                forall t :: Queued(queue, t) <==>
                  (Queued(old(queue), t)
                   || (t != "" && t != d && t !in store.cache
                       && (DomainToNamespace(c.util, d) in names.cache || d == c.util.adminDomain)
                       && exists r :: r in Filter(c.util, answer.domains[0]).domain.roles && r.trust == t))
    {
      var valid := ValidateDomain(d);
      Validated(c, View(z, Started(d)), d, Reply(answer), api);
      if valid {
        r := SyncValid(d, answer, api, z);
      } else {
        var ok := RemoveAthenzDomain(d, Reply(answer), api, z);
        r := if ok then Synced else Error;
      }
    }

    /** processNextItem for the item d: the item is taken, synced, and retried or given up. The process is
        gone after a panic. */
    method ProcessNextItem(d: string, answer: ZmsAnswer, api: ApiReply, ghost z: Zms) returns (alive: bool)
      requires Truthful(z, d, answer) && d in queue.dirty
      modifies `store, `queue
      ensures var synced := FinishSync(c, WorkerStep(c, old(View(z, Idle)), Get(d)), Reply(answer), api);
              && alive == !synced.worker.Crashed?
              && View(z, if alive then Idle else Crashed(d))
                 == if alive then WorkerStep(c, synced, Work(Reply(answer), api)) else synced
      ensures var synced := FinishSync(c, WorkerStep(c, old(View(z, Idle)), Get(d)), Reply(answer), api);
              var q := synced.queue;
              var n := if d in q.requeues then q.requeues[d] else 0;
              alive ==>
                queue == if synced.worker == Finishing(d, false) then q
                         else if n < 3 then q.(waiting := q.waiting + {d}, requeues := q.requeues[d := n + 1],
                                               dropped := q.dropped - {d})
                         else q.(requeues := q.requeues - {d}, dropped := q.dropped + {d})
    {
      queue := queue.(dirty := queue.dirty - {d});
      var r := Sync(d, answer, api, z);
      if r.Panic? { return false; }
      if r.Error? {
        if (if d in queue.requeues then queue.requeues[d] else 0) < WORKER_QUEUE_RETRY {
          AddRateLimited(d);
        } else {
          queue := queue.(requeues := queue.requeues - {d}, dropped := queue.dropped + {d});
        }
      }
      return true;
    }

    // ----- the crons -----

    method AddAdminSystemDomains()
      modifies `queue
      ensures queue
              == EnqueueAll(old(queue),
                            (if c.util.adminDomain != "" then [c.util.adminDomain] else [])
                            + seq(|c.util.systemNamespaces|, i requires 0 <= i < |c.util.systemNamespaces| =>
                                    c.util.adminDomain + "." + c.util.systemNamespaces[i]))
      ensures forall x :: Queued(queue, x) <==>
                (Queued(old(queue), x) || (x == c.util.adminDomain && x != "")
                 || exists ns :: ns in c.util.systemNamespaces && x == c.util.adminDomain + "." + ns)
      ensures queue == EnqueueAll(old(queue), AdminSystemDomains(c.util))
    {
      ghost var nss := c.util.systemNamespaces;
      ghost var head := if c.util.adminDomain != "" then [c.util.adminDomain] else [];
      EnqueueOneMore(old(queue), [], c.util.adminDomain);
      if c.util.adminDomain != "" {
        AddRateLimited(c.util.adminDomain);
      }
      var domains := GetSystemNSDomains(c.util);
      assert head + SystemDomains(c.util, nss[..0]) == head;
      for i := 0 to |domains|
        invariant queue == EnqueueAll(old(queue), head + SystemDomains(c.util, nss[..i]))
      {
        SystemDomainsGrow(old(queue), head, c.util, i);
        if domains[i] != "" {
          AddRateLimited(domains[i]);
        }
      }
      assert nss[..|nss|] == nss;
      AdminSystemDomainsListed(c.util);
      forall x ensures Queued(queue, x) <==> Queued(old(queue), x) || x in AdminSystemDomains(c.util) {
        EnqueueAllKeeps(old(queue), AdminSystemDomains(c.util), x);
      }
    }

    /** requestCall: after an error nothing has happened; otherwise every returned domain that is valid is
        queued, in order, and only then the cursor moves; all of it a schedule of the protocol. */
    method RequestCall(failed: bool, returned: seq<string>, tag: Option<nat>, ghost z: Zms, ghost w: Worker)
      returns (ok: bool)
      requires cron.pc.Resting? && !w.Crashed?
      requires forall d :: d in z.domains && Newer(z.domains[d].domain.modified, cron.etag) ==> failed || d in returned
      requires tag.Some? ==> tag.value <= z.clock
      modifies `queue, `cron
      ensures Reaches(c, old(View(z, w)), View(z, w))
      ensures ok == !failed
      ensures failed ==> queue == old(queue) && cron == old(cron)
      ensures !failed ==> cron == Cron(if tag.Some? then tag else old(cron.etag), Resting)
      ensures !failed ==> queue == EnqueueAll(old(queue), ValidOf(c.util, names.cache, store.cache, returned))
      ensures !failed ==>
                forall d :: Queued(queue, d) <==>
                  (Queued(old(queue), d)
                   || (d in returned
                       && (DomainToNamespace(c.util, d) in names.cache || d == c.util.adminDomain
                           || (d != "" && exists p, r ::
                                 p in store.cache && r in store.cache[p].spec.domain.roles && r.trust == d))))
    {
      if failed {
        ReachesSelf(c, View(z, w));
        return false;
      }
      ghost var s := View(z, w);
      ReachesSelf(c, s);
      ThenStep(c, s, s, ACron(Request(returned, tag)));
      cron := cron.(pc := Walking(returned, tag, false));
      var i := 0;
      while i < |returned|
        invariant 0 <= i <= |returned|
        invariant cron == Cron(old(cron.etag), Walking(returned[i..], tag, false))
        invariant Reaches(c, s, View(z, w))
        invariant queue == EnqueueAll(old(queue), ValidOf(c.util, names.cache, store.cache, returned[..i]))
      {
        var d := returned[i];
        assert returned[i..][0] == d && returned[i..][1..] == returned[i + 1..];
        var valid := ValidateDomain(d);
        VisitReached(c, s, View(z, w), returned[i..], tag);
        ValidOfGrows(old(queue), c.util, names.cache, store.cache, returned, i);
        if valid { AddRateLimited(d); }
        cron := cron.(pc := Walking(returned[i + 1..], tag, false));
        i := i + 1;
      }
      assert returned[..i] == returned;
      ThenStep(c, s, View(z, w), ACron(Adopt));
      cron := Cron(if tag.Some? then tag else cron.etag, Resting);
      forall d ensures Queued(queue, d) <==>
          (Queued(old(queue), d) || d in ValidOf(c.util, names.cache, store.cache, returned))
      {
        EnqueueAllKeeps(old(queue), ValidOf(c.util, names.cache, store.cache, returned), d);
      }
      forall d { ValidOfMeans(c.util, names.cache, store.cache, returned, d); }
      return true;
    }

    /** One round of FullResync over the listed namespaces and index keys. */
    method FullResync(nslist: seq<string>, trustdomains: seq<string>, ghost z: Zms, ghost w: Worker)
      requires !w.Crashed?
      requires forall ns :: ns in nslist <==> ns in names.cache
      requires forall d :: d in trustdomains <==> d in store.keys
      modifies `queue
      ensures Reaches(c, old(View(z, w)), View(z, w))
      ensures queue == EnqueueAll(EnqueueAll(EnqueueAll(old(queue), DomainsOf(c.util, nslist)),
                                             AdminSystemDomains(c.util)),
                                  StoredOf(store.cache, trustdomains))
      ensures forall d :: Queued(queue, d) <==>
                (Queued(old(queue), d)
                 || (exists ns ::
                       ns in names.cache && ns !in c.util.excludeNamespaces && NamespaceToDomain(c.util, ns) == d)
                 || (d == c.util.adminDomain && d != "")
                 || (exists ns :: ns in c.util.systemNamespaces && d == c.util.adminDomain + "." + ns)
                 || (d in store.keys && d in store.cache))
    {
      ghost var s := View(z, w);
      ReachesSelf(c, s);
      for i := 0 to |nslist|
        invariant Reaches(c, s, View(z, w))
        invariant queue == EnqueueAll(old(queue), DomainsOf(c.util, nslist[..i]))
      {
        var ns := nslist[i];
        assert ns in nslist && nslist[..i + 1][..i] == nslist[..i];
        ThenStep(c, s, View(z, w), AInner(ResyncNamespace(ns)));
        ghost var earlier := DomainsOf(c.util, nslist[..i]);
        assert DomainsOf(c.util, nslist[..i + 1])
               == if ns in c.util.excludeNamespaces then earlier else earlier + [NamespaceToDomain(c.util, ns)];
        if ns !in c.util.excludeNamespaces {
          EnqueueOneMore(old(queue), earlier, NamespaceToDomain(c.util, ns));
          AddRateLimited(NamespaceToDomain(c.util, ns));
        }
      }
      assert nslist[..|nslist|] == nslist;
      ThenStep(c, s, View(z, w), AInner(ResyncAdminSystem));
      AddAdminSystemDomains();
      ghost var listed := queue;
      for i := 0 to |trustdomains|
        invariant Reaches(c, s, View(z, w))
        invariant queue == EnqueueAll(listed, StoredOf(store.cache, trustdomains[..i]))
      {
        var d := trustdomains[i];
        assert d in trustdomains && trustdomains[..i + 1][..i] == trustdomains[..i];
        ghost var earlier := StoredOf(store.cache, trustdomains[..i]);
        assert StoredOf(store.cache, trustdomains[..i + 1]) == if d in store.cache then earlier + [d] else earlier;
        if d in store.cache {
          ThenStep(c, s, View(z, w), AInner(ResyncTrust(d)));
          EnqueueOneMore(listed, earlier, d);
          AddRateLimited(d);
        }
      }
      assert trustdomains[..|trustdomains|] == trustdomains;
      forall d ensures Queued(queue, d) <==>
          (Queued(old(queue), d)
           || (exists ns :: ns in names.cache && ns !in c.util.excludeNamespaces && NamespaceToDomain(c.util, ns) == d)
           || (d == c.util.adminDomain && d != "")
           || (exists ns :: ns in c.util.systemNamespaces && d == c.util.adminDomain + "." + ns)
           || (d in store.keys && d in store.cache))
      {
        ResyncQueued(c, names, store, old(queue), nslist, trustdomains, d);
      }
    }
  }

  /** The two lookups of a visit, as one stretch of a schedule. */
  lemma VisitReached(c: Config, s: State, t: State, rem: seq<string>, tag: Option<nat>)
    requires Reaches(c, s, t) && !t.worker.Crashed? && !t.startup.BeforeEtag?
    requires rem != [] && t.cron.pc == Walking(rem, tag, false)
    ensures var d := rem[0];
            var valid := IsNamespaceOrAdmin(c.util, t.names.cache, d) || IsTrustDomain(t.store.cache, d);
            Reaches(c, s, t.(queue := if valid then Enqueue(t.queue, d) else t.queue,
                             cron := Cron(t.cron.etag, Walking(rem[1..], tag, false))))
  {
    ThenStep(c, s, t, ACron(Visit));
    if !IsNamespaceOrAdmin(c.util, t.names.cache, rem[0]) {
      ThenStep(c, s, Step(c, t, ACron(Visit)), ACron(Visit));
    }
  }

  lemma OneAccess(c: Config, s: State, zms: ZmsReply, api: ApiReply)
    requires s.startup.Up? && Answerable(s, zms) && Stage(s.worker) > 0
    ensures var t := WorkerStep(c, s, Work(zms, api));
            FinishSync(c, s, zms, api) == (if Stage(t.worker) == 0 then t else FinishSync(c, t, zms, api))
  {
  }

  /** The two lookups of ValidateDomain. */
  lemma Validated(c: Config, s: State, d: string, zms: ZmsReply, api: ApiReply)
    requires s.startup.Up? && s.worker == Started(d) && Answerable(s, zms)
    ensures var valid := IsNamespaceOrAdmin(c.util, s.names.cache, d) || IsTrustDomain(s.store.cache, d);
            FinishSync(c, s, zms, api) == FinishSync(c, s.(worker := if valid then Fetching(d) else Removing(d)),
              zms, api)
  {
    OneAccess(c, s, zms, api);
    OneAccess(c, s.(worker := NotNamespace(d)), zms, api);
  }

  /** The four ways the ZMS call can end. */
  lemma Answered(c: Config, s: State, d: string, zms: ZmsReply, api: ApiReply)
    requires s.startup.Up? && s.worker == Fetching(d) && Answerable(s, zms)
    ensures FinishSync(c, s, zms, api)
            == match zms
               case Found => FinishSync(c, s.(worker := Fetched(d, Filter(c.util, s.zms.domains[d]))), zms, api)
               case Empty => FinishSync(c, s.(worker := Removing(d)), zms, api)
               case NotFound => FinishSync(c, s.(worker := Removing(d)), zms, api)
               case ResourceError => FinishSync(c, s.(worker := ErrorLookup(d)), zms, api)
               case OtherError => s.(worker := Finishing(d, true))
  {
    OneAccess(c, s, zms, api);
  }

  /** The trusts among the roles that the loop queues: none unless d is a namespace's or the admin domain. */
  function NewTrusts(u: Util, names: set<string>, cache: map<string, CR>, d: string, roles: seq<Role>): seq<string> {
    if roles == [] then []
    else
      var t := roles[|roles| - 1].trust;
      var earlier := NewTrusts(u, names, cache, d, roles[..|roles| - 1]);
      if t != "" && t != d && t !in cache && IsNamespaceOrAdmin(u, names, d) then earlier + [t] else earlier
  }

  lemma {:induction false} TrustsQueued(c: Config, s: State, q: Queue, d: string, data: SignedDomain, i: nat,
                                        zms: ZmsReply, api: ApiReply)
    requires s.startup.Up? && i <= |data.domain.roles| && s.worker == Trusting(d, data, i) && Answerable(s, zms)
    requires s.queue == EnqueueAll(q, NewTrusts(c.util, s.names.cache, s.store.cache, d, data.domain.roles[..i]))
    ensures FinishSync(c, s, zms, api)
            == s.(worker := Finishing(d, false),
                  queue := EnqueueAll(q, NewTrusts(c.util, s.names.cache, s.store.cache, d, data.domain.roles)))
    decreases |data.domain.roles| - i
  {
    var roles := data.domain.roles;
    if i == |roles| {
      OneAccess(c, s, zms, api);
      assert roles[..i] == roles;
    } else {
      RoleDone(c, s, d, data, i, zms, api);
      NewTrustsGrow(q, c.util, s.names.cache, s.store.cache, d, roles, i);
      TrustsQueued(c, RoleStep(c, s, d, data, i), q, d, data, i + 1, zms, api);
    }
  }

  /** One turn of the loop over the roles. */
  function RoleStep(c: Config, s: State, d: string, data: SignedDomain, i: nat): State
    requires i < |data.domain.roles|
  {
    var t := data.domain.roles[i].trust;
    s.(worker := Trusting(d, data, i + 1),
       queue := if t != "" && t != d && t !in s.store.cache && IsNamespaceOrAdmin(c.util, s.names.cache, d)
                then Enqueue(s.queue, t) else s.queue)
  }

  lemma RoleDone(c: Config, s: State, d: string, data: SignedDomain, i: nat, zms: ZmsReply, api: ApiReply)
    requires s.startup.Up? && i < |data.domain.roles| && s.worker == Trusting(d, data, i) && Answerable(s, zms)
    ensures FinishSync(c, s, zms, api) == FinishSync(c, RoleStep(c, s, d, data, i), zms, api)
  {
    OneAccess(c, s, zms, api);
    var t := WorkerStep(c, s, Work(zms, api));
    if t.worker.TrustParent? { OneAccess(c, t, zms, api); }
  }

  /** What a round of FullResync has queued. */
  lemma ResyncQueued(c: Config, names: Names, store: Store, q: Queue, nslist: seq<string>, trustdomains: seq<string>,
                     d: string)
    requires forall ns :: ns in nslist <==> ns in names.cache
    requires forall x :: x in trustdomains <==> x in store.keys
    ensures var listed := EnqueueAll(EnqueueAll(q, DomainsOf(c.util, nslist)), AdminSystemDomains(c.util));
            Queued(EnqueueAll(listed, StoredOf(store.cache, trustdomains)), d) <==>
            (Queued(q, d)
             || (exists ns ::
                   ns in names.cache && ns !in c.util.excludeNamespaces && NamespaceToDomain(c.util, ns) == d)
             || (d == c.util.adminDomain && d != "")
             || (exists ns :: ns in c.util.systemNamespaces && d == c.util.adminDomain + "." + ns)
             || (d in store.keys && d in store.cache))
  {
    var first := EnqueueAll(q, DomainsOf(c.util, nslist));
    var listed := EnqueueAll(first, AdminSystemDomains(c.util));
    EnqueueAllKeeps(q, DomainsOf(c.util, nslist), d);
    EnqueueAllKeeps(first, AdminSystemDomains(c.util), d);
    EnqueueAllKeeps(listed, StoredOf(store.cache, trustdomains), d);
    DomainsOfMeans(c.util, nslist, d);
    StoredOfMeans(store.cache, trustdomains, d);
    AdminSystemDomainsListed(c.util);
  }

  /** The domains that ValidateDomain accepts. */
  function ValidOf(u: Util, names: set<string>, cache: map<string, CR>, ds: seq<string>): seq<string> {
    if ds == [] then []
    else
      var d := ds[|ds| - 1];
      var earlier := ValidOf(u, names, cache, ds[..|ds| - 1]);
      if IsNamespaceOrAdmin(u, names, d) || IsTrustDomain(cache, d) then earlier + [d] else earlier
  }

  /** The domains of the namespaces that are not excluded. */
  function DomainsOf(u: Util, nss: seq<string>): seq<string> {
    if nss == [] then []
    else
      var ns := nss[|nss| - 1];
      var earlier := DomainsOf(u, nss[..|nss| - 1]);
      if ns in u.excludeNamespaces then earlier else earlier + [NamespaceToDomain(u, ns)]
  }

  function StoredOf(cache: map<string, CR>, ds: seq<string>): seq<string> {
    if ds == [] then []
    else
      var earlier := StoredOf(cache, ds[..|ds| - 1]);
      if ds[|ds| - 1] in cache then earlier + [ds[|ds| - 1]] else earlier
  }

  lemma SystemDomainsGrow(q: Queue, head: seq<string>, u: Util, i: nat)
    requires i < |u.systemNamespaces|
    ensures var nss, d := u.systemNamespaces, NamespaceToDomain(u, u.systemNamespaces[i]);
            && d != ""
            && EnqueueAll(q, head + SystemDomains(u, nss[..i + 1]))
               == Enqueue(EnqueueAll(q, head + SystemDomains(u, nss[..i])), d)
  {
    var nss, d := u.systemNamespaces, NamespaceToDomain(u, u.systemNamespaces[i]);
    assert nss[..i + 1][..i] == nss[..i];
    var earlier := SystemDomains(u, nss[..i]);
    assert SystemDomains(u, nss[..i + 1]) == earlier + [d];
    assert head + (earlier + [d]) == (head + earlier) + [d];
    EnqueueOneMore(q, head + earlier, d);
  }

  lemma NewTrustsGrow(q: Queue, u: Util, names: set<string>, cache: map<string, CR>, d: string, roles: seq<Role>,
                      i: nat)
    requires i < |roles|
    ensures var t := roles[i].trust;
            var before := EnqueueAll(q, NewTrusts(u, names, cache, d, roles[..i]));
            EnqueueAll(q, NewTrusts(u, names, cache, d, roles[..i + 1]))
            == if t != "" && t != d && t !in cache && IsNamespaceOrAdmin(u, names, d)
               then Enqueue(before, t) else before
  {
    assert roles[..i + 1][..i] == roles[..i];
    EnqueueOneMore(q, NewTrusts(u, names, cache, d, roles[..i]), roles[i].trust);
  }

  lemma ValidOfGrows(q: Queue, u: Util, names: set<string>, cache: map<string, CR>, ds: seq<string>, i: nat)
    requires i < |ds|
    ensures var before := EnqueueAll(q, ValidOf(u, names, cache, ds[..i]));
            EnqueueAll(q, ValidOf(u, names, cache, ds[..i + 1]))
            == if IsNamespaceOrAdmin(u, names, ds[i]) || IsTrustDomain(cache, ds[i])
               then Enqueue(before, ds[i]) else before
  {
    assert ds[..i + 1][..i] == ds[..i];
    EnqueueOneMore(q, ValidOf(u, names, cache, ds[..i]), ds[i]);
  }

  lemma {:induction false} ValidOfMeans(u: Util, names: set<string>, cache: map<string, CR>, ds: seq<string>, d: string)
    ensures var valid := DomainToNamespace(u, d) in names || d == u.adminDomain
                         || (d != "" && exists p, r :: p in cache && r in cache[p].spec.domain.roles && r.trust == d);
            && multiset(ValidOf(u, names, cache, ds))[d] == (if valid then multiset(ds)[d] else 0)
            && (d in ValidOf(u, names, cache, ds) <==> valid && d in ds)
  {
    TrustDomainMeans(cache, d);
    if ds != [] {
      ValidOfMeans(u, names, cache, ds[..|ds| - 1], d);
      assert ds == ds[..|ds| - 1] + [ds[|ds| - 1]];
    }
  }

  lemma {:induction false} DomainsOfMeans(u: Util, nss: seq<string>, d: string)
    ensures d in DomainsOf(u, nss) <==>
            exists ns :: ns in nss && ns !in u.excludeNamespaces && NamespaceToDomain(u, ns) == d
  {
    if nss != [] {
      DomainsOfMeans(u, nss[..|nss| - 1], d);
      assert nss == nss[..|nss| - 1] + [nss[|nss| - 1]];
    }
  }

  lemma {:induction false} StoredOfMeans(cache: map<string, CR>, ds: seq<string>, d: string)
    ensures d in StoredOf(cache, ds) <==> d in ds && d in cache
  {
    if ds != [] {
      StoredOfMeans(cache, ds[..|ds| - 1], d);
      assert ds == ds[..|ds| - 1] + [ds[|ds| - 1]];
    }
  }

  lemma {:induction false} NewTrustsMeans(u: Util, names: set<string>, cache: map<string, CR>, d: string,
                                          roles: seq<Role>, t: string)
    ensures t in NewTrusts(u, names, cache, d, roles)
            <==> (t != "" && t != d && t !in cache && (DomainToNamespace(u, d) in names || d == u.adminDomain)
                  && exists r :: r in roles && r.trust == t)
  {
    if roles != [] {
      NewTrustsMeans(u, names, cache, d, roles[..|roles| - 1], t);
      assert roles == roles[..|roles| - 1] + [roles[|roles| - 1]];
    }
  }

  lemma EnqueueOneMore(q: Queue, ds: seq<string>, d: string)
    ensures EnqueueAll(q, ds + [d]) == Enqueue(EnqueueAll(q, ds), d)
  {
    assert (ds + [d])[..|ds|] == ds;
  }

  /** Once ZMS has been heard out, or was not asked, nothing in sync can panic. */
  lemma {:induction false} PastTheFetch(c: Config, s: State, zms: ZmsReply, api: ApiReply)
    requires s.startup.Up? && Answerable(s, zms)
    requires match s.worker
             case Removing(_) | Deleting(_) | Fetched(_, _) | Writing(_, _, _) => true
             case Trusting(_, _, _) | TrustParent(_, _, _) => true
             case _ => s.worker.Finishing?
    ensures FinishSync(c, s, zms, api).worker.Finishing?
    decreases Stage(s.worker), RolesLeft(s.worker)
  {
    if Stage(s.worker) > 0 {
      OneAccess(c, s, zms, api);
      PastTheFetch(c, WorkerStep(c, s, Work(zms, api)), zms, api);
    }
  }

  /** sync panics exactly on an error other than 404 for a valid domain with a cached resource: the
      inner err, which is nil, shadows the outer one. */
  lemma PanicsExactly(c: Config, s: State, d: string, zms: ZmsReply, api: ApiReply)
    requires s.startup.Up? && s.worker == Started(d) && Answerable(s, zms)
    ensures FinishSync(c, s, zms, api).worker.Crashed?
            <==> (zms.ResourceError? && d in s.store.cache
                  && (IsNamespaceOrAdmin(c.util, s.names.cache, d) || IsTrustDomain(s.store.cache, d)))
  {
    Validated(c, s, d, zms, api);
    if IsNamespaceOrAdmin(c.util, s.names.cache, d) || IsTrustDomain(s.store.cache, d) {
      Answered(c, s.(worker := Fetching(d)), d, zms, api);
      match zms
      case Found => PastTheFetch(c, s.(worker := Fetched(d, Filter(c.util, s.zms.domains[d]))), zms, api);
      case Empty => PastTheFetch(c, s.(worker := Removing(d)), zms, api);
      case NotFound => PastTheFetch(c, s.(worker := Removing(d)), zms, api);
      case ResourceError => OneAccess(c, s.(worker := ErrorLookup(d)), zms, api);
      case OtherError =>
    } else {
      PastTheFetch(c, s.(worker := Removing(d)), zms, api);
    }
  }
}
