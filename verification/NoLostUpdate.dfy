/** No update of an anchored domain is lost, in any interleaving. */
module NoLostUpdate {
  import opened Codec
  import opened Resources
  import opened Protocol
  import opened Consistency

  /** The admin domain, and the domains that live, non-excluded namespaces name and are named by. */
  predicate Anchored(c: Config, s: State, d: string) {
    || (d == c.util.adminDomain && d != "")
    || (DomainToNamespace(c.util, d) in s.names.server && Follows(c, d))
  }

  /** An event on d's namespace enqueues d. */
  predicate Follows(c: Config, d: string) {
    CanonicalDomain(c.util, d) && DomainToNamespace(c.util, d) !in c.util.excludeNamespaces
  }

  /** The server has exactly the filtered ZMS content, modulo signatures, and no error message. */
  predicate Current(c: Config, s: State, d: string) {
    d in s.store.server && d in s.zms.domains && UpToDate(s.store.server[d], Filter(c.util, s.zms.domains[d]))
  }

  /** An event on the way will queue d. */
  predicate EventPending(c: Config, s: State, d: string) {
    (Follows(c, d) && NsPending(s.names, DomainToNamespace(c.util, d))) || CrPending(s.store, d)
  }

  /** The worker has d in hand and either has fetched nothing yet, or has the current content, or has
      failed and is about to retry or give up. */
  predicate InHand(c: Config, s: State, d: string) {
    match s.worker
    case Started(x) => x == d
    case Fetching(x) => x == d
    case ErrorLookup(x) => x == d
    case Fetched(x, data) => x == d && d in s.zms.domains && data == Filter(c.util, s.zms.domains[d])
    case Writing(x, data, _) => x == d && d in s.zms.domains && data == Filter(c.util, s.zms.domains[d])
    case Finishing(x, failed) => x == d && failed
    case _ => false
  }

  /** Run has yet to queue the admin domain. */
  predicate AdminDue(c: Config, s: State, d: string) { !s.startup.Up? && d == c.util.adminDomain && d != "" }

  predicate Safe(c: Config, s: State, d: string) {
    || Current(c, s, d) || Queued(s.queue, d) || EventPending(c, s, d) || InHand(c, s, d)
    || d in s.queue.dropped || AdminDue(c, s, d)
  }

  /** ZMS will still report d, or has and the cron has not looked at it yet. */
  predicate Unreported(s: State, d: string) {
    && d in s.zms.domains
    && var m := s.zms.domains[d].domain.modified;
       && Newer(m, s.cron.etag)
       && (s.cron.pc.Walking? ==> Newer(m, s.cron.pc.tag) || d in Unvisited(s.cron.pc))
  }

  function Unvisited(pc: CronPc): seq<string>
    requires pc.Walking?
  {
    if pc.checking && pc.rem != [] then pc.rem[1..] else pc.rem
  }

  ghost predicate Covered(c: Config, s: State, d: string) {
    Anchored(c, s, d) && d in s.zms.domains ==> Safe(c, s, d) || Unreported(s, d)
  }

  /** Before the worker runs, every anchored domain is queued or about to be. */
  predicate Prepared(c: Config, s: State, d: string) {
    !s.startup.Up? && Anchored(c, s, d) ==>
      Queued(s.queue, d) || (Follows(c, d) && NsPending(s.names, DomainToNamespace(c.util, d))) || AdminDue(c, s, d)
  }

  /** A domain that is queued, or that an event will queue, stays so along every step but a Get. */
  predicate Coming(c: Config, s: State, d: string) { Queued(s.queue, d) || EventPending(c, s, d) }

  lemma ComingInner(c: Config, s: State, a: Inner, d: string)
    requires InnerEnabled(s, a) && Coming(c, s, d)
    ensures Coming(c, InnerStep(c, s, a), d)
  {
    EnqueueAllKeeps(s.queue, AdminSystemDomains(c.util), d);
  }

  lemma PreparedInner(c: Config, s: State, a: Inner, d: string)
    requires InnerEnabled(s, a) && Prepared(c, s, d)
    ensures Prepared(c, InnerStep(c, s, a), d)
  {
    AdminDomainIsListed(c.util);
    EnqueueAllKeeps(s.queue, AdminSystemDomains(c.util), d);
  }

  lemma PreparedStep(c: Config, s: State, a: Action, d: string)
    requires Enabled(s, a) && StartupOrder(s) && Prepared(c, s, d)
    ensures Prepared(c, Step(c, s, a), d)
  {
    if a.AInner? { PreparedInner(c, s, a.i, d); }
  }

  lemma OutsideCovered(c: Config, s: State, a: Outside, d: string)
    requires OutsideEnabled(s, a) && TagsDated(s) && Covered(c, s, d)
    ensures Covered(c, OutsideStep(s, a), d)
  {
  }

  /** Deliveries, handlers and the queue's clock leave ZMS, the servers, the worker and the cron's walk
      alone, and a domain given up stays so until it is queued. */
  predicate InnerEffect(c: Config, s: State, s': State, d: string) {
    && s'.zms == s.zms && s'.worker == s.worker && s'.cron.pc == s.cron.pc
    && s'.names.server == s.names.server && s'.store.server == s.store.server
    && (s.startup.BeforeEtag? || s'.cron.etag == s.cron.etag)
    && (d in s.queue.dropped ==> d in s'.queue.dropped || Queued(s'.queue, d))
    && (Coming(c, s, d) ==> Coming(c, s', d))
    && (AdminDue(c, s, d) ==> AdminDue(c, s', d) || Queued(s'.queue, d))
  }

  lemma InnerHasEffect(c: Config, s: State, a: Inner, d: string)
    requires InnerEnabled(s, a)
    ensures InnerEffect(c, s, InnerStep(c, s, a), d)
  {
    AdminDomainIsListed(c.util);
    EnqueueAllKeeps(s.queue, AdminSystemDomains(c.util), d);
    if Coming(c, s, d) { ComingInner(c, s, a, d); }
  }

  lemma EffectCovered(c: Config, s: State, s': State, d: string)
    requires InnerEffect(c, s, s', d) && Covered(c, s, d) && Prepared(c, s, d)
    ensures Covered(c, s', d)
  {
  }

  lemma InnerCovered(c: Config, s: State, a: Inner, d: string)
    requires InnerEnabled(s, a) && Covered(c, s, d) && Prepared(c, s, d)
    ensures Covered(c, InnerStep(c, s, a), d)
  {
    InnerHasEffect(c, s, a, d);
    EffectCovered(c, s, InnerStep(c, s, a), d);
  }

  /** A visit takes a domain off the walk only by queueing it, or while the namespace cache lacks it. */
  predicate VisitEffect(c: Config, s: State, s': State, d: string) {
    && s'.zms == s.zms && s'.names == s.names && s'.store == s.store && s'.worker == s.worker && s'.startup == s.startup
    && s'.cron.etag == s.cron.etag && s.cron.pc.Walking? && s'.cron.pc.Walking? && s'.cron.pc.tag == s.cron.pc.tag
    && (Queued(s.queue, d) ==> Queued(s'.queue, d))
    && (d in s.queue.dropped ==> d in s'.queue.dropped || Queued(s'.queue, d))
    && (d in Unvisited(s.cron.pc) ==>
          d in Unvisited(s'.cron.pc) || Queued(s'.queue, d) || !IsNamespaceOrAdmin(c.util, s.names.cache, d))
  }

  lemma VisitHasEffect(c: Config, s: State, d: string)
    requires CronEnabled(s, Visit)
    ensures VisitEffect(c, s, CronStep(c, s, Visit), d)
  {
    var pc := s.cron.pc;
    assert pc.rem == [pc.rem[0]] + pc.rem[1..];
  }

  lemma VisitCovered(c: Config, s: State, s': State, d: string)
    requires VisitEffect(c, s, s', d) && NameSynced(s.names, DomainToNamespace(c.util, d)) && Covered(c, s, d)
    ensures Covered(c, s', d)
  {
  }

  lemma CronCovered(c: Config, s: State, a: CronAction, d: string)
    requires CronEnabled(s, a) && NameSynced(s.names, DomainToNamespace(c.util, d)) && Covered(c, s, d)
    ensures Covered(c, CronStep(c, s, a), d)
  {
    if a.Visit? {
      VisitHasEffect(c, s, d);
      VisitCovered(c, s, CronStep(c, s, a), d);
    }
  }

  /** A skipped write leaves d current or awaiting an event; any other write is itself an event. */
  lemma WriterCovered(c: Config, s: State, a: WorkerAction, d: string)
    requires WorkerEnabled(s, a) && a.Work? && s.worker.Writing?
    requires CrSynced(s.store, d) && WriterInformed(s) && Covered(c, s, d)
    ensures Covered(c, WorkerStep(c, s, a), d)
  {
    if s.worker.seen.Some? && UpToDate(s.worker.seen.value, s.worker.data) {
      SkippedCovered(c, s, a, d);
    } else {
      WrittenCovered(c, s, a, d);
    }
  }

  lemma SkippedCovered(c: Config, s: State, a: WorkerAction, d: string)
    requires WorkerEnabled(s, a) && a.Work? && s.worker.Writing?
    requires s.worker.seen.Some? && UpToDate(s.worker.seen.value, s.worker.data)
    requires CrSynced(s.store, d) && WriterInformed(s) && Covered(c, s, d)
    ensures Covered(c, WorkerStep(c, s, a), d)
  {
  }

  lemma WrittenCovered(c: Config, s: State, a: WorkerAction, d: string)
    requires WorkerEnabled(s, a) && a.Work? && s.worker.Writing? && Covered(c, s, d)
    requires !(s.worker.seen.Some? && UpToDate(s.worker.seen.value, s.worker.data))
    ensures Covered(c, WorkerStep(c, s, a), d)
  {
  }

  /** The end of an item: a failure is queued again or recorded. */
  lemma EndCovered(c: Config, s: State, a: WorkerAction, d: string)
    requires WorkerEnabled(s, a) && (a.Get? || s.worker.Finishing? || s.worker.ErrorLookup?) && Covered(c, s, d)
    ensures Covered(c, WorkerStep(c, s, a), d)
  {
  }

  /** A deletion is an event; the loop over the roles only queues. */
  lemma TailCovered(c: Config, s: State, a: WorkerAction, d: string)
    requires WorkerEnabled(s, a) && a.Work? && (s.worker.Deleting? || s.worker.Trusting? || s.worker.TrustParent?)
    requires Covered(c, s, d)
    ensures Covered(c, WorkerStep(c, s, a), d)
  {
  }

  /** The lookups and the fetch: what is fetched is current, and a valid domain is not taken for invalid
      unless an event on its namespace is due. */
  lemma HeadCovered(c: Config, s: State, a: WorkerAction, d: string)
    requires WorkerEnabled(s, a) && a.Work? && NameSynced(s.names, DomainToNamespace(c.util, d)) && CrSynced(s.store, d)
    requires s.worker.Started? || s.worker.NotNamespace? || s.worker.Fetching? || s.worker.Fetched?
             || s.worker.Removing?
    requires Covered(c, s, d)
    ensures Covered(c, WorkerStep(c, s, a), d)
  {
  }

  lemma WorkerCovered(c: Config, s: State, a: WorkerAction, d: string)
    requires WorkerEnabled(s, a) && NameSynced(s.names, DomainToNamespace(c.util, d)) && CrSynced(s.store, d)
    requires WriterInformed(s) && Covered(c, s, d)
    ensures Covered(c, WorkerStep(c, s, a), d)
  {
    if a.Get? || s.worker.Finishing? || s.worker.ErrorLookup? {
      EndCovered(c, s, a, d);
    } else if s.worker.Writing? {
      WriterCovered(c, s, a, d);
    } else if s.worker.Deleting? || s.worker.Trusting? || s.worker.TrustParent? {
      TailCovered(c, s, a, d);
    } else {
      HeadCovered(c, s, a, d);
    }
  }

  lemma CoveredStep(c: Config, s: State, a: Action, d: string)
    requires Enabled(s, a) && Consistent(s) && Covered(c, s, d) && Prepared(c, s, d)
    ensures Covered(c, Step(c, s, a), d) && Prepared(c, Step(c, s, a), d)
  {
    PreparedStep(c, s, a, d);
    match a
    case AOutside(o) => OutsideCovered(c, s, o, d);
    case AInner(i) => InnerCovered(c, s, i, d);
    case ACron(k) => CronCovered(c, s, k, d);
    case AWorker(w) => WorkerCovered(c, s, w, d);
  }

  /** In every state of every run, every anchored domain that ZMS has is current on the server, or queued,
      or awaits an event, or is in the worker's hands with nothing fetched or the current content, or will
      be reported by ZMS, or is recorded as given up, or is the admin domain that start-up has yet to queue. */
  lemma {:induction false} NoUpdateIsLost(c: Config, states: seq<State>, actions: seq<Action>, i: nat, d: string)
    requires Run(c, states, actions) && i < |states|
    ensures Covered(c, states[i], d) && Prepared(c, states[i], d)
  {
    if i > 0 {
      NoUpdateIsLost(c, states, actions, i - 1, d);
      RunConsistent(c, states, actions, i - 1);
      CoveredStep(c, states[i - 1], actions[i - 1], d);
    }
  }
}
