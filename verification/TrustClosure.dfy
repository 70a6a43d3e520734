/** Trust closure under cache lag: a domain trusted by a cached resource of a namespace or of the admin
    domain is cached too, or something under way will see to it. */
module TrustClosure {
  import opened Codec
  import opened Resources
  import opened Protocol
  import opened Consistency
  import opened NoLostUpdate

  /** p is the admin domain or the domain of a cached, non-excluded namespace, and a role in its cached
      resource trusts t, which is not cached. */
  predicate OpenLink(c: Config, s: State, p: string, t: string) {
    && ((p == c.util.adminDomain && p != "") || (DomainToNamespace(c.util, p) in s.names.cache && Follows(c, p)))
    && p in s.store.cache && t in Trusts(s.store.cache[p].spec) && t != p && t !in s.store.cache
  }

  /** Whether ZMS's last answer about t was that it lacks it, after one more step. */
  predicate LackedAfter(s: State, a: Action, t: string, lacked: bool) {
    if a.AWorker? && a.w.Work? && s.worker == Fetching(t) then a.w.zms.Empty? || a.w.zms.NotFound? else lacked
  }

  /** The last time the worker asked ZMS for t, in the first i steps of the run, ZMS lacked it. */
  predicate LastSeenLacking(states: seq<State>, actions: seq<Action>, i: nat, t: string)
    requires i <= |actions| < |states|
  {
    i > 0 && LackedAfter(states[i - 1], actions[i - 1], t, LastSeenLacking(states, actions, i - 1, t))
  }

  /** ZMS lacks t, or will still report it, or the cron has t on its walk. */
  predicate UnreportedOrAbsent(s: State, t: string) {
    t in s.zms.domains ==>
      var m := s.zms.domains[t].domain.modified;
      && Newer(m, s.cron.etag)
      && (s.cron.pc.Walking? ==> Newer(m, s.cron.pc.tag) || t in s.cron.pc.rem)
  }

  /** `lacked` tells that ZMS, when last asked for t, did not have it. */
  predicate Scheduled(c: Config, s: State, lacked: bool, p: string, t: string) {
    || Queued(s.queue, t) || CrPending(s.store, t) || Coming(c, s, p)
    || (lacked && UnreportedOrAbsent(s, t)) || t in s.queue.dropped || p in s.queue.dropped
  }

  predicate TrustAhead(data: SignedDomain, handled: nat, t: string) {
    exists j :: handled <= j < |data.domain.roles| && data.domain.roles[j].trust == t
  }

  /** The worker has the parent in hand and has yet to look at t, or has t and may still create it. */
  predicate BeingSettled(s: State, p: string, t: string) {
    match s.worker
    case Idle => false
    case Crashed(_) => false
    case Removing(x) => x == p
    case Trusting(x, data, handled) => x == p && TrustAhead(data, handled, t)
    case TrustParent(x, data, handled) => x == p && TrustAhead(data, handled, t)
    case Finishing(x, failed) => (x == p || x == t) && failed
    case _ => s.worker.d == p || s.worker.d == t
  }

  predicate Linked(c: Config, s: State, lacked: bool, p: string, t: string) {
    OpenLink(c, s, p, t) ==> Scheduled(c, s, lacked, p, t) || BeingSettled(s, p, t)
  }

  /** Before the worker runs, the parent or t is queued or awaits an event. */
  predicate LinkForeseen(c: Config, s: State, p: string, t: string) {
    !s.startup.Up? && OpenLink(c, s, p, t) ==> Coming(c, s, p) || Queued(s.queue, t) || CrPending(s.store, t)
  }

  lemma TrustsAreAhead(data: SignedDomain, t: string)
    requires t in Trusts(data)
    ensures TrustAhead(data, 0, t)
  {
    var r :| r in data.domain.roles && r.trust == t;
    var j :| 0 <= j < |data.domain.roles| && data.domain.roles[j] == r;
  }

  lemma OutsideLinked(c: Config, s: State, lacked: bool, a: Outside, p: string, t: string)
    requires OutsideEnabled(s, a) && TagsDated(s) && Linked(c, s, lacked, p, t)
    ensures Linked(c, OutsideStep(s, a), lacked, p, t)
  {
  }

  /** Deliveries open links only together with an event for the parent or for t. */
  predicate InnerLinkEffect(c: Config, s: State, s': State, p: string, t: string) {
    && InnerEffect(c, s, s', p) && InnerEffect(c, s, s', t)
    && (Queued(s.queue, t) || CrPending(s.store, t) ==> Queued(s'.queue, t) || CrPending(s'.store, t))
    && (OpenLink(c, s', p, t) ==> OpenLink(c, s, p, t) || CrPending(s'.store, t) || Coming(c, s', p))
  }

  lemma LinksOpen(c: Config, s: State, a: Inner, p: string, t: string)
    requires InnerEnabled(s, a)
    ensures var s' := InnerStep(c, s, a);
            OpenLink(c, s', p, t) ==> OpenLink(c, s, p, t) || CrPending(s'.store, t) || Coming(c, s', p)
  {
  }

  lemma InnerHasLinkEffect(c: Config, s: State, a: Inner, p: string, t: string)
    requires InnerEnabled(s, a)
    ensures InnerLinkEffect(c, s, InnerStep(c, s, a), p, t)
  {
    InnerHasEffect(c, s, a, p);
    InnerHasEffect(c, s, a, t);
    LinksOpen(c, s, a, p, t);
    EnqueueAllKeeps(s.queue, AdminSystemDomains(c.util), t);
  }

  lemma InnerLinked(c: Config, s: State, s': State, lacked: bool, p: string, t: string)
    requires InnerLinkEffect(c, s, s', p, t) && Linked(c, s, lacked, p, t) && LinkForeseen(c, s, p, t)
    ensures Linked(c, s', lacked, p, t)
  {
  }

  /** A visit takes t off the walk only by queueing it, or while no cached resource trusts it. */
  predicate VisitLinkEffect(s: State, s': State, p: string, t: string) {
    && s'.zms == s.zms && s'.names == s.names && s'.store == s.store && s'.worker == s.worker && s'.startup == s.startup
    && s'.cron.etag == s.cron.etag && s.cron.pc.Walking? && s'.cron.pc.Walking? && s'.cron.pc.tag == s.cron.pc.tag
    && (Queued(s.queue, p) ==> Queued(s'.queue, p)) && (Queued(s.queue, t) ==> Queued(s'.queue, t))
    && (p in s.queue.dropped ==> p in s'.queue.dropped || Queued(s'.queue, p))
    && (t in s.queue.dropped ==> t in s'.queue.dropped || Queued(s'.queue, t))
    && (t in s.cron.pc.rem ==> t in s'.cron.pc.rem || Queued(s'.queue, t) || !IsTrustDomain(s.store.cache, t))
  }

  lemma VisitHasLinkEffect(c: Config, s: State, p: string, t: string)
    requires CronEnabled(s, Visit)
    ensures VisitLinkEffect(s, CronStep(c, s, Visit), p, t)
  {
    var pc := s.cron.pc;
    assert pc.rem == [pc.rem[0]] + pc.rem[1..];
  }

  lemma VisitLinked(c: Config, s: State, s': State, lacked: bool, p: string, t: string)
    requires VisitLinkEffect(s, s', p, t) && Linked(c, s, lacked, p, t)
    ensures Linked(c, s', lacked, p, t)
  {
  }

  lemma CronLinked(c: Config, s: State, lacked: bool, a: CronAction, p: string, t: string)
    requires CronEnabled(s, a) && Linked(c, s, lacked, p, t)
    ensures Linked(c, CronStep(c, s, a), lacked, p, t)
  {
    if a.Visit? {
      VisitHasLinkEffect(c, s, p, t);
      VisitLinked(c, s, CronStep(c, s, a), lacked, p, t);
    }
  }

  /** A skipped write leaves the roles the cache has, or an event for p, behind. */
  lemma SkippedLinked(c: Config, s: State, lacked: bool, a: WorkerAction, p: string, t: string)
    requires WorkerEnabled(s, a) && a.Work? && s.worker.Writing? && WriterInformed(s) && Linked(c, s, lacked, p, t)
    requires s.worker.seen.Some? && UpToDate(s.worker.seen.value, s.worker.data)
    ensures Linked(c, WorkerStep(c, s, a), LackedAfter(s, AWorker(a), t, lacked), p, t)
  {
    SameTrusts(s.worker.seen.value.spec, s.worker.data);
    if t in Trusts(s.worker.data) { TrustsAreAhead(s.worker.data, t); }
  }

  /** A write that goes through is itself an event for its domain; a failed one is retried or recorded. */
  lemma WrittenLinked(c: Config, s: State, lacked: bool, a: WorkerAction, p: string, t: string)
    requires WorkerEnabled(s, a) && a.Work? && s.worker.Writing? && Linked(c, s, lacked, p, t)
    requires !(s.worker.seen.Some? && UpToDate(s.worker.seen.value, s.worker.data))
    ensures Linked(c, WorkerStep(c, s, a), LackedAfter(s, AWorker(a), t, lacked), p, t)
  {
  }

  lemma WriterLinked(c: Config, s: State, lacked: bool, a: WorkerAction, p: string, t: string)
    requires WorkerEnabled(s, a) && a.Work? && s.worker.Writing? && WriterInformed(s) && Linked(c, s, lacked, p, t)
    ensures Linked(c, WorkerStep(c, s, a), LackedAfter(s, AWorker(a), t, lacked), p, t)
  {
    if s.worker.seen.Some? && UpToDate(s.worker.seen.value, s.worker.data) {
      SkippedLinked(c, s, lacked, a, p, t);
    } else {
      WrittenLinked(c, s, lacked, a, p, t);
    }
  }

  lemma TrusterLinked(c: Config, s: State, lacked: bool, a: WorkerAction, p: string, t: string)
    requires WorkerEnabled(s, a) && a.Work? && (s.worker.Trusting? || s.worker.TrustParent?)
             && Linked(c, s, lacked, p, t)
    ensures Linked(c, WorkerStep(c, s, a), LackedAfter(s, AWorker(a), t, lacked), p, t)
  {
    var data, k := s.worker.data, s.worker.handled;
    if TrustAhead(data, k, t) && !TrustAhead(data, k + 1, t) {
      assert k < |data.domain.roles| && data.domain.roles[k].trust == t;
    }
  }

  lemma EndLinked(c: Config, s: State, lacked: bool, a: WorkerAction, p: string, t: string)
    requires WorkerEnabled(s, a) && (a.Get? || s.worker.Finishing? || s.worker.ErrorLookup?)
             && Linked(c, s, lacked, p, t)
    ensures Linked(c, WorkerStep(c, s, a), LackedAfter(s, AWorker(a), t, lacked), p, t)
  {
  }

  lemma HeadLinked(c: Config, s: State, lacked: bool, a: WorkerAction, p: string, t: string)
    requires WorkerEnabled(s, a) && a.Work? && Linked(c, s, lacked, p, t)
    requires s.worker.Started? || s.worker.NotNamespace? || s.worker.Fetching? || s.worker.Fetched?
             || s.worker.Removing? || s.worker.Deleting?
    ensures Linked(c, WorkerStep(c, s, a), LackedAfter(s, AWorker(a), t, lacked), p, t)
  {
  }

  lemma WorkerLinked(c: Config, s: State, lacked: bool, a: WorkerAction, p: string, t: string)
    requires WorkerEnabled(s, a) && WriterInformed(s) && Linked(c, s, lacked, p, t)
    ensures Linked(c, WorkerStep(c, s, a), LackedAfter(s, AWorker(a), t, lacked), p, t)
  {
    if a.Get? || s.worker.Finishing? || s.worker.ErrorLookup? {
      EndLinked(c, s, lacked, a, p, t);
    } else if s.worker.Writing? {
      WriterLinked(c, s, lacked, a, p, t);
    } else if (s.worker.Trusting? || s.worker.TrustParent?) {
      TrusterLinked(c, s, lacked, a, p, t);
    } else {
      HeadLinked(c, s, lacked, a, p, t);
    }
  }

  lemma ForeseenOutside(c: Config, s: State, a: Outside, p: string, t: string)
    requires OutsideEnabled(s, a) && LinkForeseen(c, s, p, t)
    ensures LinkForeseen(c, OutsideStep(s, a), p, t)
  {
  }

  lemma ForeseenCron(c: Config, s: State, a: CronAction, p: string, t: string)
    requires CronEnabled(s, a) && LinkForeseen(c, s, p, t)
    ensures LinkForeseen(c, CronStep(c, s, a), p, t)
  {
  }

  lemma LinkForeseenStep(c: Config, s: State, a: Action, p: string, t: string)
    requires Enabled(s, a) && LinkForeseen(c, s, p, t)
    ensures LinkForeseen(c, Step(c, s, a), p, t)
  {
    match a
    case AOutside(o) => ForeseenOutside(c, s, o, p, t);
    case AInner(i) => ForeseenInner(c, s, i, p, t);
    case ACron(k) => ForeseenCron(c, s, k, p, t);
    case AWorker(_) =>
  }

  lemma ForeseenInner(c: Config, s: State, a: Inner, p: string, t: string)
    requires InnerEnabled(s, a) && LinkForeseen(c, s, p, t)
    ensures LinkForeseen(c, InnerStep(c, s, a), p, t)
  {
    InnerHasLinkEffect(c, s, a, p, t);
  }

  lemma LinkedStep(c: Config, s: State, lacked: bool, a: Action, p: string, t: string)
    requires Enabled(s, a) && Consistent(s) && Linked(c, s, lacked, p, t) && LinkForeseen(c, s, p, t)
    ensures Linked(c, Step(c, s, a), LackedAfter(s, a, t, lacked), p, t) && LinkForeseen(c, Step(c, s, a), p, t)
  {
    LinkForeseenStep(c, s, a, p, t);
    match a
    case AOutside(o) => OutsideLinked(c, s, lacked, o, p, t);
    case AInner(i) =>
      InnerHasLinkEffect(c, s, i, p, t);
      InnerLinked(c, s, Step(c, s, a), lacked, p, t);
    case ACron(k) => CronLinked(c, s, lacked, k, p, t);
    case AWorker(w) => WorkerLinked(c, s, lacked, w, p, t);
  }

  /** In every state of every run, a trusted domain missing from the cache is queued, awaits an event, was
      lacking from ZMS when last asked for and still is or will be reported, is recorded as given up, or
      its parent is queued, awaits an event or is given up, or the worker holds one of the two and may
      still create it. */
  lemma {:induction false} TrustIsClosed(c: Config, states: seq<State>, actions: seq<Action>, i: nat, p: string,
                                         t: string)
    requires Run(c, states, actions) && i < |states|
    ensures Linked(c, states[i], LastSeenLacking(states, actions, i, t), p, t) && LinkForeseen(c, states[i], p, t)
  {
    if i > 0 {
      TrustIsClosed(c, states, actions, i - 1, p, t);
      RunConsistent(c, states, actions, i - 1);
      LinkedStep(c, states[i - 1], LastSeenLacking(states, actions, i - 1, t), actions[i - 1], p, t);
    }
  }
}
