/** How often a failing domain is retried. The counter is shared by every enqueue of the domain and is
    reset when it is given up, so copies still queued then start over. */
module Retry {
  import opened Codec
  import opened Resources
  import opened Protocol

  /** Consecutive states of some run. */
  ghost predicate Segment(c: Config, states: seq<State>, actions: seq<Action>) {
    && |states| == |actions| + 1
    && forall i :: 0 <= i < |actions| ==>
         Enabled(states[i], actions[i]) && states[i + 1] == Step(c, states[i], actions[i])
  }

  /** The step by which processNextItem queues the failed domain again. */
  predicate Retries(s: State, a: Action, d: string) {
    a.AWorker? && a.w.Work? && s.worker == Finishing(d, true) && Requeues(s.queue, d) < WORKER_QUEUE_RETRY
  }

  predicate Dequeues(a: Action, d: string) { a == AWorker(Get(d)) }

  /** Some enqueue of d other than a retry. */
  predicate EnqueuesOutside(c: Config, s: State, a: Action, d: string)
    requires Enabled(s, a)
  {
    Requeues(Step(c, s, a).queue, d) > Requeues(s.queue, d) && !Retries(s, a, d)
  }

  ghost predicate NoOutsideEnqueue(c: Config, states: seq<State>, actions: seq<Action>, d: string)
    requires Segment(c, states, actions)
  {
    forall i :: 0 <= i < |actions| ==> !EnqueuesOutside(c, states[i], actions[i], d)
  }

  /** The retries of d among the first n steps. */
  function RetryCount(states: seq<State>, actions: seq<Action>, d: string, n: nat): nat
    requires n <= |actions| && |states| == |actions| + 1
  {
    if n == 0 then 0 else RetryCount(states, actions, d, n - 1) + One(Retries(states[n - 1], actions[n - 1], d))
  }

  function DequeueCount(actions: seq<Action>, d: string, n: nat): nat
    requires n <= |actions|
  {
    if n == 0 then 0 else DequeueCount(actions, d, n - 1) + One(Dequeues(actions[n - 1], d))
  }

  function One(b: bool): nat { if b then 1 else 0 }

  predicate InWork(w: Worker, d: string) { !w.Idle? && w.d == d }

  function QueuedCopies(s: State, d: string): nat { One(d in s.queue.waiting) + One(d in s.queue.dirty) }

  function Copies(s: State, d: string): nat { QueuedCopies(s, d) + One(InWork(s.worker, d)) }

  /** The retries d has left: those the counter allows, and three more for each further copy. */
  function RetriesLeft(s: State, d: string): nat {
    var used := if Requeues(s.queue, d) < WORKER_QUEUE_RETRY then Requeues(s.queue, d) else WORKER_QUEUE_RETRY;
    if Copies(s, d) == 0 then 0
    else WORKER_QUEUE_RETRY - used + WORKER_QUEUE_RETRY * (Copies(s, d) - 1)
  }

  lemma {:induction false} EnqueueAllCounts(q: Queue, ds: seq<string>, d: string)
    ensures var q' := EnqueueAll(q, ds);
            && Requeues(q', d) == Requeues(q, d) + multiset(ds)[d]
            && (d in q'.waiting <==> d in q.waiting || d in ds) && (d in q'.dropped <==> d in q.dropped && d !in ds)
    ensures EnqueueAll(q, ds).dirty == q.dirty
  {
    if ds != [] {
      EnqueueAllCounts(q, ds[..|ds| - 1], d);
      assert ds == ds[..|ds| - 1] + [ds[|ds| - 1]];
    }
  }

  lemma WorkerBudget(c: Config, s: State, a: WorkerAction, d: string)
    requires WorkerEnabled(s, a) && !EnqueuesOutside(c, s, AWorker(a), d)
    ensures var s' := WorkerStep(c, s, a);
            && One(Retries(s, AWorker(a), d)) + RetriesLeft(s', d) <= RetriesLeft(s, d)
            && One(a == Get(d)) + QueuedCopies(s', d) + RetriesLeft(s', d) <= QueuedCopies(s, d) + RetriesLeft(s, d)
  {
  }

  lemma AdminBudget(c: Config, s: State, s': State, d: string)
    requires s' == s.(queue := EnqueueAll(s.queue, AdminSystemDomains(c.util)), startup := s'.startup)
    requires Requeues(s'.queue, d) <= Requeues(s.queue, d)
    ensures RetriesLeft(s', d) == RetriesLeft(s, d) && QueuedCopies(s', d) == QueuedCopies(s, d)
  {
    EnqueueAllCounts(s.queue, AdminSystemDomains(c.util), d);
  }

  lemma InnerBudget(c: Config, s: State, a: Inner, d: string)
    requires InnerEnabled(s, a) && !EnqueuesOutside(c, s, AInner(a), d)
    ensures var s' := InnerStep(c, s, a);
            RetriesLeft(s', d) <= RetriesLeft(s, d)
            && QueuedCopies(s', d) + RetriesLeft(s', d) <= QueuedCopies(s, d) + RetriesLeft(s, d)
  {
    if a.AddAdminSystem? || a.ResyncAdminSystem? { AdminBudget(c, s, InnerStep(c, s, a), d); }
  }

  lemma CronBudget(c: Config, s: State, a: CronAction, d: string)
    requires CronEnabled(s, a) && !EnqueuesOutside(c, s, ACron(a), d)
    ensures var s' := CronStep(c, s, a);
            RetriesLeft(s', d) <= RetriesLeft(s, d)
            && QueuedCopies(s', d) + RetriesLeft(s', d) <= QueuedCopies(s, d) + RetriesLeft(s, d)
  {
  }

  /** One step without an outside enqueue of d. */
  lemma BudgetStep(c: Config, s: State, a: Action, d: string)
    requires Enabled(s, a) && !EnqueuesOutside(c, s, a, d)
    ensures var s' := Step(c, s, a);
            && One(Retries(s, a, d)) + RetriesLeft(s', d) <= RetriesLeft(s, d)
            && One(Dequeues(a, d)) + QueuedCopies(s', d) + RetriesLeft(s', d) <= QueuedCopies(s, d) + RetriesLeft(s, d)
  {
    match a
    case AInner(i) => InnerBudget(c, s, i, d);
    case AWorker(w) => WorkerBudget(c, s, w, d);
    case AOutside(_) =>
    case ACron(k) => CronBudget(c, s, k, d);
  }

  /** While nothing else enqueues d, it is retried no more often than its budget allows: at most
      3 - min(counter, 3) times when there is one copy of it. */
  lemma {:induction false} RetryBound(c: Config, states: seq<State>, actions: seq<Action>, d: string, n: nat)
    requires Segment(c, states, actions) && NoOutsideEnqueue(c, states, actions, d) && n <= |actions|
    ensures RetryCount(states, actions, d, n) + RetriesLeft(states[n], d) <= RetriesLeft(states[0], d)
    ensures DequeueCount(actions, d, n) + QueuedCopies(states[n], d) + RetriesLeft(states[n], d)
            <= QueuedCopies(states[0], d) + RetriesLeft(states[0], d)
  {
    if n > 0 {
      RetryBound(c, states, actions, d, n - 1);
      BudgetStep(c, states[n - 1], actions[n - 1], d);
    }
  }

  /** The single-copy case, and the drain: with one copy of d around, at most 3 - min(counter, 3) retries
      and at most one more dequeue than that, whatever the outcomes of its syncs. */
  lemma SingleCopyRetryBound(c: Config, states: seq<State>, actions: seq<Action>, d: string)
    requires Segment(c, states, actions) && NoOutsideEnqueue(c, states, actions, d)
    requires Copies(states[0], d) == 1
    ensures var k := Requeues(states[0].queue, d);
            var left := if k < 3 then 3 - k else 0;
            RetryCount(states, actions, d, |actions|) <= left && DequeueCount(actions, d, |actions|) <= left + 1
  {
    RetryBound(c, states, actions, d, |actions|);
  }

  // ----- what the counter counts -----

  /** How often a step enqueues d, when `count` is d's count before it: each event, each place in a resync or
      in the start-up list, each visit of the cron that finds d valid, each role of a namespace's or the
      admin domain's that trusts the uncached d, and each failure of d that is retried. */
  ghost function Enqueues(c: Config, s: State, a: Action, d: string, count: nat): nat {
    match a
    case AInner(NsHandle(ns)) => One(ns !in c.util.excludeNamespaces && NamespaceToDomain(c.util, ns) == d)
    case AInner(ResyncNamespace(ns)) => One(ns !in c.util.excludeNamespaces && NamespaceToDomain(c.util, ns) == d)
    case AInner(CrHandle(x)) => One(x == d)
    case AInner(ResyncTrust(x)) => One(x == d)
    case AInner(AddAdminSystem) => Listed(c.util, d)
    case AInner(ResyncAdminSystem) => Listed(c.util, d)
    case ACron(Visit) =>
      var pc := s.cron.pc;
      One(pc.Walking? && pc.rem != [] && pc.rem[0] == d
          && if pc.checking
             then d != "" && exists p, r ::
                    p in s.store.cache && r in s.store.cache[p].spec.domain.roles && r.trust == d
             else DomainToNamespace(c.util, d) in s.names.cache || d == c.util.adminDomain)
    case AWorker(Work(_, _)) =>
      (match s.worker
       case TrustParent(p, data, handled) =>
         One(handled < |data.domain.roles| && data.domain.roles[handled].trust == d
             && (DomainToNamespace(c.util, p) in s.names.cache || p == c.util.adminDomain))
       case Finishing(x, failed) => One(x == d && failed && count < 3)
       case _ => 0)
    case _ => 0
  }

  /** How often the start-up list and the resync have d: as the admin domain, and for each system namespace. */
  ghost function Listed(u: Util, d: string): nat {
    One(d == u.adminDomain && d != "")
    + multiset(seq(|u.systemNamespaces|, i requires 0 <= i < |u.systemNamespaces| =>
                     u.adminDomain + "." + u.systemNamespaces[i]))[d]
  }

  /** The step that gives d up. */
  predicate GivesUp(s: State, a: Action, d: string, count: nat) {
    a.AWorker? && a.w.Work? && s.worker == Finishing(d, true) && count >= 3
  }

  lemma ListedCounts(u: Util, d: string)
    ensures multiset(AdminSystemDomains(u))[d] == Listed(u, d)
    ensures d in AdminSystemDomains(u) <==> Listed(u, d) > 0
  {
    AdminSystemDomainsListed(u);
  }

  lemma CounterAdmin(c: Config, s: State, a: Inner, d: string)
    requires InnerEnabled(s, a) && (a.AddAdminSystem? || a.ResyncAdminSystem?)
    ensures Counts(c, s, InnerStep(c, s, a), AInner(a), d)
  {
    var more := Listed(c.util, d);
    ListedCounts(c.util, d);
    EnqueueAllCounts(s.queue, AdminSystemDomains(c.util), d);
    assert Enqueues(c, s, AInner(a), d, Requeues(s.queue, d)) == more;
    assert InnerStep(c, s, a).queue == EnqueueAll(s.queue, AdminSystemDomains(c.util));
  }

  lemma CounterInner(c: Config, s: State, a: Inner, d: string)
    requires InnerEnabled(s, a)
    ensures Counts(c, s, InnerStep(c, s, a), AInner(a), d)
  {
    if a.AddAdminSystem? || a.ResyncAdminSystem? { CounterAdmin(c, s, a, d); }
  }

  lemma CounterCron(c: Config, s: State, a: CronAction, d: string)
    requires CronEnabled(s, a)
    ensures Counts(c, s, CronStep(c, s, a), ACron(a), d)
  {
    TrustDomainMeans(s.store.cache, d);
  }

  lemma CounterWorker(c: Config, s: State, a: WorkerAction, d: string)
    requires WorkerEnabled(s, a)
    ensures Counts(c, s, WorkerStep(c, s, a), AWorker(a), d)
  {
  }

  /** The step from s to s' changes d's counter, and its places in the queue, by its enqueues alone. */
  ghost predicate Counts(c: Config, s: State, s': State, a: Action, d: string) {
    var count := Requeues(s.queue, d);
    var more := Enqueues(c, s, a, d, count);
    && Requeues(s'.queue, d) == (if GivesUp(s, a, d, count) then 0 else count + more)
    && (d in s'.queue.waiting <==> more > 0 || (d in s.queue.waiting && a != AInner(Ready(d))))
    && (d in s'.queue.dirty <==> a == AInner(Ready(d)) || (d in s.queue.dirty && a != AWorker(Get(d))))
    && (d in s'.queue.dropped <==>
          (GivesUp(s, a, d, count) || (a.AWorker? && a.w.Work? && s.worker == ErrorLookup(d))
           || (d in s.queue.dropped && more == 0)))
  }

  lemma CounterStep(c: Config, s: State, a: Action, d: string)
    requires Enabled(s, a)
    ensures Counts(c, s, Step(c, s, a), a, d)
  {
    match a
    case AInner(i) => CounterInner(c, s, i, d);
    case ACron(k) => CounterCron(c, s, k, d);
    case AWorker(w) => CounterWorker(c, s, w, d);
    case AOutside(_) =>
  }

  /** d's count after n steps: what it was at the start, and the enqueues since it was last given up. */
  ghost function Counted(c: Config, states: seq<State>, actions: seq<Action>, d: string, n: nat, start: nat): nat
    requires n <= |actions| < |states|
  {
    if n == 0 then start
    else
      var count := Counted(c, states, actions, d, n - 1, start);
      if GivesUp(states[n - 1], actions[n - 1], d, count) then 0
      else count + Enqueues(c, states[n - 1], actions[n - 1], d, count)
  }

  /** In every stretch of every run the counter is exactly that: no success, nor anything else, resets it. */
  lemma {:induction false} CounterCounts(c: Config, states: seq<State>, actions: seq<Action>, d: string, n: nat)
    requires Segment(c, states, actions) && n <= |actions|
    ensures Requeues(states[n].queue, d) == Counted(c, states, actions, d, n, Requeues(states[0].queue, d))
  {
    if n > 0 {
      CounterCounts(c, states, actions, d, n - 1);
      CounterStep(c, states[n - 1], actions[n - 1], d);
    }
  }

  // ----- the whole queue -----

  /** What d can still cost the worker: its dequeues to come, when nothing else enqueues it. */
  function Cost(s: State, d: string): nat { QueuedCopies(s, d) + RetriesLeft(s, d) }

  function Costs(s: State, us: seq<string>): nat {
    if us == [] then 0 else Costs(s, us[..|us| - 1]) + Cost(s, us[|us| - 1])
  }

  ghost predicate Distinct(us: seq<string>) { forall i, j :: 0 <= i < j < |us| ==> us[i] != us[j] }

  /** Every domain with a copy left is among us. */
  ghost predicate Covers(s: State, us: seq<string>) { forall d :: d !in us ==> Cost(s, d) == 0 }

  function GetCount(actions: seq<Action>, n: nat): nat
    requires n <= |actions|
  {
    if n == 0 then 0 else GetCount(actions, n - 1) + One(actions[n - 1].AWorker? && actions[n - 1].w.Get?)
  }

  ghost predicate NothingEnqueued(c: Config, states: seq<State>, actions: seq<Action>)
    requires Segment(c, states, actions)
  {
    forall d :: NoOutsideEnqueue(c, states, actions, d)
  }

  lemma {:induction false} CostsFall(c: Config, s: State, a: Action, us: seq<string>)
    requires Enabled(s, a) && (forall d :: !EnqueuesOutside(c, s, a, d)) && Distinct(us)
    ensures One(a.AWorker? && a.w.Get? && a.w.d in us) + Costs(Step(c, s, a), us) <= Costs(s, us)
  {
    if us != [] {
      var rest, d := us[..|us| - 1], us[|us| - 1];
      CostsFall(c, s, a, rest);
      BudgetStep(c, s, a, d);
      assert us == rest + [d] && d !in rest;
    }
  }

  lemma CoversStep(c: Config, s: State, a: Action, us: seq<string>)
    requires Enabled(s, a) && (forall d :: !EnqueuesOutside(c, s, a, d)) && Covers(s, us)
    ensures Covers(Step(c, s, a), us)
    ensures a.AWorker? && a.w.Get? ==> a.w.d in us
  {
    forall d | d !in us ensures Cost(Step(c, s, a), d) == 0 { BudgetStep(c, s, a, d); }
  }

  /** While nothing is enqueued from outside, dequeues are paid for out of the costs of the start. */
  lemma {:induction false} DrainBound(c: Config, states: seq<State>, actions: seq<Action>, us: seq<string>, n: nat)
    requires Segment(c, states, actions) && NothingEnqueued(c, states, actions) && n <= |actions|
    requires Distinct(us) && Covers(states[0], us)
    ensures Covers(states[n], us)
    ensures GetCount(actions, n) + Costs(states[n], us) <= Costs(states[0], us)
  {
    if n > 0 {
      DrainBound(c, states, actions, us, n - 1);
      var s, a := states[n - 1], actions[n - 1];
      forall d ensures !EnqueuesOutside(c, s, a, d) { assert NoOutsideEnqueue(c, states, actions, d); }
      CostsFall(c, s, a, us);
      CoversStep(c, s, a, us);
    }
  }

  lemma {:induction false} NoCostsNoneQueued(s: State, us: seq<string>, d: string)
    requires Costs(s, us) == 0 && d in us
    ensures !Queued(s.queue, d)
  {
    if d != us[|us| - 1] { NoCostsNoneQueued(s, us[..|us| - 1], d); }
  }

  /** Once that many items have been dequeued, the queue is empty. */
  lemma EmptyWhenSpent(c: Config, states: seq<State>, actions: seq<Action>, us: seq<string>)
    requires Segment(c, states, actions) && NothingEnqueued(c, states, actions)
    requires Distinct(us) && Covers(states[0], us) && GetCount(actions, |actions|) >= Costs(states[0], us)
    ensures var q := states[|actions|].queue; q.waiting == {} && q.dirty == {}
  {
    DrainBound(c, states, actions, us, |actions|);
    var s := states[|actions|];
    forall d ensures d !in s.queue.waiting && d !in s.queue.dirty {
      if d in us { NoCostsNoneQueued(s, us, d); } else { assert Cost(s, d) == 0; }
    }
  }

  // ----- the worker that always fails -----

  /** The worker's own steps when neither ZMS nor the API server ever serves it. */
  predicate Fails(a: Action) {
    match a
    case AInner(i) => i.Ready?
    case AWorker(w) => w.Get? || w == Work(OtherError, Refused)
    case _ => false
  }

  /** Such a worker never has anything to write or to walk. */
  predicate HoldsNothing(w: Worker) {
    w.Idle? || w.Started? || w.NotNamespace? || w.Fetching? || w.Removing? || w.Deleting? || w.Finishing?
  }

  lemma FailingEnqueuesNothing(c: Config, s: State, a: Action, d: string)
    requires Enabled(s, a) && Fails(a) && HoldsNothing(s.worker)
    ensures HoldsNothing(Step(c, s, a).worker) && !EnqueuesOutside(c, s, a, d)
  {
  }

  ghost predicate FailingRun(c: Config, states: seq<State>, actions: seq<Action>) {
    && Segment(c, states, actions) && HoldsNothing(states[0].worker)
    && forall i :: 0 <= i < |actions| ==> Fails(actions[i])
  }

  lemma {:induction false} FailingRunEnqueuesNothing(c: Config, states: seq<State>, actions: seq<Action>, n: nat)
    requires FailingRun(c, states, actions) && n <= |actions|
    ensures HoldsNothing(states[n].worker)
    ensures forall i, d :: 0 <= i < n ==> !EnqueuesOutside(c, states[i], actions[i], d)
  {
    if n > 0 {
      FailingRunEnqueuesNothing(c, states, actions, n - 1);
      var s, a := states[n - 1], actions[n - 1];
      forall d ensures !EnqueuesOutside(c, s, a, d) { FailingEnqueuesNothing(c, s, a, d); }
      FailingEnqueuesNothing(c, s, a, "");
    }
  }

  /** How far the worker is from its next item. */
  function FailingStage(w: Worker): nat {
    match w
    case Started(_) => 6
    case NotNamespace(_) => 5
    case Removing(_) => 4
    case Deleting(_) => 3
    case Fetching(_) => 3
    case Finishing(_, _) => 2
    case _ => 0
  }

  /** Bounds the steps that a failing worker has left. */
  function Fuel(s: State, us: seq<string>): nat { 8 * Costs(s, us) + |s.queue.waiting| + FailingStage(s.worker) }

  /** Apart from dequeues, every step of a failing worker brings the item in hand nearer its end or takes
      one out of the delayed set. */
  lemma FailingStepNears(c: Config, s: State, a: Action)
    requires Enabled(s, a) && Fails(a) && HoldsNothing(s.worker)
    ensures var s' := Step(c, s, a);
            |s'.queue.waiting| + FailingStage(s'.worker) + 1
            <= |s.queue.waiting| + FailingStage(s.worker) + if a.AWorker? && a.w.Get? then 7 else 0
  {
  }

  lemma {:induction false} FailingRunIsShort(c: Config, states: seq<State>, actions: seq<Action>, us: seq<string>,
                                             n: nat)
    requires FailingRun(c, states, actions) && n <= |actions|
    requires Distinct(us) && Covers(states[0], us)
    ensures Covers(states[n], us) && n + Fuel(states[n], us) <= Fuel(states[0], us)
  {
    if n > 0 {
      FailingRunIsShort(c, states, actions, us, n - 1);
      FailingRunEnqueuesNothing(c, states, actions, n);
      FailingRunEnqueuesNothing(c, states, actions, n - 1);
      var s, a := states[n - 1], actions[n - 1];
      CostsFall(c, s, a, us);
      CoversStep(c, s, a, us);
      FailingStepNears(c, s, a);
    }
  }

  lemma FailingStepThere(s: State) returns (a: Action)
    requires s.startup.Up? && HoldsNothing(s.worker)
             && !(s.worker.Idle? && s.queue.waiting == {} && s.queue.dirty == {})
    ensures Enabled(s, a) && Fails(a)
  {
    if d :| d in s.queue.waiting {
      a := AInner(Ready(d));
    } else if !s.worker.Idle? {
      a := AWorker(Work(OtherError, Refused));
    } else {
      var d :| d in s.queue.dirty;
      a := AWorker(Get(d));
    }
  }

  /** An always-failing worker drains its queue: its runs are bounded by their start, and one that cannot
      go on has nothing queued and nothing in hand. */
  lemma FailingWorkerDrains(c: Config, states: seq<State>, actions: seq<Action>, us: seq<string>)
    requires FailingRun(c, states, actions) && states[0].startup.Up?
    requires Distinct(us) && Covers(states[0], us)
    ensures |actions| <= Fuel(states[0], us)
    ensures var t := states[|actions|];
            (forall a :: Enabled(t, a) ==> !Fails(a)) ==> t.worker.Idle? && t.queue.waiting == {} && t.queue.dirty == {}
  {
    FailingRunIsShort(c, states, actions, us, |actions|);
    FailingRunEnqueuesNothing(c, states, actions, |actions|);
    StaysUp(c, states, actions, |actions|);
    var t := states[|actions|];
    if !(t.worker.Idle? && t.queue.waiting == {} && t.queue.dirty == {}) {
      var a := FailingStepThere(t);
    }
  }

  lemma {:induction false} StaysUp(c: Config, states: seq<State>, actions: seq<Action>, n: nat)
    requires Segment(c, states, actions) && states[0].startup.Up? && n <= |actions|
    ensures states[n].startup.Up?
  {
    if n > 0 { StaysUp(c, states, actions, n - 1); }
  }

  // ----- when three retries are the bound -----

  /** From s, a stretch of some run with r retries of d and no outside enqueue of it leads to t. */
  ghost predicate Stretch(c: Config, s: State, t: State, d: string, r: nat) {
    exists states, actions :: StretchBy(c, states, actions, s, t, d, r)
  }

  ghost predicate StretchBy(c: Config, states: seq<State>, actions: seq<Action>, s: State, t: State, d: string,
                            r: nat) {
    && Segment(c, states, actions) && NoOutsideEnqueue(c, states, actions, d)
    && states[0] == s && states[|actions|] == t && RetryCount(states, actions, d, |actions|) == r
  }

  lemma {:induction false} RetryCountOfPrefix(states: seq<State>, actions: seq<Action>, t: State, a: Action,
                                              d: string, n: nat)
    requires n <= |actions| && |states| == |actions| + 1
    ensures RetryCount(states + [t], actions + [a], d, n) == RetryCount(states, actions, d, n)
  {
    if n > 0 { RetryCountOfPrefix(states, actions, t, a, d, n - 1); }
  }

  lemma StretchSelf(c: Config, s: State, d: string)
    ensures Stretch(c, s, s, d, 0)
  {
    assert StretchBy(c, [s], [], s, s, d, 0);
  }

  lemma StretchOn(c: Config, s: State, t: State, d: string, r: nat, a: Action)
    requires Stretch(c, s, t, d, r) && Enabled(t, a) && !EnqueuesOutside(c, t, a, d)
    ensures Stretch(c, s, Step(c, t, a), d, r + One(Retries(t, a, d)))
  {
    var states, actions :| StretchBy(c, states, actions, s, t, d, r);
    var u := Step(c, t, a);
    SegmentOn(c, states, actions, a, u);
    QuietOn(c, states, actions, d, a, u);
    RetryCountOfPrefix(states, actions, u, a, d, |actions|);
    assert StretchBy(c, states + [u], actions + [a], s, u, d, r + One(Retries(t, a, d)));
  }

  lemma SegmentOn(c: Config, states: seq<State>, actions: seq<Action>, a: Action, u: State)
    requires Segment(c, states, actions) && Enabled(states[|actions|], a) && u == Step(c, states[|actions|], a)
    ensures Segment(c, states + [u], actions + [a])
  {
    var states', actions' := states + [u], actions + [a];
    forall i | 0 <= i < |actions'|
      ensures Enabled(states'[i], actions'[i]) && states'[i + 1] == Step(c, states'[i], actions'[i])
    {
      if i < |actions| {
        assert states'[i] == states[i] && states'[i + 1] == states[i + 1] && actions'[i] == actions[i];
      } else {
        assert states'[i] == states[|actions|] && states'[i + 1] == u && actions'[i] == a;
      }
    }
  }

  lemma QuietOn(c: Config, states: seq<State>, actions: seq<Action>, d: string, a: Action, u: State)
    requires Segment(c, states, actions) && Segment(c, states + [u], actions + [a])
    requires NoOutsideEnqueue(c, states, actions, d)
    requires Enabled(states[|actions|], a) && !EnqueuesOutside(c, states[|actions|], a, d)
    ensures NoOutsideEnqueue(c, states + [u], actions + [a], d)
  {
    var states', actions' := states + [u], actions + [a];
    forall i | 0 <= i < |actions'| ensures !EnqueuesOutside(c, states'[i], actions'[i], d) {
      if i < |actions| {
        assert states'[i] == states[i] && actions'[i] == actions[i];
      } else {
        assert states'[i] == states[|actions|] && actions'[i] == a;
      }
    }
  }

  /** Only the namespaces' cache and their handler calls differ. */
  predicate OnlyNames(t: State, u: State) { u == t.(names := u.names) }

  lemma {:induction false} NamesArrive(c: Config, s: State, t: State, d: string, r: nat, ns: string) returns (u: State)
    requires Stretch(c, s, t, d, r) && !t.worker.Crashed?
    requires var e := Events(t.names.watch, ns); if e == [] then ns in t.names.cache else e[|e| - 1]
    ensures Stretch(c, s, u, d, r) && OnlyNames(t, u) && ns in u.names.cache
    decreases |Events(t.names.watch, ns)|
  {
    u := t;
    if Events(t.names.watch, ns) != [] {
      var a := AInner(NsDeliver(ns));
      StretchOn(c, s, t, d, r, a);
      u := Step(c, t, a);
      assert Events(u.names.watch, ns) == Events(t.names.watch, ns)[1..];
      u := NamesArrive(c, s, u, d, r, ns);
    }
  }

  /** d's namespace is created, and the cache learns of it. */
  lemma NamespaceCreated(c: Config, s: State, t: State, d: string, r: nat) returns (u: State)
    requires Stretch(c, s, t, d, r) && !t.worker.Crashed?
    ensures Stretch(c, s, u, d, r) && OnlyNames(t, u) && DomainToNamespace(c.util, d) in u.names.cache
  {
    var ns := DomainToNamespace(c.util, d);
    var a := AOutside(NsChange(ns, true));
    StretchOn(c, s, t, d, r, a);
    u := NamesArrive(c, s, Step(c, t, a), d, r, ns);
  }

  /** The worker has failed on d, which can be found valid and is queued for another turn. */
  predicate FailedWithSpare(c: Config, t: State, d: string) {
    && t.startup.Up? && t.worker == Finishing(d, true) && d in t.queue.dirty
    && DomainToNamespace(c.util, d) in t.names.cache
  }

  lemma MadeReady(c: Config, s: State, t: State, d: string, r: nat) returns (u: State)
    requires Stretch(c, s, t, d, r) && !t.worker.Crashed? && d in t.queue.waiting
    ensures u == t.(queue := t.queue.(waiting := t.queue.waiting - {d}, dirty := t.queue.dirty + {d}))
            && Stretch(c, s, u, d, r)
  {
    StretchOn(c, s, t, d, r, AInner(Ready(d)));
    u := Step(c, t, AInner(Ready(d)));
  }

  /** The ready item is taken and fails at ZMS. */
  lemma TakenUpAndFails(c: Config, s: State, t: State, d: string, r: nat) returns (u: State)
    requires Stretch(c, s, t, d, r) && t.startup.Up? && t.worker.Idle? && d in t.queue.dirty
    requires DomainToNamespace(c.util, d) in t.names.cache
    ensures u == t.(queue := t.queue.(dirty := t.queue.dirty - {d}), worker := Finishing(d, true))
            && Stretch(c, s, u, d, r)
  {
    var fail, get := AWorker(Work(OtherError, Refused)), AWorker(Get(d));
    StretchOn(c, s, t, d, r, get);
    u := Step(c, t, get);
    StretchOn(c, s, u, d, r, fail);
    u := Step(c, u, fail);
    StretchOn(c, s, u, d, r, fail);
    u := Step(c, u, fail);
  }

  /** Its failure is retried or given up. */
  lemma FailureSettled(c: Config, s: State, t: State, d: string, r: nat) returns (u: State)
    requires Stretch(c, s, t, d, r) && t.startup.Up? && t.worker == Finishing(d, true)
    ensures u == t.(queue := Settle(t.queue, d, true), worker := Idle)
    ensures Stretch(c, s, u, d, r + One(Requeues(t.queue, d) < 3))
  {
    var fail := AWorker(Work(OtherError, Refused));
    StretchOn(c, s, t, d, r, fail);
    u := Step(c, t, fail);
  }

  /** A failure within the allowed number is retried, and the other copy taken up and failed. */
  lemma FailsAgain(c: Config, s: State, t: State, d: string, r: nat) returns (u: State)
    requires Stretch(c, s, t, d, r) && FailedWithSpare(c, t, d) && Requeues(t.queue, d) < 3
    ensures Stretch(c, s, u, d, r + 1) && FailedWithSpare(c, u, d) && Requeues(u.queue, d) == Requeues(t.queue, d) + 1
  {
    var v := FailureSettled(c, s, t, d, r);
    var w := TakenUpAndFails(c, s, v, d, r + 1);
    u := MadeReady(c, s, w, d, r + 1);
  }

  /** A failure beyond it is given up, which resets the counter, and the other copy is retried. */
  lemma SpareRetried(c: Config, s: State, t: State, d: string, r: nat) returns (u: State)
    requires Stretch(c, s, t, d, r) && FailedWithSpare(c, t, d) && Requeues(t.queue, d) >= 3
    ensures Stretch(c, s, u, d, r + 1)
  {
    var v := FailureSettled(c, s, t, d, r);
    var w := TakenUpAndFails(c, s, v, d, r);
    u := FailureSettled(c, s, w, d, r);
  }

  lemma {:induction false} RetriesUsedUp(c: Config, s: State, t: State, d: string, r: nat) returns (u: State, used: nat)
    requires Stretch(c, s, t, d, r) && FailedWithSpare(c, t, d)
    ensures Stretch(c, s, u, d, used) && FailedWithSpare(c, u, d)
    ensures used == r + Allowed(t.queue, d) && Requeues(u.queue, d) >= 3
    decreases Allowed(t.queue, d)
  {
    if Requeues(t.queue, d) >= 3 {
      u, used := t, r;
    } else {
      var v := FailsAgain(c, s, t, d, r);
      u, used := RetriesUsedUp(c, s, v, d, r + 1);
    }
  }

  /** The retries that the counter leaves: 3 - min(counter, 3). */
  function Allowed(q: Queue, d: string): nat { if Requeues(q, d) < 3 then 3 - Requeues(q, d) else 0 }

  /** A copy that is queued besides can be made the spare. */
  lemma SpareMade(c: Config, s: State, d: string) returns (u: State)
    requires s.startup.Up? && s.worker == Finishing(d, true) && Queued(s.queue, d)
    ensures Stretch(c, s, u, d, 0) && FailedWithSpare(c, u, d) && Allowed(u.queue, d) == Allowed(s.queue, d)
  {
    StretchSelf(c, s, d);
    var t := s;
    if d !in s.queue.dirty { t := MadeReady(c, s, s, d, 0); }
    u := NamespaceCreated(c, s, t, d, 0);
  }

  /** A queued copy brings one retry more than the counter allows. */
  lemma SpareCopyIsRetried(c: Config, s: State, d: string) returns (u: State, r: nat)
    requires s.startup.Up? && s.worker == Finishing(d, true) && Queued(s.queue, d)
    ensures Stretch(c, s, u, d, r) && r > Allowed(s.queue, d)
  {
    var v := SpareMade(c, s, d);
    u, r := SpareUsedUp(c, s, v, d);
  }

  lemma SpareUsedUp(c: Config, s: State, v: State, d: string) returns (u: State, r: nat)
    requires Stretch(c, s, v, d, 0) && FailedWithSpare(c, v, d)
    ensures Stretch(c, s, u, d, r) && r > Allowed(v.queue, d)
  {
    var w, used := RetriesUsedUp(c, s, v, d, 0);
    u := SpareRetried(c, s, w, d, used);
    r := used + 1;
  }

  /** When the worker has failed on d, at most 3 - min(counter, 3) retries follow in every stretch of every
      run that nothing else enqueues d in, exactly when d is not queued besides. */
  lemma ThreeRetriesExactly(c: Config, s: State, d: string)
    requires s.startup.Up? && s.worker == Finishing(d, true)
    ensures (forall t, r: nat :: Stretch(c, s, t, d, r) ==> r <= Allowed(s.queue, d)) <==> !Queued(s.queue, d)
  {
    if Queued(s.queue, d) {
      var u, r := SpareCopyIsRetried(c, s, d);
    } else {
      forall t, r: nat | Stretch(c, s, t, d, r) ensures r <= Allowed(s.queue, d) {
        var states, actions :| StretchBy(c, states, actions, s, t, d, r);
        SingleCopyRetryBound(c, states, actions, d);
      }
    }
  }

  // ----- errors that are not retried -----

  /** A ZMS error that is neither a 404 nor foreign is not retried: the worker crashes, or ends its item
      as a success with d given up and not queued again. */
  lemma ResourceErrorIsNotRetried(c: Config, s: State, zms: ZmsReply, api: ApiReply, api': ApiReply)
    requires WorkerEnabled(s, Work(zms, api)) && s.worker.ErrorLookup?
    ensures var d := s.worker.d;
            var s1 := WorkerStep(c, s, Work(zms, api));
            d in s1.queue.dropped
            && (if d in s.store.cache then s1.worker == Crashed(d)
                else WorkerEnabled(s1, Work(zms, api'))
                     && WorkerStep(c, s1, Work(zms, api')) == s.(queue := s1.queue, worker := Idle)
                     && s1.queue == s.queue.(dropped := s.queue.dropped + {d}))
  {
  }
}
