/** No cached resource is forgotten: it is valid, or something under way will look at it again, or a
    full resync will. And what the three protocol invariants say once nothing is under way. */
module Garbage {
  import opened Codec
  import opened Options
  import opened Resources
  import opened Protocol
  import opened Consistency
  import opened NoLostUpdate
  import opened TrustClosure

  /** The worker has d in hand before having found it valid, or on the way to deleting or retrying it. */
  predicate BeingJudged(s: State, d: string) {
    match s.worker
    case Started(x) => x == d
    case NotNamespace(x) => x == d
    case Removing(x) => x == d
    case Deleting(x) => x == d
    case Finishing(x, failed) => x == d && failed
    case _ => false
  }

  predicate Tracked(c: Config, s: State, d: string) {
    d in s.store.cache && Follows(c, d) ==>
      || IsNamespaceOrAdmin(c.util, s.names.cache, d) || d in s.store.keys
      || Coming(c, s, d) || d in s.queue.dropped || BeingJudged(s, d)
  }

  predicate InnerTrackEffect(c: Config, s: State, s': State, d: string) {
    && s'.worker == s.worker && s.store.keys <= s'.store.keys
    && (Coming(c, s, d) ==> Coming(c, s', d))
    && (d in s.queue.dropped ==> d in s'.queue.dropped || Queued(s'.queue, d))
    && (d in s'.store.cache ==> d in s.store.cache || CrPending(s'.store, d))
    && (Follows(c, d) && IsNamespaceOrAdmin(c.util, s.names.cache, d) ==>
          IsNamespaceOrAdmin(c.util, s'.names.cache, d) || EventPending(c, s', d))
  }

  lemma InnerHasTrackEffect(c: Config, s: State, a: Inner, d: string)
    requires InnerEnabled(s, a) && IndexCovers(s.store) && c.retainKeys
    ensures InnerTrackEffect(c, s, InnerStep(c, s, a), d)
  {
    InnerHasEffect(c, s, a, d);
    IndexStep(c, s, AInner(a));
  }

  lemma InnerTracked(c: Config, s: State, s': State, d: string)
    requires InnerTrackEffect(c, s, s', d) && Tracked(c, s, d)
    ensures Tracked(c, s', d)
  {
  }

  lemma WorkerTracked(c: Config, s: State, a: WorkerAction, d: string)
    requires WorkerEnabled(s, a) && IndexCovers(s.store) && Tracked(c, s, d)
    ensures Tracked(c, WorkerStep(c, s, a), d)
  {
    WorkerFrame(c, s, a);
  }

  lemma TrackedStep(c: Config, s: State, a: Action, d: string)
    requires Enabled(s, a) && IndexCovers(s.store) && c.retainKeys && Tracked(c, s, d)
    ensures Tracked(c, Step(c, s, a), d)
  {
    match a
    case AOutside(o) =>
    case AInner(i) =>
      InnerHasTrackEffect(c, s, i, d);
      InnerTracked(c, s, Step(c, s, a), d);
    case ACron(_) =>
    case AWorker(w) => WorkerTracked(c, s, w, d);
  }

  /** With retained index keys, in every state of every run: a cached resource with a canonical,
      non-excluded name is of a namespace or the admin domain, is a key of the trust index and so part of
      every full resync, is queued or awaits an event, is given up, or is being judged. */
  lemma {:induction false} GarbageIsTracked(c: Config, states: seq<State>, actions: seq<Action>, i: nat, d: string)
    requires Run(c, states, actions) && i < |states| && c.retainKeys
    ensures Tracked(c, states[i], d)
  {
    if i > 0 {
      GarbageIsTracked(c, states, actions, i - 1, d);
      RunConsistent(c, states, actions, i - 1);
      TrackedStep(c, states[i - 1], actions[i - 1], d);
    }
  }

  /** Nothing is queued, on its way or in hand. */
  ghost predicate Quiet(s: State) {
    && s.startup.Up? && s.worker.Idle? && s.cron.pc.Resting?
    && s.queue.waiting == {} && s.queue.dirty == {}
    && s.names.notify == multiset{} && s.store.notify == multiset{}
    && (forall ns :: Events(s.names.watch, ns) == []) && (forall d :: Events(s.store.watch, d) == [])
  }

  /** What ZMS has of d the cron has already asked for. */
  predicate Seen(s: State, d: string) {
    d in s.zms.domains && !Newer(s.zms.domains[d].domain.modified, s.cron.etag)
  }

  /** In a quiet state nothing has gone wrong unnoticed: anchored domains are current, the domains they
      trust are cached unless ZMS lacked them when last asked, and uncollected garbage is known to the
      trust index, but for what was given up. */
  lemma QuietMeansSynced(c: Config, states: seq<State>, actions: seq<Action>, i: nat)
    requires Run(c, states, actions) && i < |states| && Quiet(states[i])
    ensures var s := states[i];
            && (forall d :: Anchored(c, s, d) && Seen(s, d) && d !in s.queue.dropped ==> Current(c, s, d))
            && (forall p, t :: OpenLink(c, s, p, t) ==>
                  (LastSeenLacking(states, actions, i, t) && !Seen(s, t)) || t in s.queue.dropped
                    || p in s.queue.dropped)
            && (c.retainKeys ==> forall d :: d in s.store.cache && Follows(c, d) && d !in s.queue.dropped ==>
                  IsNamespaceOrAdmin(c.util, s.names.cache, d) || d in s.store.keys)
            && s.store.cache == s.store.server && s.names.cache == s.names.server
  {
    var s := states[i];
    forall d | Anchored(c, s, d) && Seen(s, d) && d !in s.queue.dropped ensures Current(c, s, d) {
      NoUpdateIsLost(c, states, actions, i, d);
    }
    forall p, t | OpenLink(c, s, p, t)
      ensures (LastSeenLacking(states, actions, i, t) && !Seen(s, t)) || t in s.queue.dropped || p in s.queue.dropped
    {
      TrustIsClosed(c, states, actions, i, p, t);
    }
    if c.retainKeys {
      forall d | d in s.store.cache && Follows(c, d) && d !in s.queue.dropped
        ensures IsNamespaceOrAdmin(c.util, s.names.cache, d) || d in s.store.keys
      {
        GarbageIsTracked(c, states, actions, i, d);
      }
    }
    RunConsistent(c, states, actions, i);
    forall d ensures Lookup(s.store.cache, d) == Lookup(s.store.server, d) { assert CrSynced(s.store, d); }
    assert forall d :: d in s.store.cache <==> Lookup(s.store.cache, d).Some?;
    assert forall d :: d in s.store.server <==> Lookup(s.store.server, d).Some?;
    forall d | d in s.store.cache ensures d in s.store.server && s.store.cache[d] == s.store.server[d] {
      assert Lookup(s.store.cache, d) == Some(s.store.cache[d]);
    }
    assert s.store.cache.Keys == s.store.server.Keys;
    forall ns ensures ns in s.names.cache <==> ns in s.names.server { assert NameSynced(s.names, ns); }
  }
}
