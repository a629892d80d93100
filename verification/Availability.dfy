/** What the reconciler guarantees of the cache in every interleaving: no served host is lost, and
    the live hosts are those of the tracked registries. */
module Availability {
  import opened Wrappers
  import opened ServiceCache
  import opened Direct
  import opened Reconciling

  ghost predicate Valid(validIp: string -> bool, config: RegistryConfig) {
    EntryOf(config, validIp).Some?
  }

  /** The tracked watcher of `k` has pushed a well-formed entry. */
  ghost predicate Pushes(validIp: string -> bool, c: Core, k: Key) {
    TrackedAt(c, k) && c.all[c.watchers[k]].phase != Started && Valid(validIp, c.registries[k])
  }

  ghost predicate Serving(validIp: string -> bool, c: Core) {
    forall k :: Pushes(validIp, c, k) ==> HostOf(k) in Live(c.cache)
  }

  lemma SameHost(c: Core, k: Key, j: Key)
    requires Tracking(c) && k in c.watchers && j in c.watchers && HostOf(k) == HostOf(j)
    ensures k == j
  {
    hide Host;
    assert TrackedAt(c, k) && TrackedAt(c, j);
    assert OwnedAt(c, c.watchers[k]) && OwnedAt(c, c.watchers[j]);
    HostInjective(k.kind, k.name, j.kind, j.name);
  }

  // ---- Presence -----------------------------------------------------------------

  lemma StopServes(validIp: string -> bool, c: Core, k: Key)
    requires Tracking(c) && Serving(validIp, c) && Stoppable(c, k)
    ensures Serving(validIp, StopWatcher(c, k))
  {
    hide Host, Valid, Tracking;
    var c' := StopWatcher(c, k);
    forall j | Pushes(validIp, c', j)
      ensures HostOf(j) in Live(c'.cache)
    {
      assert j != k && j in c.watchers;
      Untouched(c, k, j);
      assert Pushes(validIp, c, j);
      if HostOf(j) == HostOf(k) { SameHost(c, j, k); }
    }
  }

  /** Stopping `k` leaves the watcher of another key alone. */
  lemma Untouched(c: Core, k: Key, j: Key)
    requires Tracking(c) && Stoppable(c, k) && j in c.watchers && j != k
    ensures TrackedAt(c, j) && TrackedAt(StopWatcher(c, k), j)
    ensures StopWatcher(c, k).all[c.watchers[j]] == c.all[c.watchers[j]]
  {
    hide DeleteService;
    assert TrackedAt(c, j) && TrackedAt(c, k);
  }

  lemma StartServes(validIp: string -> bool, c: Core, k: Key, config: RegistryConfig)
    requires Tracking(c) && Serving(validIp, c)
    ensures Serving(validIp, StartWatcher(c, k, config))
  {
    hide Host, Valid;
    var c' := StartWatcher(c, k, config);
    forall j | Pushes(validIp, c', j)
      ensures HostOf(j) in Live(c'.cache)
    {
      assert j != k;
      assert TrackedAt(c, j);
      assert Pushes(validIp, c, j);
    }
  }

  lemma PushServes(validIp: string -> bool, c: Core, id: nat, now: nat)
    requires Tracking(c) && Serving(validIp, c) && id < |c.all|
    ensures Serving(validIp, Push(validIp, c, id, now))
  {
    hide Host, EntryOf;
    var c' := Push(validIp, c, id, now);
    forall j | Pushes(validIp, c', j)
      ensures HostOf(j) in Live(c'.cache)
    {
      assert TrackedAt(c, j);
      if c.watchers[j] == id {
        assert OwnedAt(c, id);
      } else {
        assert Pushes(validIp, c, j);
      }
    }
  }

  /** Nothing but Stop takes a host out of the live set. */
  lemma LiveGrows(validIp: string -> bool, s: State, a: Action)
    requires Enabled(s, a) && !a.StopDeleted? && !a.StopUpdated?
    ensures Live(s.core.cache) <= Live(CoreAfter(validIp, s, a).cache)
  {
    hide EntryOf, Host;
  }

  lemma ServingStep(validIp: string -> bool, s: State, a: Action)
    requires Tracking(s.core) && Serving(validIp, s.core) && Enabled(s, a)
    ensures Serving(validIp, CoreAfter(validIp, s, a))
  {
    hide Tracking, Valid, StopWatcher, StartWatcher, Live, Apply, Purge, Published;
    match a
    case StopDeleted(k) => StopServes(validIp, s.core, k);
    case StopUpdated(k) => StopServes(validIp, s.core, k);
    case StartUpdated => StartServes(validIp, s.core, s.pc.mid.value, s.pc.desired[s.pc.mid.value]);
    case StartCreated(k) => StartServes(validIp, s.core, k, s.pc.desired[k]);
    case Publish(id, now) => PushServes(validIp, s.core, id, now);
    case _ =>
      LiveGrows(validIp, s, a);
      forall j | Pushes(validIp, CoreAfter(validIp, s, a), j)
        ensures HostOf(j) in Live(CoreAfter(validIp, s, a).cache)
      {
        assert Pushes(validIp, s.core, j);
      }
  }

  ghost predicate Inv(validIp: string -> bool, s: State) {
    Tracking(s.core) && PcOk(s.core, s.pc) && Serving(validIp, s.core)
  }

  lemma InvStep(validIp: string -> bool, s: State, a: Action, s': State)
    requires Inv(validIp, s) && Steps(validIp, s, a, s')
    ensures Inv(validIp, s')
  {
    hide Tracking, PcOk, Serving, CoreAfter, PcAfter, Enabled;
    TrackStep(validIp, s, a);
    PcStep(validIp, s, a);
    ServingStep(validIp, s, a);
  }

  lemma TrackStep(validIp: string -> bool, s: State, a: Action)
    requires Tracking(s.core) && PcOk(s.core, s.pc) && Enabled(s, a)
    ensures Tracking(CoreAfter(validIp, s, a))
  {
    hide Tracking, StopWatcher, StartWatcher, Apply, Purge, Published;
    match a
    case StopDeleted(k) => StopTracks(s.core, k);
    case StopUpdated(k) => StopTracks(s.core, k);
    case StartUpdated => StartTracks(s.core, s.pc.mid.value, s.pc.desired[s.pc.mid.value]);
    case StartCreated(k) => StartTracks(s.core, k, s.pc.desired[k]);
    case _ =>
      OtherMovesOn(validIp, s, a);
      MovedOnTracks(s.core, CoreAfter(validIp, s, a));
  }

  /** In every interleaving the watcher and registry maps have the same keys, each tracked watcher
      runs its registry's configuration, and every pushed, well-formed registry is served. */
  lemma {:induction false} AlwaysServing(validIp: string -> bool, states: seq<State>, actions: seq<Action>, i: nat)
    requires Trace(validIp, states, actions) && i <= |actions|
    ensures Inv(validIp, states[i])
    ensures states[i].core.watchers.Keys == states[i].core.registries.Keys
  {
    hide PcOk, Serving, CoreAfter, PcAfter, Enabled;
    if i > 0 {
      AlwaysServing(validIp, states, actions, i - 1);
      assert Steps(validIp, states[i - 1], actions[i - 1], states[i]);
      InvStep(validIp, states[i - 1], actions[i - 1], states[i]);
    } else {
      InitInv(validIp);
    }
  }

  lemma InitInv(validIp: string -> bool)
    ensures Inv(validIp, INIT)
  {
  }

  // ---- No gap -------------------------------------------------------------------

  /** A host leaves the cache only in the purge that ends a Reconcile. If a tracked, well-formed
      registry owns it, that registry's Run is still pending, the watcher was created by an
      earlier Reconcile, and some tracked Run was already pending when this one began. */
  lemma HostLeaves(validIp: string -> bool, s: State, a: Action, s': State, k: Key)
    requires Inv(validIp, s) && Steps(validIp, s, a, s')
    requires HostOf(k) in s.core.cache.services && HostOf(k) !in s'.core.cache.services
    ensures a.PurgeStep? && HostOf(k) in s.core.cache.stale
    ensures k in s.core.registries && Valid(validIp, s.core.registries[k]) ==>
              && TrackedAt(s.core, k) && s.core.all[s.core.watchers[k]].phase == Started
              && s.core.watchers[k] < s.pc.first && !s.pc.calm
  {
    hide Host, Valid;
    OnlyPurgeRemoves(validIp, s, a);
    if k in s.core.registries && Valid(validIp, s.core.registries[k]) {
      assert TrackedAt(s.core, k);
      assert !Pushes(validIp, s.core, k);
      assert !DoneAt(s.core, s.core.watchers[k]);
    }
  }

  lemma OnlyPurgeRemoves(validIp: string -> bool, s: State, a: Action)
    requires Enabled(s, a)
    ensures !a.PurgeStep? ==> s.core.cache.services.Keys <= CoreAfter(validIp, s, a).cache.services.Keys
  {
    hide EntryOf, Host;
  }

  /** Exactly when a purge drops the host of a tracked, well-formed registry: its Run is pending
      and its predecessor's tombstone is still there. */
  lemma GapExactly(validIp: string -> bool, s: State, s': State, k: Key)
    requires Inv(validIp, s) && Steps(validIp, s, PurgeStep, s') && HostOf(k) in s.core.cache.services
    requires k in s.core.registries && Valid(validIp, s.core.registries[k])
    ensures HostOf(k) !in s'.core.cache.services <==>
              s.core.all[s.core.watchers[k]].phase == Started && HostOf(k) in s.core.cache.stale
  {
    hide Host, Valid;
    assert TrackedAt(s.core, k);
    if s.core.all[s.core.watchers[k]].phase != Started { assert Pushes(validIp, s.core, k); }
  }

  /** The host of `k` hangs on a Run that has not begun: its predecessor's tombstone is still there,
      and the new specification does not restart the registry. */
  ghost predicate Exposed(c: Core, desired: Spec, k: Key) {
    && TrackedAt(c, k) && k in desired && desired[k] == c.registries[k]
    && c.all[c.watchers[k]].phase == Started && HostOf(k) in c.cache.stale
  }

  /** A watcher of `k` that is older than the call has its host live. */
  ghost predicate Guarded(c: Core, k: Key, first: nat) {
    k in c.watchers && c.watchers[k] < first ==> HostOf(k) in Live(c.cache)
  }

  /** The same call of Reconcile, in which `k` is guarded once it is not to be updated any more; or
      the end of that call. */
  ghost predicate InCall(s: State, desired: Spec, k: Key) {
    s.pc.Idle? || (s.pc.desired == desired && ((s.pc.Working? && k in s.pc.toUpdate) || Guarded(s.core, k, s.pc.first)))
  }

  lemma BeginGuards(validIp: string -> bool, s: State, s': State, desired: Spec, k: Key)
    requires Inv(validIp, s) && Steps(validIp, s, Begin(desired), s')
    requires k in desired && Valid(validIp, desired[k]) && HostOf(k) in s.core.cache.services &&
              !Exposed(s.core, desired, k)
    ensures InCall(s', desired, k)
  {
    hide Host, Valid;
    if k in s.core.watchers {
      assert TrackedAt(s.core, k);
      if desired[k] == s.core.registries[k] && s.core.all[s.core.watchers[k]].phase != Started {
        assert Pushes(validIp, s.core, k);
      }
    }
  }

  /** Stopping another registry leaves the host live; stopping this one ends the obligation. */
  lemma StopGuards(validIp: string -> bool, c: Core, j: Key, k: Key, first: nat)
    requires Tracking(c) && Stoppable(c, j) && (j == k || Guarded(c, k, first))
    ensures Guarded(StopWatcher(c, j), k, first)
  {
    hide Host, Tracking;
    if j != k && k in c.watchers {
      if HostOf(j) == HostOf(k) { SameHost(c, j, k); }
    }
  }

  lemma OtherGuards(validIp: string -> bool, s: State, a: Action, k: Key, first: nat)
    requires Enabled(s, a) && !a.StopDeleted? && !a.StopUpdated? && Guarded(s.core, k, first) && first <= |s.core.all|
    ensures Guarded(CoreAfter(validIp, s, a), k, first)
  {
    hide Live, HostOf, Published, Apply, Purge, Creatable;
    LiveGrows(validIp, s, a);
  }

  lemma InCallStep(validIp: string -> bool, s: State, a: Action, s': State, desired: Spec, k: Key)
    requires Inv(validIp, s) && Steps(validIp, s, a, s') && InCall(s, desired, k) && !a.Begin?
    ensures InCall(s', desired, k)
  {
    hide Guarded, HostOf, Live, Serving, StopWatcher, StartWatcher, Published, Apply, Purge, Creatable, Tracking,
         ListsOk, OldDone;
    if !s.pc.Idle? && !s'.pc.Idle? {
      if a.StopDeleted? || a.StopUpdated? {
        if a.key == k || Guarded(s.core, k, s.pc.first) { StopGuards(validIp, s.core, a.key, k, s.pc.first); }
      } else if Guarded(s.core, k, s.pc.first) {
        OtherGuards(validIp, s, a, k, s.pc.first);
      }
    }
  }

  /** At the purge a desired, well-formed host that is guarded is kept. */
  lemma PurgeKeeps(validIp: string -> bool, s: State, s': State, desired: Spec, k: Key)
    requires Inv(validIp, s) && Steps(validIp, s, PurgeStep, s') && InCall(s, desired, k)
    requires k in desired && Valid(validIp, desired[k]) && HostOf(k) in s.core.cache.services
    ensures HostOf(k) in s'.core.cache.services
  {
    hide Host, Valid;
    assert TrackedAt(s.core, k);
    if s.core.watchers[k] >= s.pc.first {
      assert DoneAt(s.core, s.core.watchers[k]);
      assert Pushes(validIp, s.core, k);
    }
  }

  ghost predicate RunFrom(validIp: string -> bool, states: seq<State>, actions: seq<Action>) {
    |states| == |actions| + 1 && forall i :: 0 <= i < |actions| ==> Steps(validIp, states[i], actions[i], states[i + 1])
  }

  /** Any interleaving of one call of Reconcile, up to the next. */
  ghost predicate OneCall(validIp: string -> bool, states: seq<State>, actions: seq<Action>, desired: Spec) {
    && RunFrom(validIp, states, actions) && actions != [] && actions[0] == Begin(desired)
    && forall m :: 0 < m < |actions| ==> !actions[m].Begin?
  }

  /** Within a call a host that was not exposed at its start is never lost. */
  lemma {:induction false} KeptInCall(
    validIp: string -> bool, states: seq<State>, actions: seq<Action>, desired: Spec, k: Key, j: nat)
    requires OneCall(validIp, states, actions, desired) && Inv(validIp, states[0]) && 0 < j <= |actions|
    requires k in desired && Valid(validIp, desired[k]) && HostOf(k) in states[0].core.cache.services
    requires !Exposed(states[0].core, desired, k)
    ensures HostOf(k) in states[j].core.cache.services
    ensures InCall(states[j], desired, k) && Inv(validIp, states[j])
  {
    hide Valid, HostOf, CoreAfter, PcAfter, Enabled, Inv, InCall, Exposed;
    var s, a, s' := states[j - 1], actions[j - 1], states[j];
    assert Steps(validIp, s, a, s');
    OnlyPurgeRemoves(validIp, s, a);
    if j > 1 {
      KeptInCall(validIp, states, actions, desired, k, j - 1);
      InCallStep(validIp, s, a, s', desired, k);
      if a.PurgeStep? { PurgeKeeps(validIp, s, s', desired, k); }
    } else {
      BeginGuards(validIp, s, s', desired, k);
    }
    InvStep(validIp, s, a, s');
  }

  /** No gap: a cached host that the new specification wants well formed, and that is not exposed
      when Reconcile begins, is in the cache at every step up to the next Reconcile, through every
      Stop, restart, failure, timeout and purge, whatever other Runs are pending. */
  lemma NoGap(validIp: string -> bool, states: seq<State>, actions: seq<Action>, i: nat, j: nat, desired: Spec, k: Key)
    requires Trace(validIp, states, actions) && i < j <= |actions|
    requires actions[i] == Begin(desired) && forall m :: i < m < j ==> !actions[m].Begin?
    requires k in desired && Valid(validIp, desired[k]) && HostOf(k) in states[i].core.cache.services
    requires !Exposed(states[i].core, desired, k)
    ensures HostOf(k) in states[j].core.cache.services
  {
    hide Valid, HostOf, Steps, Exposed, Inv;
    AlwaysServing(validIp, states, actions, i);
    var ss, aa := states[i..j + 1], actions[i..j];
    forall m | 0 <= m < |aa|
      ensures Steps(validIp, ss[m], aa[m], ss[m + 1])
    {
      assert Steps(validIp, states[i + m], actions[i + m], states[i + m + 1]);
    }
    KeptInCall(validIp, ss, aa, desired, k, j - i);
  }

  /** The four steps of an update whose wait times out. */
  lemma TimedOutUpdate(validIp: string -> bool, c: Core, k: Key, config: RegistryConfig)
    requires Keyed(c.registries) && k in c.registries && Stoppable(c, k)
    requires KeyOf(config) == k && Creatable(config) && c.registries[k] != config
    ensures var d := c.registries[k := config];
            var pc := Working(d, {}, {k}, {}, None, |c.all|, false, OldDone(c, |c.all|));
            var pc' := pc.(toUpdate := {});
            var c' := StopWatcher(c, k);
            && Steps(validIp, State(c, Idle), Begin(d), State(c, pc))
            && Steps(validIp, State(c, pc), StopUpdated(k), State(c', pc'.(mid := Some(k))))
            && Steps(validIp, State(c', pc'.(mid := Some(k))), StartUpdated, State(StartWatcher(c', k, config), pc'))
            && Steps(validIp, State(StartWatcher(c', k, config), pc'), Timeout,
                State(StartWatcher(c', k, config), Idle))
  {
    hide DeleteService, Creatable, OldDone, StopWatcher, StartWatcher;
    var d := c.registries[k := config];
    assert Deleted(c.registries, d) == {} && Created(c.registries, d) == {} && Updated(c.registries, d) == {k};
    assert {k} - {k} == {};
  }

  /** A Reconcile that finds nothing to do purges at once. */
  lemma IdleReconcile(validIp: string -> bool, c: Core)
    requires Keyed(c.registries)
    ensures var pc := Working(c.registries, {}, {}, {}, None, |c.all|, false, OldDone(c, |c.all|));
            var pc' := Finishing(c.registries, |c.all|, pc.calm);
            && Steps(validIp, State(c, Idle), Begin(c.registries), State(c, pc))
            && Steps(validIp, State(c, pc), AllReady, State(c, pc'))
            && Steps(validIp, State(c, pc'), PurgeStep, State(c.(cache := Purge(c.cache)), Idle))
  {
    hide OldDone, Purge;
    var d := c.registries;
    assert Deleted(d, d) == {} && Created(d, d) == {} && Updated(d, d) == {};
  }

  /** Without that condition there is a gap: any served registry that is given a new well-formed
      configuration loses its host when the wait times out and the call is retried before the
      new watcher's Run begins. The retry finds the registry unchanged and purges. */
  lemma RetryLosesHost(validIp: string -> bool, c: Core, k: Key, config: RegistryConfig)
    returns (states: seq<State>, actions: seq<Action>)
    requires Keyed(c.registries) && k in c.registries && HostOf(k) in c.cache.services && Stoppable(c, k)
    requires KeyOf(config) == k && Creatable(config) && Valid(validIp, config) && c.registries[k] != config
    ensures RunFrom(validIp, states, actions) && states[0] == State(c, Idle)
    ensures states[|actions|].pc.Idle? && states[|actions|].core.registries == c.registries[k := config]
    ensures HostOf(k) !in states[|actions|].core.cache.services
  {
    hide Host, Valid, Creatable, Steps, OldDone;
    var d := c.registries[k := config];
    var c1 := StopWatcher(c, k);
    var c2 := StartWatcher(c1, k, config);
    assert c2.registries == d;
    TimedOutUpdate(validIp, c, k, config);
    IdleReconcile(validIp, c2);
    var pc := Working(d, {}, {k}, {}, None, |c.all|, false, OldDone(c, |c.all|));
    var pc' := Working(d, {}, {}, {}, None, |c2.all|, false, OldDone(c2, |c2.all|));
    states := [State(c, Idle), State(c, pc), State(c1, pc.(toUpdate := {}, mid := Some(k))),
        State(c2, pc.(toUpdate := {})), State(c2, Idle),
               State(c2, pc'), State(c2, Finishing(d, |c2.all|, pc'.calm)), State(c2.(cache := Purge(c2.cache)), Idle)];
    actions := [Begin(d), StopUpdated(k), StartUpdated, Timeout, Begin(d), AllReady, PurgeStep];
  }
}
