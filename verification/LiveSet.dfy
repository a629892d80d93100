/** The live hosts of the cache are those of the tracked registries, entry by entry, unless a Run
    outlived its watcher's Stop or a proxy was given the name of a tombstoned host. */
module LiveSet {
  import opened Wrappers
  import opened ServiceCache
  import opened Direct
  import opened Reconciling
  import opened Availability

  ghost predicate NoOrphans(c: Core) {
    forall id :: 0 <= id < |c.all| ==> !c.all[id].orphan
  }

  /** A stopped watcher that is no orphan had returned from Run. */
  ghost predicate StoppedAt(c: Core, id: nat) {
    id < |c.all| && (c.all[id].stopped && !c.all[id].orphan ==> c.all[id].phase == Done)
  }

  ghost predicate StopsOk(c: Core) {
    forall id :: 0 <= id < |c.all| ==> StoppedAt(c, id)
  }

  /** `h` holds what the tracked watcher of `k` pushed, up to the creation time. */
  ghost predicate Backs(validIp: string -> bool, c: Core, k: Key, h: string) {
    && Pushes(validIp, c, k) && HostOf(k) == h
    && Holds(validIp, c.cache, h, c.registries[k])
  }

  ghost predicate Holds(validIp: string -> bool, cache: Cache, h: string, config: RegistryConfig) {
    && Valid(validIp, config) && h in cache.services
    && cache.services[h] == WrapperOf(config,
        EntryOf(config, validIp).value).(createTime := cache.services[h].createTime)
  }

  /** An orphan's Run has pushed a well-formed entry for `h`. */
  ghost predicate Orphaned(validIp: string -> bool, c: Core, id: nat, h: string) {
    && id < |c.all| && c.all[id].orphan && c.all[id].phase != Started
    && Valid(validIp, c.all[id].config) && HostOf(c.all[id].key) == h
  }

  ghost predicate Backed(validIp: string -> bool, c: Core, h: string, orphans: bool) {
    (exists k :: Backs(validIp, c, k, h)) || (orphans && exists id :: Orphaned(validIp, c, id, h))
  }

  /** Every live host is backed, with or without orphans counting. */
  ghost predicate Exact(validIp: string -> bool, c: Core, orphans: bool) {
    forall h :: h in Live(c.cache) ==> Backed(validIp, c, h, orphans)
  }

  /** The hosts whose tracked registries have pushed a well-formed entry. */
  ghost function PushedHosts(validIp: string -> bool, c: Core): set<string> {
    set k | k in c.watchers && Pushes(validIp, c, k) :: HostOf(k)
  }

  // ---- Steps --------------------------------------------------------------------

  lemma StopExact(validIp: string -> bool, c: Core, k: Key, orphans: bool)
    requires Tracking(c) && Exact(validIp, c, orphans) && Stoppable(c, k)
    ensures Exact(validIp, StopWatcher(c, k), orphans)
  {
    hide Host, Valid, Tracking, WrapperOf, EntryOf;
    var c' := StopWatcher(c, k);
    forall h | h in Live(c'.cache)
      ensures Backed(validIp, c', h, orphans)
    {
      assert h != HostOf(k) && h in Live(c.cache);
      if j :| Backs(validIp, c, j, h) {
        Untouched(c, k, j);
        assert Backs(validIp, c', j, h);
      } else {
        var id :| Orphaned(validIp, c, id, h);
        assert Orphaned(validIp, c', id, h);
      }
    }
  }

  lemma StartExact(validIp: string -> bool, c: Core, k: Key, config: RegistryConfig, orphans: bool)
    requires Tracking(c) && Exact(validIp, c, orphans) && k !in c.registries
    ensures Exact(validIp, StartWatcher(c, k, config), orphans)
  {
    hide Host, Valid, Tracking, Holds, Live;
    var c' := StartWatcher(c, k, config);
    forall h | h in Live(c'.cache)
      ensures Backed(validIp, c', h, orphans)
    {
      if j :| Backs(validIp, c, j, h) {
        assert Backs(validIp, c', j, h);
      } else {
        var id :| Orphaned(validIp, c, id, h);
        assert Orphaned(validIp, c', id, h);
      }
    }
  }

  lemma PushExact(validIp: string -> bool, c: Core, id: nat, now: nat, orphans: bool)
    requires Tracking(c) && (orphans ==> StopsOk(c)) && Exact(validIp, c, orphans)
    requires id < |c.all| && c.all[id].phase == Started
    requires orphans || !c.all[id].stopped || !Valid(validIp, c.all[id].config)
    ensures Exact(validIp, Push(validIp, c, id, now), orphans)
  {
    hide Host, EntryOf, WrapperOf;
    var c' := Push(validIp, c, id, now);
    assert OwnedAt(c, id) && (orphans ==> StoppedAt(c, id));
    var k := c.all[id].key;
    forall h | h in Live(c'.cache)
      ensures Backed(validIp, c', h, orphans)
    {
      if Valid(validIp, c.all[id].config) && h == HostOf(k) {
        if c.all[id].stopped {
          assert Orphaned(validIp, c', id, h);
        } else {
          assert TrackedAt(c, k);
          assert Backs(validIp, c', k, h);
        }
      } else {
        assert h in Live(c.cache);
        if j :| Backs(validIp, c, j, h) {
          assert Backs(validIp, c', j, h);
        } else {
          var o :| Orphaned(validIp, c, o, h);
          assert Orphaned(validIp, c', o, h);
        }
      }
    }
  }

  /** A proxy update under the name of a tombstoned host would clear that tombstone. */
  ghost predicate CleanProxy(c: Core, a: Action) {
    a.ProxyStep? && a.op.PutProxy? && a.op.name in c.cache.services ==> a.op.name !in c.cache.stale
  }

  ghost predicate SameLive(cache: Cache, cache': Cache) {
    && Live(cache') == Live(cache)
    && forall h :: h in Live(cache) ==> cache'.services[h] == cache.services[h]
  }

  lemma OtherSameLive(validIp: string -> bool, s: State, a: Action)
    requires Enabled(s, a) && CleanProxy(s.core, a)
    requires !a.StopDeleted? && !a.StopUpdated? && !a.StartUpdated? && !a.StartCreated? && !a.Publish?
    ensures SameLive(s.core.cache, CoreAfter(validIp, s, a).cache)
  {
  }

  lemma OtherExact(validIp: string -> bool, c: Core, c': Core, orphans: bool)
    requires Exact(validIp, c, orphans) && MovedOn(c, c') && SameLive(c.cache, c'.cache)
    requires forall id :: 0 <= id < |c.all| && c.all[id].phase != Started ==> c'.all[id].phase != Started
    ensures Exact(validIp, c', orphans)
  {
    hide Host, EntryOf, WrapperOf, Valid;
    forall h | h in Live(c'.cache)
      ensures Backed(validIp, c', h, orphans)
    {
      if j :| Backs(validIp, c, j, h) {
        assert Backs(validIp, c', j, h);
      } else {
        var id :| Orphaned(validIp, c, id, h);
        assert Orphaned(validIp, c', id, h);
      }
    }
  }

  /** The Run of a watcher that was stopped before it began. */
  ghost predicate Late(validIp: string -> bool, c: Core, a: Action) {
    a.Publish? && a.id < |c.all| && c.all[a.id].stopped && Valid(validIp, c.all[a.id].config)
  }

  lemma ExactStep(validIp: string -> bool, s: State, a: Action, orphans: bool)
    requires Tracking(s.core) && PcOk(s.core, s.pc) && (orphans ==> StopsOk(s.core)) && Exact(validIp, s.core, orphans)
    requires Enabled(s, a) && CleanProxy(s.core, a)
    requires orphans || !Late(validIp, s.core, a)
    ensures Exact(validIp, CoreAfter(validIp, s, a), orphans)
  {
    hide Tracking, Exact, StopsOk, CleanProxy, StopWatcher, StartWatcher, Push, Apply, Purge, SameLive;
    match a
    case StopDeleted(k) => StopExact(validIp, s.core, k, orphans);
    case StopUpdated(k) => StopExact(validIp, s.core, k, orphans);
    case StartUpdated => StartExact(validIp, s.core, s.pc.mid.value, s.pc.desired[s.pc.mid.value], orphans);
    case StartCreated(k) => StartExact(validIp, s.core, k, s.pc.desired[k], orphans);
    case Publish(id, now) => PushExact(validIp, s.core, id, now, orphans);
    case _ =>
      OtherSameLive(validIp, s, a);
      OtherMovesOn(validIp, s, a);
      OtherExact(validIp, s.core, CoreAfter(validIp, s, a), orphans);
  }

  lemma StopsStep(validIp: string -> bool, s: State, a: Action)
    requires StopsOk(s.core) && Enabled(s, a)
    ensures StopsOk(CoreAfter(validIp, s, a))
  {
    hide Apply, Purge, Published, DeleteService, Creatable;
    var c' := CoreAfter(validIp, s, a);
    forall id | 0 <= id < |c'.all|
      ensures StoppedAt(c', id)
    {
      if id < |s.core.all| { assert StoppedAt(s.core, id); }
    }
  }

  // ---- Runs ---------------------------------------------------------------------

  ghost predicate CleanProxies(states: seq<State>, actions: seq<Action>) {
    |states| == |actions| + 1 && forall i :: 0 <= i < |actions| ==> CleanProxy(states[i].core, actions[i])
  }

  /** In every interleaving a live host is either pushed for a tracked registry, and holds that
      registry's entry, or was pushed by an orphan. */
  lemma {:induction false} ExactRuns(validIp: string -> bool, states: seq<State>, actions: seq<Action>, i: nat)
    requires Trace(validIp, states, actions) && CleanProxies(states, actions) && i <= |actions|
    ensures StopsOk(states[i].core) && Exact(validIp, states[i].core, true)
  {
    hide CoreAfter, PcAfter, Enabled, PcOk, Serving, Tracking, CleanProxy;
    if i > 0 {
      ExactRuns(validIp, states, actions, i - 1);
      AlwaysServing(validIp, states, actions, i - 1);
      var s, a := states[i - 1], actions[i - 1];
      assert Steps(validIp, s, a, states[i]) && CleanProxy(s.core, a);
      StopsStep(validIp, s, a);
      ExactStep(validIp, s, a, true);
    }
  }

  /** No watcher that was stopped before its Run began has published a well-formed entry. */
  ghost predicate NoneLate(validIp: string -> bool, c: Core) {
    forall id, h :: !Orphaned(validIp, c, id, h)
  }

  lemma NoOrphansNoneLate(validIp: string -> bool, c: Core)
    requires NoOrphans(c)
    ensures NoneLate(validIp, c)
  {
    hide Valid, HostOf;
  }

  /** In every interleaving in which no watcher has published after its Stop, failed and timed-out
      Reconciles included: the live hosts are exactly those pushed for the tracked registries, and
      each holds its registry's entry. */
  lemma LiveHosts(validIp: string -> bool, states: seq<State>, actions: seq<Action>, i: nat)
    requires Trace(validIp, states, actions) && CleanProxies(states, actions) && i <= |actions|
    requires NoneLate(validIp, states[i].core)
    ensures Live(states[i].core.cache) == PushedHosts(validIp, states[i].core)
    ensures forall k :: Pushes(validIp, states[i].core, k) ==>
              Holds(validIp, states[i].core.cache, HostOf(k), states[i].core.registries[k])
  {
    hide Trace, CleanProxies, Host, Valid, PcOk, NoneLate, Holds;
    TraceLength(validIp, states, actions);
    var c := states[i].core;
    ExactRuns(validIp, states, actions, i);
    AlwaysServing(validIp, states, actions, i);
    forall h | h in Live(c.cache)
      ensures h in PushedHosts(validIp, c)
    {
      var k := Backer(validIp, c, h);
      assert k in c.watchers;
    }
    forall k | Pushes(validIp, c, k)
      ensures Holds(validIp, c.cache, HostOf(k), c.registries[k])
    {
      assert HostOf(k) in Live(c.cache);
      var j := Backer(validIp, c, HostOf(k));
      SameHost(c, j, k);
    }
  }

  lemma Backer(validIp: string -> bool, c: Core, h: string) returns (k: Key)
    requires NoneLate(validIp, c) && Exact(validIp, c, true) && h in Live(c.cache)
    ensures Backs(validIp, c, k, h)
  {
    hide Backs, Orphaned, HostOf, Live;
    assert Backed(validIp, c, h, true);
    assert forall id :: !Orphaned(validIp, c, id, h);
    k :| Backs(validIp, c, k, h);
  }

  /** Every Reconcile begins when the tracked Runs have returned. */
  ghost predicate Disciplined(states: seq<State>, actions: seq<Action>) {
    && |states| == |actions| + 1
    && forall i :: 0 <= i < |actions| && actions[i].Begin? ==> OldDone(states[i].core, |states[i].core.all|)
  }

  lemma {:induction false} DisciplinedRuns(validIp: string -> bool, states: seq<State>, actions: seq<Action>, i: nat)
    requires Trace(validIp, states, actions) && Disciplined(states, actions) && i <= |actions|
    ensures NoOrphans(states[i].core)
    ensures states[i].pc.Idle? || states[i].pc.calm
  {
    hide PcOk, Serving, Tracking, CoreAfter, OldDone, Enabled;
    if i > 0 {
      DisciplinedRuns(validIp, states, actions, i - 1);
      AlwaysServing(validIp, states, actions, i - 1);
      assert Steps(validIp, states[i - 1], actions[i - 1], states[i]);
      CalmKeepsNoOrphans(validIp, states[i - 1], actions[i - 1]);
      CalmStep(states[i - 1], actions[i - 1]);
    }
  }

  lemma CalmStep(s: State, a: Action)
    requires Enabled(s, a) && (s.pc.Idle? || s.pc.calm)
    requires a.Begin? ==> OldDone(s.core, |s.core.all|)
    ensures PcAfter(s, a).Idle? || PcAfter(s, a).calm
  {
    hide OldDone, Creatable;
  }

  lemma CalmKeepsNoOrphans(validIp: string -> bool, s: State, a: Action)
    requires Tracking(s.core) && PcOk(s.core, s.pc) && NoOrphans(s.core) && Enabled(s, a)
    requires s.pc.Idle? || s.pc.calm
    ensures NoOrphans(CoreAfter(validIp, s, a))
  {
    hide Apply, Purge, Published, DeleteService, Creatable, Tracking, ListsOk;
    if a.StopDeleted? || a.StopUpdated? {
      assert DoneAt(s.core, s.core.watchers[a.key]);
    }
  }

  /** The hosts that a specification asks for. */
  ghost function DesiredHosts(validIp: string -> bool, desired: Spec): set<string> {
    set k | k in desired && Valid(validIp, desired[k]) :: HostOf(k)
  }

  /** After a Reconcile that reaches its purge, in a run where every Reconcile began with the
      tracked Runs returned, the cache holds exactly the desired well-formed hosts. */
  lemma PurgedExactly(validIp: string -> bool, states: seq<State>, actions: seq<Action>, i: nat)
    requires Trace(validIp, states, actions) && CleanProxies(states, actions) && Disciplined(states, actions)
    requires i < |actions| && actions[i].PurgeStep?
    ensures states[i].pc.Finishing?
    ensures states[i + 1].core.cache.services.Keys == DesiredHosts(validIp, states[i].pc.desired)
    ensures forall k :: k in states[i].pc.desired && Valid(validIp, states[i].pc.desired[k]) ==>
              Holds(validIp, states[i + 1].core.cache, HostOf(k), states[i].pc.desired[k])
  {
    hide Trace, CleanProxies, Disciplined, Host, Valid, NoOrphans, NoneLate, Holds, Serving;
    TraceAt(validIp, states, actions, i);
    var s, s' := states[i], states[i + 1];
    AlwaysServing(validIp, states, actions, i);
    DisciplinedRuns(validIp, states, actions, i);
    DisciplinedRuns(validIp, states, actions, i + 1);
    NoOrphansNoneLate(validIp, s.core);
    NoOrphansNoneLate(validIp, s'.core);
    LiveHosts(validIp, states, actions, i);
    LiveHosts(validIp, states, actions, i + 1);
    assert s'.core.cache.services.Keys == Live(s.core.cache);
    forall k | k in s.pc.desired && Valid(validIp, s.pc.desired[k])
      ensures Pushes(validIp, s'.core, k) && Pushes(validIp, s.core, k)
    {
      assert TrackedAt(s.core, k);
      assert DoneAt(s.core, s.core.watchers[k]);
    }
    assert PushedHosts(validIp, s.core) == DesiredHosts(validIp, s.pc.desired);
  }

  lemma TraceLength(validIp: string -> bool, states: seq<State>, actions: seq<Action>)
    requires Trace(validIp, states, actions)
    ensures |states| == |actions| + 1
  {
  }

  lemma TraceAt(validIp: string -> bool, states: seq<State>, actions: seq<Action>, i: nat)
    requires Trace(validIp, states, actions) && i < |actions|
    ensures |states| == |actions| + 1
    ensures Steps(validIp, states[i], actions[i], states[i + 1])
  {
  }

  /** An orphan does resurrect its host: delete a registry whose Run has not begun, let that
      Reconcile purge, and then let the Run begin. The host is live though nothing tracks it. */
  lemma OrphanResurrects(validIp: string -> bool, c: Core, k: Key, now: nat)
    returns (states: seq<State>, actions: seq<Action>)
    requires Tracking(c) && Keyed(c.registries) && k in c.registries && Valid(validIp, c.registries[k])
    requires c.watchers[k] < |c.all| && c.all[c.watchers[k]].phase == Started
    ensures RunFrom(validIp, states, actions) && states[0] == State(c, Idle)
    ensures states[|actions|].pc.Idle? && k !in states[|actions|].core.registries
    ensures HostOf(k) in Live(states[|actions|].core.cache)
  {
    hide Host, Steps, EntryOf, WrapperOf, Tracking;
    TrackedIs(c, k);
    var id := c.watchers[k];
    var d := c.registries - {k};
    var c1 := StopWatcher(c, k);
    var c2 := c1.(cache := Purge(c1.cache));
    var pc := Working(d, {k}, {}, {}, None, |c.all|, false, OldDone(c, |c.all|));
    var pc' := pc.(toDelete := {});
    var fin := Finishing(d, |c.all|, pc.calm);
    DeleteSteps(validIp, c, k, now);
    states := [State(c, Idle), State(c, pc), State(c1, pc'), State(c1, fin), State(c2, Idle),
        State(Push(validIp, c2, id, now), Idle)];
    actions := [Begin(d), StopDeleted(k), AllReady, PurgeStep, Publish(id, now)];
  }

  lemma TrackedIs(c: Core, k: Key)
    requires Tracking(c) && k in c.registries
    ensures TrackedAt(c, k) && OwnedAt(c, c.watchers[k])
  {
    assert k in c.watchers;
    assert TrackedAt(c, k);
  }

  lemma DeleteSteps(validIp: string -> bool, c: Core, k: Key, now: nat)
    requires Keyed(c.registries) && k in c.registries && k in c.watchers
    requires c.watchers[k] < |c.all| && c.all[c.watchers[k]].phase == Started
    ensures var id := c.watchers[k];
            var d := c.registries - {k};
            var pc := Working(d, {k}, {}, {}, None, |c.all|, false, OldDone(c, |c.all|));
            var c1 := StopWatcher(c, k);
            var c2 := c1.(cache := Purge(c1.cache));
            && Steps(validIp, State(c, Idle), Begin(d), State(c, pc))
            && Steps(validIp, State(c, pc), StopDeleted(k), State(c1, pc.(toDelete := {})))
            && Steps(validIp, State(c1, pc.(toDelete := {})), AllReady, State(c1, Finishing(d, |c.all|, pc.calm)))
            && Steps(validIp, State(c1, Finishing(d, |c.all|, pc.calm)), PurgeStep, State(c2, Idle))
            && Steps(validIp, State(c2, Idle), Publish(id, now), State(Push(validIp, c2, id, now), Idle))
  {
    hide OldDone, Purge, DeleteService, Published;
    var d := c.registries - {k};
    assert Deleted(c.registries, d) == {k} && Created(c.registries, d) == {} && Updated(c.registries, d) == {};
    assert {k} - {k} == {};
  }
}
