/** Runs from the empty reconciler that break the two laws of the registry. */
module Scenarios {
  import opened Wrappers
  import opened ServiceCache
  import opened Direct
  import opened Reconciling
  import opened Availability
  import opened LiveSet
  import opened LiveLaw

  lemma Concat(validIp: string -> bool, ss: seq<State>, aa: seq<Action>, tt: seq<State>, bb: seq<Action>)
    requires RunFrom(validIp, ss, aa) && RunFrom(validIp, tt, bb) && ss[|aa|] == tt[0]
    ensures RunFrom(validIp, ss + tt[1..], aa + bb)
    ensures (ss + tt[1..])[0] == ss[0] && (ss + tt[1..])[|aa + bb|] == tt[|bb|]
  {
    hide Steps;
    var states, actions := ss + tt[1..], aa + bb;
    forall m | 0 <= m < |actions|
      ensures Steps(validIp, states[m], actions[m], states[m + 1])
    {
      if m >= |aa| { assert Steps(validIp, tt[m - |aa|], bb[m - |aa|], tt[m - |aa| + 1]); }
    }
  }

  lemma FromInit(validIp: string -> bool, states: seq<State>, actions: seq<Action>)
    requires RunFrom(validIp, states, actions) && states[0] == INIT
    ensures Trace(validIp, states, actions)
  {
    hide Steps;
  }

  // ---- The first registry -------------------------------------------------------

  ghost function OnlyCore(k: Key, config: RegistryConfig): Core {
    StartWatcher(INIT.core, k, config)
  }

  ghost function OnlyPc(k: Key, config: RegistryConfig): Pc {
    Working(map[k := config], {}, {}, {}, None, 0, false, true)
  }

  lemma FirstSteps(validIp: string -> bool, k: Key, config: RegistryConfig)
    requires KeyOf(config) == k && Creatable(config)
    ensures var d := map[k := config];
            var w := Working(d, {}, {}, {k}, None, 0, false, true);
            && Steps(validIp, INIT, Begin(d), State(INIT.core, w))
            && Steps(validIp, State(INIT.core, w), StartCreated(k), State(OnlyCore(k, config), OnlyPc(k, config)))
  {
    hide Creatable;
    var d := map[k := config];
    assert Created(map[], d) == {k} && Updated(map[], d) == {} && Deleted(map[], d) == {};
    assert {k} - {k} == {};
  }

  /** A registry whose watcher was created and whose Run has not begun. */
  lemma StartedOnly(validIp: string -> bool, k: Key, config: RegistryConfig)
      returns (states: seq<State>, actions: seq<Action>)
    requires KeyOf(config) == k && Creatable(config)
    ensures RunFrom(validIp, states, actions) && states[0] == INIT &&
              states[|actions|] == State(OnlyCore(k, config), Idle)
    ensures Tracking(OnlyCore(k, config)) && Keyed(OnlyCore(k, config).registries)
  {
    FirstSteps(validIp, k, config);
    var c, w := OnlyCore(k, config), Working(map[k := config], {}, {}, {k}, None, 0, false, true);
    assert Steps(validIp, State(c, OnlyPc(k, config)), Timeout, State(c, Idle));
    StartTracks(INIT.core, k, config);
    hide Steps, Creatable;
    states := [INIT, State(INIT.core, w), State(c, OnlyPc(k, config)), State(c, Idle)];
    actions := [Begin(map[k := config]), StartCreated(k), Timeout];
  }

  /** A registry that was created, has run and has been purged for: it is served. */
  lemma ServedOnly(validIp: string -> bool, k: Key, config: RegistryConfig)
    returns (states: seq<State>, actions: seq<Action>, c: Core)
    requires KeyOf(config) == k && Creatable(config) && Valid(validIp, config)
    ensures RunFrom(validIp, states, actions) && states[0] == INIT && states[|actions|] == State(c, Idle)
    ensures Keyed(c.registries) && c.registries == map[k := config] && HostOf(k) in c.cache.services && Stoppable(c, k)
  {
    hide Steps, Creatable, Valid, HostOf, Published, Purge, OnlyCore, Keyed, Stoppable;
    FirstSteps(validIp, k, config);
    OnlyStarted(k, config);
    var c0, pc := OnlyCore(k, config), OnlyPc(k, config);
    var w := Working(map[k := config], {}, {}, {k}, None, 0, false, true);
    var c1 := Push(validIp, c0, 0, 0);
    var c2 := Finish(c1, 0);
    c := c2.(cache := Purge(c2.cache));
    RunSteps(validIp, c0, pc, 0, 0);
    ServedHost(validIp, k, config);
    EndSteps(validIp, c2, pc);
    states := [INIT, State(INIT.core, w), State(c0, pc), State(c1, pc), State(c2, pc),
               State(c2, Finishing(map[k := config], 0, true)), State(c, Idle)];
    actions := [Begin(map[k := config]), StartCreated(k), Publish(0, 0), Signal(0), AllReady, PurgeStep];
  }

  lemma OnlyStarted(k: Key, config: RegistryConfig)
    ensures |OnlyCore(k, config).all| == 1 && OnlyCore(k, config).all[0].phase == Started
  {
  }

  lemma ServedHost(validIp: string -> bool, k: Key, config: RegistryConfig)
    requires KeyOf(config) == k && Valid(validIp, config)
    ensures var c := Finish(Push(validIp, OnlyCore(k, config), 0, 0), 0);
            && HostOf(k) in Purge(c.cache).services && c.registries == map[k := config] && c.watchers == map[k := 0]
            && |c.all| == 1 && c.all[0].phase == Done && AllDoneFrom(c, 0)
            && Keyed(c.registries) && Stoppable(c.(cache := Purge(c.cache)), k)
  {
    hide Host, EntryOf, WrapperOf;
  }

  /** A Run from beginning to end, within a call that is waiting. */
  lemma RunSteps(validIp: string -> bool, c: Core, pc: Pc, id: nat, now: nat)
    requires id < |c.all| && c.all[id].phase == Started
    ensures var c1 := Push(validIp, c, id, now);
            && Steps(validIp, State(c, pc), Publish(id, now), State(c1, pc))
            && Steps(validIp, State(c1, pc), Signal(id), State(Finish(c1, id), pc))
  {
    hide Published;
  }

  lemma EndSteps(validIp: string -> bool, c: Core, pc: Pc)
    requires Settled(pc) && !pc.failed && AllDoneFrom(c, pc.first)
    ensures var fin := Finishing(pc.desired, pc.first, pc.calm);
            && Steps(validIp, State(c, pc), AllReady, State(c, fin))
            && Steps(validIp, State(c, fin), PurgeStep, State(c.(cache := Purge(c.cache)), Idle))
  {
    hide Purge, AllDoneFrom;
  }

  // ---- The three failures, from the start ---------------------------------------

  /** Availability.RetryLosesHost, reached from the empty reconciler. */
  lemma RetryLosesHostFromStart(validIp: string -> bool, k: Key, before: RegistryConfig, after: RegistryConfig)
    returns (states: seq<State>, actions: seq<Action>)
    requires KeyOf(before) == k && Creatable(before) && Valid(validIp, before)
    requires KeyOf(after) == k && Creatable(after) && Valid(validIp, after) && before != after
    ensures Trace(validIp, states, actions)
    ensures var c := states[|actions|].core; c.registries == map[k := after] && HostOf(k) !in c.cache.services
  {
    hide Steps, Creatable, Valid, HostOf;
    var ss, aa, c := ServedOnly(validIp, k, before);
    var tt, bb := RetryLosesHost(validIp, c, k, after);
    assert map[k := before][k := after] == map[k := after];
    Concat(validIp, ss, aa, tt, bb);
    states, actions := ss + tt[1..], aa + bb;
    FromInit(validIp, states, actions);
  }

  /** LiveSet.OrphanResurrects, reached from the empty reconciler. */
  lemma OrphanResurrectsFromStart(validIp: string -> bool, k: Key, config: RegistryConfig)
    returns (states: seq<State>, actions: seq<Action>)
    requires KeyOf(config) == k && Creatable(config) && Valid(validIp, config)
    ensures Trace(validIp, states, actions)
    ensures var c := states[|actions|].core; k !in c.registries && HostOf(k) in Live(c.cache)
  {
    hide Steps, Creatable, Valid, HostOf, Live, Tracking, Keyed;
    var ss, aa := StartedOnly(validIp, k, config);
    var tt, bb := OrphanResurrects(validIp, OnlyCore(k, config), k, 0);
    Concat(validIp, ss, aa, tt, bb);
    states, actions := ss + tt[1..], aa + bb;
    FromInit(validIp, states, actions);
  }

  /** A registry that is updated before its old Run began: the old Run comes last and overwrites the
      new entry, so that the tracked registry serves a stale configuration. */
  lemma OrphanOverwrites(validIp: string -> bool, k: Key, before: RegistryConfig, after: RegistryConfig)
    returns (states: seq<State>, actions: seq<Action>)
    requires KeyOf(before) == k && Creatable(before) && Valid(validIp, before)
    requires KeyOf(after) == k && Creatable(after) && Valid(validIp, after)
    requires WrapperFor(before, validIp) != WrapperFor(after, validIp)
    ensures Trace(validIp, states, actions)
    ensures var c := states[|actions|].core;
            && states[|actions|].pc.Idle? && Pushes(validIp, c, k) && c.registries == map[k := after]
            && !Holds(validIp, c.cache, HostOf(k), after) && Holds(validIp, c.cache, HostOf(k), before)
  {
    hide Steps, Creatable, Valid, HostOf, OverwriteCore, Holds, Pushes, Tracking, Keyed;
    var ss, aa := StartedOnly(validIp, k, before);
    var tt, bb := Overwrite(validIp, k, before, after);
    Concat(validIp, ss, aa, tt, bb);
    states, actions := ss + tt[1..], aa + bb;
    FromInit(validIp, states, actions);
    Overwritten(validIp, k, before, after);
  }

  /** The shared data when the update has been waited for, and after the late Run. */
  ghost function UpdatedCore(validIp: string -> bool, k: Key, before: RegistryConfig, after: RegistryConfig): Core {
    Finish(Push(validIp, StartWatcher(StopWatcher(OnlyCore(k, before), k), k, after), 1, 0), 1)
  }

  ghost function OverwriteCore(validIp: string -> bool, k: Key, before: RegistryConfig, after: RegistryConfig): Core {
    var c := UpdatedCore(validIp, k, before, after);
    Push(validIp, c.(cache := Purge(c.cache)), 0, 0)
  }

  lemma Overwrite(validIp: string -> bool, k: Key, before: RegistryConfig, after: RegistryConfig)
    returns (states: seq<State>, actions: seq<Action>)
    requires KeyOf(before) == k && KeyOf(after) == k && Creatable(after) && before != after
    ensures RunFrom(validIp, states, actions) && states[0] == State(OnlyCore(k, before), Idle)
    ensures states[|actions|] == State(OverwriteCore(validIp, k, before, after), Idle)
  {
    var c, d := OnlyCore(k, before), map[k := after];
    OnlyCoreIs(k, before, after);
    TimedOutUpdate(validIp, c, k, after);
    var c1, c2 := StopWatcher(c, k), StartWatcher(StopWatcher(c, k), k, after);
    var calm := OldDone(c, |c.all|);
    var w := Working(d, {}, {k}, {}, None, 1, false, calm);
    var w' := Working(d, {}, {}, {}, None, 1, false, calm);
    hide Steps, Creatable, OldDone, StopWatcher, StartWatcher, OnlyCore, Purge;
    RunSteps(validIp, c2, w', 1, 0);
    var c3, c4 := Push(validIp, c2, 1, 0), UpdatedCore(validIp, k, before, after);
    UpdatedIs(validIp, k, before, after);
    EndSteps(validIp, c4, w');
    var c5 := c4.(cache := Purge(c4.cache));
    RunSteps(validIp, c5, Idle, 0, 0);
    hide Push, Finish, UpdatedCore;
    states := [State(c, Idle), State(c, w), State(c1, w'.(mid := Some(k))), State(c2, w'), State(c3, w'), State(c4, w'),
               State(c4, Finishing(d, 1, calm)), State(c5, Idle), State(Push(validIp, c5, 0, 0), Idle)];
    actions := [Begin(d), StopUpdated(k), StartUpdated, Publish(1, 0), Signal(1), AllReady, PurgeStep, Publish(0, 0)];
  }

  lemma OnlyCoreIs(k: Key, before: RegistryConfig, after: RegistryConfig)
    requires KeyOf(before) == k
    ensures var c := OnlyCore(k, before);
            && c.registries[k := after] == map[k := after] && |c.all| == 1 && Stoppable(c, k) && Keyed(c.registries)
            && k in c.registries && c.registries[k] == before
    ensures var c2 := StartWatcher(StopWatcher(OnlyCore(k, before), k), k, after);
            |c2.all| == 2 && c2.all[1].phase == Started && c2.all[0].phase == Started
  {
  }

  lemma UpdatedIs(validIp: string -> bool, k: Key, before: RegistryConfig, after: RegistryConfig)
    ensures var c := UpdatedCore(validIp, k, before, after);
            && |c.all| == 2 && c.all[0].phase == Started && DoneAt(c, 1) && AllDoneFrom(c, 1)
  {
    hide Published;
  }

  lemma Overwritten(validIp: string -> bool, k: Key, before: RegistryConfig, after: RegistryConfig)
    requires KeyOf(before) == k && KeyOf(after) == k && Valid(validIp, before) && Valid(validIp, after)
    requires WrapperFor(before, validIp) != WrapperFor(after, validIp)
    ensures var c := OverwriteCore(validIp, k, before, after);
            && Pushes(validIp, c, k) && c.registries == map[k := after]
            && !Holds(validIp, c.cache, HostOf(k), after) && Holds(validIp, c.cache, HostOf(k), before)
  {
    hide Host, EntryOf, WrapperOf;
    var c2 := StartWatcher(StopWatcher(OnlyCore(k, before), k), k, after);
    assert c2.registries == map[k := after] && c2.watchers == map[k := 1] && |c2.all| == 2;
  }
}
