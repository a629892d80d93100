/** The converse of Availability.NoGap: an exposed host is lost in some interleaving. */
module Exposure {
  import opened Wrappers
  import opened ServiceCache
  import opened Direct
  import opened Reconciling
  import opened Availability

  // ---- Reachability within a call -----------------------------------------------

  ghost predicate Connects(validIp: string -> bool, states: seq<State>, actions: seq<Action>, s: State, s': State) {
    && RunFrom(validIp, states, actions) && states[0] == s && states[|actions|] == s'
    && forall m :: 0 <= m < |actions| ==> !actions[m].Begin?
  }

  ghost predicate Reaches(validIp: string -> bool, s: State, s': State) {
    exists states, actions :: Connects(validIp, states, actions, s, s')
  }

  lemma ReachesSelf(validIp: string -> bool, s: State)
    ensures Reaches(validIp, s, s)
  {
    assert Connects(validIp, [s], [], s, s);
  }

  lemma ReachesNext(validIp: string -> bool, s: State, mid: State, a: Action, s': State)
    requires Reaches(validIp, s, mid) && Steps(validIp, mid, a, s') && !a.Begin?
    ensures Reaches(validIp, s, s')
  {
    hide Steps;
    var states, actions :| Connects(validIp, states, actions, s, mid);
    assert Connects(validIp, states + [s'], actions + [a], s, s');
  }

  lemma ReachesTrans(validIp: string -> bool, s: State, mid: State, s': State)
    requires Reaches(validIp, s, mid) && Reaches(validIp, mid, s')
    ensures Reaches(validIp, s, s')
  {
    hide Steps;
    var states, actions :| Connects(validIp, states, actions, s, mid);
    var states', actions' :| Connects(validIp, states', actions', mid, s');
    var ss, aa := states + states'[1..], actions + actions';
    forall m | 0 <= m < |aa|
      ensures Steps(validIp, ss[m], aa[m], ss[m + 1])
    {
      if m >= |actions| { assert Steps(validIp, states'[m - |actions|], actions'[m - |actions|],
          states'[m - |actions| + 1]); }
    }
    assert Connects(validIp, ss, aa, s, s');
  }

  // ---- A call that is losing a host ---------------------------------------------

  ghost predicate AllCreatable(desired: Spec, keys: set<Key>) {
    forall j :: j in keys && j in desired ==> Creatable(desired[j])
  }

  /** The watcher of `k` is older than the call and has not begun, its host is tombstoned, and the
      call has nothing to do about it. */
  ghost predicate Losing(s: State, k: Key) {
    && Tracking(s.core) && s.pc.Working? && PcOk(s.core, s.pc) && !s.pc.failed
    && TrackedAt(s.core, k) && s.core.all[s.core.watchers[k]].phase == Started && s.core.watchers[k] < s.pc.first
    && HostOf(k) in s.core.cache.stale
    && k !in s.pc.toDelete && k !in s.pc.toUpdate && k !in s.pc.toCreate && s.pc.mid != Some(k)
    && OthersFrom(s.core, k, s.pc.first)
    && AllCreatable(s.pc.desired, s.pc.toUpdate) && AllCreatable(s.pc.desired, s.pc.toCreate)
    && (s.pc.mid.Some? && s.pc.mid.value in s.pc.desired ==> Creatable(s.pc.desired[s.pc.mid.value]))
  }

  ghost predicate OthersFrom(c: Core, k: Key, first: nat) {
    forall id :: first <= id < |c.all| ==> c.all[id].key != k
  }

  /** The steps of a call that goes well, together with its new watchers. */
  ghost predicate Smooth(s: State, a: Action) {
    a.StopDeleted? || a.StopUpdated? || a.StartUpdated? || a.StartCreated? || a.Signal? ||
        (a.Publish? && !s.pc.Idle? && a.id >= s.pc.first)
  }

  /** The watcher of `k` is untouched, and no newer one is for `k`. */
  ghost predicate Waiting(c: Core, k: Key, first: nat) {
    && TrackedAt(c, k) && c.all[c.watchers[k]].phase == Started && c.watchers[k] < first
    && OthersFrom(c, k, first)
  }

  lemma StopWaits(c: Core, j: Key, k: Key, first: nat)
    requires Tracking(c) && Stoppable(c, j) && j != k && Waiting(c, k, first)
    ensures Waiting(StopWatcher(c, j), k, first)
  {
    hide Host, DeleteService, Tracking;
    Untouched(c, j, k);
  }

  lemma StartWaits(c: Core, j: Key, config: RegistryConfig, k: Key, first: nat)
    requires j != k && Waiting(c, k, first) && first <= |c.all|
    ensures Waiting(StartWatcher(c, j, config), k, first)
  {
  }

  lemma MoveWaits(c: Core, c': Core, k: Key, first: nat)
    requires Waiting(c, k, first) && MovedOn(c, c') && c'.all[c.watchers[k]].phase == Started
    ensures Waiting(c', k, first)
  {
  }

  lemma LosingCore(validIp: string -> bool, s: State, a: Action, k: Key)
    requires Losing(s, k) && Enabled(s, a) && Smooth(s, a)
    ensures Waiting(CoreAfter(validIp, s, a), k, s.pc.first)
  {
    hide HostOf, Creatable, Published, AllCreatable, Tracking, Waiting, StopWatcher, StartWatcher, ListsOk, Keyed;
    LosingWaits(s, k);
    if a.StopDeleted? || a.StopUpdated? {
      StopWaits(s.core, a.key, k, s.pc.first);
    } else if a.StartUpdated? {
      StartWaits(s.core, s.pc.mid.value, s.pc.desired[s.pc.mid.value], k, s.pc.first);
    } else if a.StartCreated? {
      StartWaits(s.core, a.key, s.pc.desired[a.key], k, s.pc.first);
    } else {
      OtherMovesOn(validIp, s, a);
      MoveWaits(s.core, CoreAfter(validIp, s, a), k, s.pc.first);
    }
  }

  lemma LosingWaits(s: State, k: Key)
    requires Losing(s, k)
    ensures Waiting(s.core, k, s.pc.first)
  {
    hide Tracking, PcOk, HostOf, Creatable;
  }

  lemma LosingStale(validIp: string -> bool, s: State, a: Action, k: Key)
    requires Losing(s, k) && Enabled(s, a) && Smooth(s, a)
    ensures HostOf(k) in CoreAfter(validIp, s, a).cache.stale
  {
    hide Host, EntryOf, Creatable, AllCreatable, ListsOk, AgesOk;
    if a.Publish? {
      var j := s.core.all[a.id].key;
      assert OwnedAt(s.core, a.id);
      assert OwnedAt(s.core, s.core.watchers[k]);
      if HostOf(j) == HostOf(k) { HostInjective(j.kind, j.name, k.kind, k.name); }
    }
  }

  lemma LosingStep(validIp: string -> bool, s: State, a: Action, s': State, k: Key)
    requires Losing(s, k) && Steps(validIp, s, a, s') && Smooth(s, a)
    ensures Losing(s', k)
  {
    hide Tracking, PcOk, HostOf, Creatable, CoreAfter, OthersFrom;
    TrackStep(validIp, s, a);
    PcStep(validIp, s, a);
    LosingCore(validIp, s, a, k);
    LosingStale(validIp, s, a, k);
  }

  /** One smooth step further. */
  lemma Go(validIp: string -> bool, s: State, mid: State, a: Action, k: Key) returns (s': State)
    requires Reaches(validIp, s, mid) && Losing(mid, k) && Enabled(mid, a) && Smooth(mid, a)
    ensures Steps(validIp, mid, a, s') && Reaches(validIp, s, s') && Losing(s', k)
  {
    hide Losing, CoreAfter, PcAfter, Enabled, Reaches, Smooth;
    s' := State(CoreAfter(validIp, mid, a), PcAfter(mid, a));
    GoSmooth(mid, a);
    LosingStep(validIp, mid, a, s', k);
    ReachesNext(validIp, s, mid, a, s');
  }

  lemma GoSmooth(s: State, a: Action)
    requires Smooth(s, a)
    ensures !a.Begin?
  {
  }

  /** A tracked watcher can be stopped, at the latest once its ready signal is out. */
  lemma MakeStoppable(validIp: string -> bool, s: State, j: Key, k: Key) returns (s': State)
    requires Losing(s, k) && j in s.core.registries
    ensures Reaches(validIp, s, s') && Losing(s', k) && s'.pc == s.pc && s'.core.registries == s.core.registries
    ensures Stoppable(s'.core, j)
  {
    hide Losing, Reaches;
    LosingTracks(s, j, k);
    ReachesSelf(validIp, s);
    var id := s.core.watchers[j];
    if s.core.all[id].phase == Pushed {
      s' := Go(validIp, s, s, Signal(id), k);
    } else {
      s' := s;
    }
  }

  lemma LosingTracks(s: State, j: Key, k: Key)
    requires Losing(s, k) && j in s.core.registries
    ensures TrackedAt(s.core, j)
  {
    assert j in s.core.watchers;
  }

  lemma LosingLists(s: State, k: Key)
    requires Losing(s, k)
    ensures s.pc.Working? && !s.pc.failed
    ensures s.pc.toDelete <= s.core.registries.Keys && s.pc.toUpdate <= s.core.registries.Keys
    ensures s.pc.toUpdate <= s.pc.desired.Keys && s.pc.toCreate <= s.pc.desired.Keys
    ensures AllCreatable(s.pc.desired, s.pc.toUpdate) && AllCreatable(s.pc.desired, s.pc.toCreate)
  {
    hide Tracking, AgesOk, Creatable, HostOf, Keyed;
  }

  lemma {:induction false} DrainDeletes(validIp: string -> bool, s: State, k: Key) returns (s': State)
    requires Losing(s, k)
    ensures Reaches(validIp, s, s') && Losing(s', k) && s'.pc == s.pc.(toDelete := {})
    decreases |s.pc.toDelete|
  {
    hide Losing, Reaches;
    LosingLists(s, k);
    if s.pc.toDelete == {} {
      ReachesSelf(validIp, s);
      return s;
    }
    var j :| j in s.pc.toDelete;
    var s1 := MakeStoppable(validIp, s, j, k);
    var s2 := Go(validIp, s, s1, StopDeleted(j), k);
    s' := DrainDeletes(validIp, s2, k);
    ReachesTrans(validIp, s, s2, s');
  }

  lemma {:induction false} DrainUpdates(validIp: string -> bool, s: State, k: Key) returns (s': State)
    requires Losing(s, k) && s.pc.toDelete == {} && s.pc.mid.None?
    ensures Reaches(validIp, s, s') && Losing(s', k) && s'.pc == s.pc.(toUpdate := {})
    decreases |s.pc.toUpdate|
  {
    hide Losing, Reaches, Creatable;
    LosingLists(s, k);
    if s.pc.toUpdate == {} {
      ReachesSelf(validIp, s);
      return s;
    }
    var j :| j in s.pc.toUpdate;
    var s1 := MakeStoppable(validIp, s, j, k);
    var s2 := Go(validIp, s, s1, StopUpdated(j), k);
    var s3 := Go(validIp, s, s2, StartUpdated, k);
    s' := DrainUpdates(validIp, s3, k);
    ReachesTrans(validIp, s, s3, s');
  }

  lemma {:induction false} DrainCreates(validIp: string -> bool, s: State, k: Key) returns (s': State)
    requires Losing(s, k) && s.pc.toDelete == {} && s.pc.toUpdate == {} && s.pc.mid.None?
    ensures Reaches(validIp, s, s') && Losing(s', k) && s'.pc == s.pc.(toCreate := {})
    decreases |s.pc.toCreate|
  {
    hide Losing, Reaches, Creatable;
    LosingLists(s, k);
    ReachesSelf(validIp, s);
    if s.pc.toCreate == {} {
      return s;
    }
    var j :| j in s.pc.toCreate;
    var s1 := Go(validIp, s, s, StartCreated(j), k);
    s' := DrainCreates(validIp, s1, k);
    ReachesTrans(validIp, s, s1, s');
  }

  ghost predicate DoneBetween(c: Core, first: nat, n: nat) {
    forall id :: first <= id < n ==> DoneAt(c, id)
  }

  /** The new watchers run one after the other. */
  lemma {:induction false} RunNew(validIp: string -> bool, s: State, k: Key, n: nat) returns (s': State)
    requires Losing(s, k) && s.pc.first <= n <= |s.core.all|
    ensures Reaches(validIp, s, s') && Losing(s', k) && s'.pc == s.pc && |s'.core.all| == |s.core.all|
    ensures DoneBetween(s'.core, s.pc.first, n)
    decreases n
  {
    hide Losing, Reaches, Published;
    LosingLists(s, k);
    if n == s.pc.first {
      ReachesSelf(validIp, s);
      return s;
    }
    var s1 := RunNew(validIp, s, k, n - 1);
    var id := n - 1;
    var s2 := s1;
    if s1.core.all[id].phase == Started { s2 := Go(validIp, s, s1, Publish(id, 0), k); }
    s' := s2;
    if s2.core.all[id].phase == Pushed { s' := Go(validIp, s, s2, Signal(id), k); }
    forall m | s.pc.first <= m < n
      ensures DoneAt(s'.core, m)
    {
      if m < id { assert DoneAt(s1.core, m); }
    }
  }

  lemma LosingAges(s: State, k: Key)
    requires Losing(s, k)
    ensures s.pc.first <= |s.core.all|
  {
    hide Tracking, ListsOk, Creatable, HostOf, Keyed;
  }

  /** The purge that ends such a call. */
  lemma LosingEnds(validIp: string -> bool, s: State, k: Key) returns (s': State)
    requires Losing(s, k) && Settled(s.pc) && AllDoneFrom(s.core, s.pc.first)
    ensures Reaches(validIp, s, s') && HostOf(k) !in s'.core.cache.services && s'.pc.Idle?
  {
    hide HostOf, Reaches, Tracking, PcOk;
    var fin := State(s.core, Finishing(s.pc.desired, s.pc.first, s.pc.calm));
    s' := State(s.core.(cache := Purge(s.core.cache)), Idle);
    ReachesSelf(validIp, s);
    assert Steps(validIp, s, AllReady, fin);
    ReachesNext(validIp, s, s, AllReady, fin);
    assert Steps(validIp, fin, PurgeStep, s');
    ReachesNext(validIp, s, fin, PurgeStep, s');
  }

  lemma BeginLoses(validIp: string -> bool, s: State, s': State, desired: Spec, k: Key)
    requires Inv(validIp, s) && Steps(validIp, s, Begin(desired), s') && Exposed(s.core, desired, k)
    requires AllCreatable(desired, Created(s.core.registries, desired) + Updated(s.core.registries, desired))
    ensures Losing(s', k)
  {
    hide HostOf, Creatable, Serving, Tracking;
    BeginPcOk(s, Begin(desired));
  }

  /** From an idle state: an exposed host is lost in some interleaving of the call, whatever else
      the specification changes, as long as the factory accepts the changed configurations. */
  lemma ExposedIsLost(validIp: string -> bool, s: State, desired: Spec, k: Key)
    returns (states: seq<State>, actions: seq<Action>)
    requires Inv(validIp, s) && s.pc.Idle? && Keyed(desired) && Exposed(s.core, desired, k)
    requires AllCreatable(desired, Created(s.core.registries, desired) + Updated(s.core.registries, desired))
    ensures OneCall(validIp, states, actions, desired) && states[0] == s
    ensures HostOf(k) !in states[|actions|].core.cache.services && states[|actions|].pc.Idle?
  {
    hide Inv, Exposed, AllCreatable, HostOf, Losing, Reaches, Steps, DoneBetween, AllDoneFrom;
    var s1 := BeginState(validIp, s, desired);
    BeginLoses(validIp, s, s1, desired, k);
    var s2 := DrainDeletes(validIp, s1, k);
    var s3 := DrainUpdates(validIp, s2, k);
    var s4 := DrainCreates(validIp, s3, k);
    LosingAges(s4, k);
    var s5 := RunNew(validIp, s4, k, |s4.core.all|);
    DoneAll(s5.core, s4.pc.first);
    var s6 := LosingEnds(validIp, s5, k);
    ReachesTrans(validIp, s1, s2, s3);
    ReachesTrans(validIp, s1, s3, s4);
    ReachesTrans(validIp, s1, s4, s5);
    ReachesTrans(validIp, s1, s5, s6);
    states, actions := CallOf(validIp, s, s1, s6, desired);
  }

  lemma BeginState(validIp: string -> bool, s: State, desired: Spec) returns (s': State)
    requires s.pc.Idle? && Keyed(desired)
    ensures Steps(validIp, s, Begin(desired), s') && s'.pc.Working? && s'.pc.mid.None?
  {
    hide OldDone, Keyed;
    s' := State(CoreAfter(validIp, s, Begin(desired)), PcAfter(s, Begin(desired)));
  }

  lemma DoneAll(c: Core, first: nat)
    requires DoneBetween(c, first, |c.all|)
    ensures AllDoneFrom(c, first)
  {
  }

  lemma CallOf(validIp: string -> bool, s: State, s1: State, end: State, desired: Spec)
    returns (states: seq<State>, actions: seq<Action>)
    requires Steps(validIp, s, Begin(desired), s1) && Reaches(validIp, s1, end)
    ensures OneCall(validIp, states, actions, desired) && states[0] == s && states[|actions|] == end
  {
    hide Steps;
    var ss, aa :| Connects(validIp, ss, aa, s1, end);
    states, actions := [s] + ss, [Begin(desired)] + aa;
    forall m | 0 <= m < |actions|
      ensures Steps(validIp, states[m], actions[m], states[m + 1])
    {
      if m > 0 { assert Steps(validIp, ss[m - 1], aa[m - 1], ss[m]); }
    }
  }

  // ---- A call that the factory makes fail ---------------------------------------

  /** The call is over or will not reach its purge: `j` is still to be created, or has failed. */
  ghost predicate Failing(pc: Pc, desired: Spec, j: Key) {
    pc.Idle? || (pc.Working? && pc.desired == desired &&
        (pc.failed || j in pc.toUpdate || j in pc.toCreate || pc.mid == Some(j)))
  }

  lemma FailingStep(validIp: string -> bool, s: State, a: Action, s': State, desired: Spec, j: Key)
    requires Steps(validIp, s, a, s') && Failing(s.pc, desired, j) && !a.Begin?
    requires j in desired && !Creatable(desired[j])
    ensures Failing(s'.pc, desired, j) && !a.PurgeStep?
  {
    hide CoreAfter, Creatable, AllDoneFrom;
  }

  lemma BeginFails(validIp: string -> bool, s: State, s': State, desired: Spec, j: Key)
    requires Steps(validIp, s, Begin(desired), s')
    requires j in Created(s.core.registries, desired) + Updated(s.core.registries, desired)
    ensures Failing(s'.pc, desired, j)
  {
    hide CoreAfter, Keyed, OldDone;
  }

  /** A specification with a changed configuration that the factory refuses loses nothing. */
  lemma {:induction false} RefusedKeeps(
    validIp: string -> bool, states: seq<State>, actions: seq<Action>, desired: Spec, j: Key, h: string, n: nat)
    requires OneCall(validIp, states, actions, desired) && 0 < n <= |actions| && h in states[0].core.cache.services
    requires j in Created(states[0].core.registries, desired) + Updated(states[0].core.registries, desired)
    requires !Creatable(desired[j])
    ensures Failing(states[n].pc, desired, j) && h in states[n].core.cache.services
  {
    hide CoreAfter, PcAfter, Enabled, Creatable, Failing;
    var s, a, s' := states[n - 1], actions[n - 1], states[n];
    assert Steps(validIp, s, a, s');
    OnlyPurgeRemoves(validIp, s, a);
    if n > 1 {
      RefusedKeeps(validIp, states, actions, desired, j, h, n - 1);
      FailingStep(validIp, s, a, s', desired, j);
    } else {
      BeginFails(validIp, s, s', desired, j);
    }
  }

  // ---- The exact condition ------------------------------------------------------

  ghost predicate Changed(registries: Spec, desired: Spec, j: Key) {
    j in Created(registries, desired) + Updated(registries, desired)
  }

  ghost predicate LosesAt(
    validIp: string -> bool, states: seq<State>, actions: seq<Action>, j: nat, s: State, desired: Spec, k: Key)
  {
    && OneCall(validIp, states, actions, desired) && states[0] == s && 0 < j <= |actions|
    && HostOf(k) !in states[j].core.cache.services
  }

  ghost predicate LostInSomeCall(validIp: string -> bool, s: State, desired: Spec, k: Key) {
    exists states, actions, j :: LosesAt(validIp, states, actions, j, s, desired, k)
  }

  /** The exact condition, which a caller can check before the call: a desired, well-formed, cached
      host can be lost if and only if it is exposed and the factory accepts every changed
      configuration. */
  lemma GapIffExposed(validIp: string -> bool, s: State, desired: Spec, k: Key)
    requires Inv(validIp, s) && s.pc.Idle? && Keyed(desired)
    requires k in desired && Valid(validIp, desired[k]) && HostOf(k) in s.core.cache.services
    ensures LostInSomeCall(validIp, s, desired, k) <==>
              Exposed(s.core, desired, k) && forall j :: Changed(s.core.registries, desired, j) ==>
                  Creatable(desired[j])
  {
    hide Inv, Exposed, HostOf, Valid, Keyed, Creatable;
    var regs := s.core.registries;
    if Exposed(s.core, desired, k) && forall j :: Changed(regs, desired, j) ==> Creatable(desired[j]) {
      assert forall j :: j in Created(regs, desired) + Updated(regs, desired) ==> Changed(regs, desired, j);
      var states, actions := ExposedIsLost(validIp, s, desired, k);
      assert LosesAt(validIp, states, actions, |actions|, s, desired, k);
    } else if LostInSomeCall(validIp, s, desired, k) {
      var states, actions, n :| LosesAt(validIp, states, actions, n, s, desired, k);
      if !Exposed(s.core, desired, k) {
        KeptInCall(validIp, states, actions, desired, k, n);
      } else {
        var j :| Changed(regs, desired, j) && !Creatable(desired[j]);
        RefusedKeeps(validIp, states, actions, desired, j, HostOf(k), n);
      }
      assert false;
    }
  }
}
