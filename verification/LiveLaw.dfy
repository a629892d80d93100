/** The live-set law step by step: which steps keep it, and how it is broken. */
module LiveLaw {
  import opened Wrappers
  import opened ServiceCache
  import opened Direct
  import opened Reconciling
  import opened Availability
  import opened LiveSet

  /** The live hosts are those pushed for the tracked registries, each holding its entry. */
  ghost predicate Lawful(validIp: string -> bool, c: Core) {
    && Live(c.cache) == PushedHosts(validIp, c)
    && forall k :: Pushes(validIp, c, k) ==> Holds(validIp, c.cache, HostOf(k), c.registries[k])
  }

  lemma LawfulIs(validIp: string -> bool, c: Core)
    requires Tracking(c)
    ensures Lawful(validIp, c) <==> Serving(validIp, c) && Exact(validIp, c, false)
  {
    hide Host, Valid, Holds, Tracking;
    if Lawful(validIp, c) {
      forall k | Pushes(validIp, c, k)
        ensures HostOf(k) in Live(c.cache)
      {
        PushesTracked(validIp, c, k);
        assert HostOf(k) in PushedHosts(validIp, c);
      }
      forall h | h in Live(c.cache)
        ensures Backed(validIp, c, h, false)
      {
        var k :| k in c.watchers && Pushes(validIp, c, k) && HostOf(k) == h;
        PushesTracked(validIp, c, k);
        assert Backs(validIp, c, k, h);
      }
    }
    if Serving(validIp, c) && Exact(validIp, c, false) {
      forall h | h in Live(c.cache)
        ensures h in PushedHosts(validIp, c)
      {
        var k :| Backs(validIp, c, k, h);
        PushesTracked(validIp, c, k);
      }
      forall k | Pushes(validIp, c, k)
        ensures Holds(validIp, c.cache, HostOf(k), c.registries[k])
      {
        assert HostOf(k) in Live(c.cache);
        assert Backed(validIp, c, HostOf(k), false);
        var j :| Backs(validIp, c, j, HostOf(k));
        PushesTracked(validIp, c, j);
        PushesTracked(validIp, c, k);
        SameHost(c, j, k);
      }
    }
  }

  lemma PushesTracked(validIp: string -> bool, c: Core, k: Key)
    requires Pushes(validIp, c, k)
    ensures k in c.watchers && k in c.registries
  {
    hide Valid;
  }

  // ---- A Run that outlives its Stop ---------------------------------------------

  /** It publishes what the registry that is tracked now has published. */
  ghost predicate SameEntry(validIp: string -> bool, c: Core, id: nat) {
    && id < |c.all| && Pushes(validIp, c, c.all[id].key)
    && WrapperFor(c.registries[c.all[id].key], validIp) == WrapperFor(c.all[id].config, validIp)
  }

  /** What a Run publishes for a configuration. */
  ghost function WrapperFor(config: RegistryConfig, validIp: string -> bool): Option<ServiceWrapper> {
    match EntryOf(config, validIp)
    case None => None
    case Some(entry) => Some(WrapperOf(config, entry))
  }

  lemma LateServes(validIp: string -> bool, c: Core, id: nat, now: nat, k: Key)
    requires Tracking(c) && id < |c.all| && c.all[id].stopped
    ensures Pushes(validIp, Push(validIp, c, id, now), k) <==> Pushes(validIp, c, k)
  {
    hide Valid, Published;
    if k in c.watchers { assert TrackedAt(c, k); }
  }

  /** From a lawful state, the late Run of a well-formed watcher keeps the law if and only if the
      tracked registry of its key has published the very same wrapper. */
  lemma LateRunExactly(validIp: string -> bool, c: Core, id: nat, now: nat)
    requires Tracking(c) && Lawful(validIp, c)
    requires id < |c.all| && c.all[id].stopped && c.all[id].phase == Started && Valid(validIp, c.all[id].config)
    ensures Lawful(validIp, Push(validIp, c, id, now)) <==> SameEntry(validIp, c, id)
  {
    hide Host, EntryOf, WrapperOf;
    var c', k := Push(validIp, c, id, now), c.all[id].key;
    var h := HostOf(k);
    assert OwnedAt(c, id);
    forall j
      ensures Pushes(validIp, c', j) <==> Pushes(validIp, c, j)
    {
      LateServes(validIp, c, id, now, j);
    }
    PushedAlike(validIp, c, c');
    assert h in Live(c'.cache);
    if SameEntry(validIp, c, id) {
      assert Holds(validIp, c.cache, h, c.registries[k]);
      assert TrackedAt(c, k) && OwnedAt(c, c.watchers[k]);
      assert KeyOf(c.registries[k]) == k;
      forall j | Pushes(validIp, c', j)
        ensures Holds(validIp, c'.cache, HostOf(j), c'.registries[j])
      {
        assert Holds(validIp, c.cache, HostOf(j), c.registries[j]);
        if HostOf(j) == h { SameHost(c, j, k); }
      }
    }
    if Lawful(validIp, c') { LateRunShows(validIp, c, id, now); }
  }

  /** A lawful result shows what the tracked registry had published. */
  lemma LateRunShows(validIp: string -> bool, c: Core, id: nat, now: nat)
    requires id < |c.all| && c.all[id].stopped && Valid(validIp, c.all[id].config)
    requires Tracking(c) && Lawful(validIp, Push(validIp, c, id, now))
    ensures SameEntry(validIp, c, id)
  {
    hide Host, EntryOf, WrapperOf;
    var c', k := Push(validIp, c, id, now), c.all[id].key;
    var h := HostOf(k);
    assert OwnedAt(c, id);
    assert h in Live(c'.cache);
    var j :| j in c'.watchers && Pushes(validIp, c', j) && HostOf(j) == h;
    LateServes(validIp, c, id, now, j);
    assert TrackedAt(c, j) && OwnedAt(c, c.watchers[j]);
    HostInjective(j.kind, j.name, k.kind, k.name);
    assert Holds(validIp, c'.cache, h, c'.registries[k]);
  }

  lemma PushedAlike(validIp: string -> bool, c: Core, c': Core)
    requires c'.watchers == c.watchers && forall j :: Pushes(validIp, c', j) <==> Pushes(validIp, c, j)
    ensures PushedHosts(validIp, c') == PushedHosts(validIp, c)
  {
    hide Pushes, HostOf;
  }

  // ---- Every step ---------------------------------------------------------------

  /** The two ways to break the law: a late Run with another wrapper, and a proxy update under the
      name of a tombstoned host. */
  ghost predicate Breaks(validIp: string -> bool, c: Core, a: Action) {
    || (Late(validIp, c, a) && !SameEntry(validIp, c, a.id))
    || !CleanProxy(c, a)
  }

  lemma UncleanBreaks(validIp: string -> bool, s: State, a: Action)
    requires Lawful(validIp, s.core) && Enabled(s, a) && !CleanProxy(s.core, a)
    ensures !Lawful(validIp, CoreAfter(validIp, s, a))
  {
    hide Valid, HostOf;
    var c' := CoreAfter(validIp, s, a);
    assert a.op.name in Live(c'.cache) && a.op.name !in Live(s.core.cache);
    assert forall j :: Pushes(validIp, c', j) <==> Pushes(validIp, s.core, j);
    PushedAlike(validIp, s.core, c');
  }

  /** In any state that a run can reach and that obeys the law, a step keeps the law if and only if
      it is not one of those two. */
  lemma LawStepExactly(validIp: string -> bool, s: State, a: Action)
    requires Tracking(s.core) && PcOk(s.core, s.pc) && Lawful(validIp, s.core) && Enabled(s, a)
    ensures Lawful(validIp, CoreAfter(validIp, s, a)) <==> !Breaks(validIp, s.core, a)
  {
    hide Tracking, PcOk, Lawful, Serving, Exact, CoreAfter, Enabled, CleanProxy, Valid, SameEntry;
    if !CleanProxy(s.core, a) {
      UncleanBreaks(validIp, s, a);
    } else if Late(validIp, s.core, a) {
      LateStarted(s, a);
      LateRunExactly(validIp, s.core, a.id, a.now);
      LateIsPush(validIp, s, a);
    } else {
      TrackStep(validIp, s, a);
      LawfulIs(validIp, s.core);
      LawfulIs(validIp, CoreAfter(validIp, s, a));
      ServingStep(validIp, s, a);
      ExactStep(validIp, s, a, false);
    }
  }

  lemma LateStarted(s: State, a: Action)
    requires a.Publish? && Enabled(s, a)
    ensures a.id < |s.core.all| && s.core.all[a.id].phase == Started
  {
  }

  lemma LateIsPush(validIp: string -> bool, s: State, a: Action)
    requires a.Publish? && Enabled(s, a)
    ensures CoreAfter(validIp, s, a) == Push(validIp, s.core, a.id, a.now)
  {
  }

  /** Along every run the law holds as long as no step breaks it, and the first step that does ends
      it. */
  lemma {:induction false} LawfulRuns(validIp: string -> bool, states: seq<State>, actions: seq<Action>, i: nat)
    requires Trace(validIp, states, actions) && i <= |actions|
    requires forall m :: 0 <= m < i ==> !Breaks(validIp, states[m].core, actions[m])
    ensures Lawful(validIp, states[i].core)
    ensures i < |actions| ==> (Lawful(validIp, states[i + 1].core) <==> !Breaks(validIp, states[i].core, actions[i]))
  {
    hide Lawful, Breaks, CoreAfter, PcAfter, Enabled, Tracking, PcOk, Serving;
    if i > 0 {
      LawfulRuns(validIp, states, actions, i - 1);
      AlwaysServing(validIp, states, actions, i - 1);
      assert Steps(validIp, states[i - 1], actions[i - 1], states[i]);
      LawStepExactly(validIp, states[i - 1], actions[i - 1]);
    } else {
      InitLawful(validIp);
    }
    if i < |actions| {
      AlwaysServing(validIp, states, actions, i);
      assert Steps(validIp, states[i], actions[i], states[i + 1]);
      LawStepExactly(validIp, states[i], actions[i]);
    }
  }

  lemma InitLawful(validIp: string -> bool)
    ensures Lawful(validIp, INIT.core)
  {
  }
}
