/** hgctl/pkg/helm/recover.go: the install mode and namespace that recovery arrives at. */
module InstallModes {
  import opened Wrappers
  import opened HelmValues
  import opened Recovering
  import opened Normalising
  import opened HelmRendering

  /** boolAt: absent, a boolean, or an error. */
  function BoolAt(v: Value, o: Owner): Option<Option<bool>> {
    match Get(v, PathOf(o))
    case None => Some(None)
    case Some(x) => if x.Bool? then Some(Some(x.b)) else None
  }

  /** recoveredProfileName: the two signals must not disagree. */
  function RecoveredProfileName(v: Value): Option<string> {
    var local :- BoolAt(v, LocalFlag);
    var kind :- BoolAt(v, KindFlag);
    if local.Some? && kind.Some? && local.value != kind.value then None
    else if local.Some? then Some(NameOf(local.value))
    else Some(NameOf(kind.Some? && kind.value))
  }

  function NameOf(local: bool): string {
    if local then "local-k8s" else "k8s"
  }

  /** The profile name and mode once the first `i` owners are consumed: the later signal wins. */
  ghost predicate Arrived(s: Settings, r: Settings, v: Value, i: nat) {
    var local, kind := BoolAt(v, LocalFlag), BoolAt(v, KindFlag);
    var from := if i > 4 && local.Some? && local.value.Some? then Installed(s, local.value.value) else s;
    var to := if i > 5 && kind.Some? && kind.value.Some? then Installed(s, kind.value.value) else from;
    r.profile == to.profile && r.install == to.install
  }

  lemma SetMode(a: Owner, s: Settings, v: Value)
    requires SetTyped(a, s, v).Some?
    ensures var r := SetTyped(a, s, v).value;
            if a == LocalFlag || a == KindFlag then v.Bool? && r == Installed(s, v.b)
            else r.profile == s.profile && r.install == s.install
  {
  }

  lemma Signals(i: nat)
    requires i < |OWNERS|
    ensures OWNERS[i] == LocalFlag <==> i == 4
    ensures OWNERS[i] == KindFlag <==> i == 5
  {
  }

  lemma {:induction false} ConsumedMode(s: Settings, v: Value, i: nat)
    requires v.Map? && i <= |OWNERS| && Consume(s, v, i).Some?
    ensures Arrived(s, Consume(s, v, i).value.0, v, i)
  {
    hide OWNERS, PathOf, SetTyped, Get, Remove;
    if i > 0 {
      ConsumedMode(s, v, i - 1);
      ConsumedOwners(s, v, i - 1, i - 1);
      Signals(i - 1);
      var r, a := Consume(s, v, i - 1).value, OWNERS[i - 1];
      if Get(r.1, PathOf(a)).Some? { SetMode(a, r.0, Get(r.1, PathOf(a)).value); }
    }
  }

  /** Recovery keeps the mode it chose its baseline for: when the signals name a profile and the
      baseline is that profile, normalisation ends in the same profile and mode. */
  lemma ModeRecovered(s: Settings, v: Value)
    requires v.Map? && Normalise(s, v).Some? && RecoveredProfileName(v).Some?
    requires s.profile == RecoveredProfileName(v).value && s.install == Installed(s, s.profile == "local-k8s").install
    ensures var r := Normalise(s, v).value.0; r.profile == s.profile && r.install == s.install
  {
    hide OWNERS, PathOf, Get, Consume, Prune;
    ConsumedMode(s, v, |OWNERS|);
    OwnerCount();
  }

  lemma OwnerCount()
    ensures |OWNERS| == 22
  {
  }

  /** Conflicting signals: normalisation alone would follow `global.kind`. */
  lemma KindWins(s: Settings, v: Value, kind: bool)
    requires v.Map? && Normalise(s, v).Some?
    requires BoolAt(v, LocalFlag) == Some(Some(!kind)) && BoolAt(v, KindFlag) == Some(Some(kind))
    ensures RecoveredProfileName(v).None? && Normalise(s, v).value.0.profile == NameOf(kind)
  {
    hide OWNERS, PathOf, Get, Consume, Prune;
    ConsumedMode(s, v, |OWNERS|);
    OwnerCount();
  }

  // ---- Namespace ----------------------------------------------------------------

  lemma SetNamespace(a: Owner, s: Settings, v: Value)
    requires SetTyped(a, s, v).Some?
    ensures SetTyped(a, s, v).value.namespace == if a == Namespace then v.s else s.namespace
    ensures a == Namespace ==> v.Str?
  {
  }

  lemma {:induction false} ConsumedNamespace(s: Settings, v: Value, i: nat)
    requires v.Map? && i <= |OWNERS| && Consume(s, v, i).Some?
    ensures Consume(s, v, i).value.0.namespace == TextOr(if i > 1 then Get(v, PathOf(Namespace)) else None, s.namespace)
  {
    hide OWNERS, PathOf, SetTyped, Get, Remove;
    if i > 0 {
      ConsumedNamespace(s, v, i - 1);
      ConsumedOwners(s, v, i - 1, i - 1);
      SecondOwner(i - 1);
      var r, a := Consume(s, v, i - 1).value, OWNERS[i - 1];
      if Get(r.1, PathOf(a)).Some? { SetNamespace(a, r.0, Get(r.1, PathOf(a)).value); }
    }
  }

  lemma SecondOwner(i: nat)
    requires i < |OWNERS|
    ensures OWNERS[i] == Namespace <==> i == 1
  {
  }

  /** The namespace of the release is consumed into the typed profile, or left as it was. */
  lemma NamespaceRecovered(s: Settings, v: Value)
    requires v.Map? && Normalise(s, v).Some?
    ensures Normalise(s, v).value.0.namespace == TextOr(Get(v, PathOf(Namespace)), s.namespace)
  {
    hide OWNERS, PathOf, Get, Consume, Prune;
    ConsumedNamespace(s, v, |OWNERS|);
    OwnerCount();
  }
}
