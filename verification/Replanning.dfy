/** applyPlan, and the fixpoint of preparing the same release again. */
module Replanning {
  import opened Wrappers
  import opened Text
  import opened Semver
  import opened ReleaseModel
  import opened Inputs
  import opened Planning
  import opened Selection
  import opened Rendering
  import opened Preflight
  import opened Verifying
  import opened Releasing
  import opened Agreement

  function EntryVersionPath(e: PlanEntry): string {
    e.sourceDir + "/VERSION"
  }

  /** The tree after applyPlan: one VERSION file per planned plugin. */
  function Applied(t: Tree, entries: seq<PlanEntry>): Tree {
    if entries == [] then t
    else
      var e := entries[|entries| - 1];
      Applied(t, entries[..|entries| - 1])[EntryVersionPath(e) := e.version + ['\n']]
  }

  /** The checked-out files applyPlan writes to. */
  class WorkTree {
    var files: Tree

    constructor (t: Tree)
      ensures files == t
    {
      files := t;
    }

    method ApplyPlan(plan: Plan)
      modifies this
      ensures files == Applied(old(files), plan.body.plugins)
    {
      var es := plan.body.plugins;
      for i := 0 to |es|
        invariant files == Applied(old(files), es[..i])
      {
        assert es[..i + 1][..i] == es[..i];
        files := files[EntryVersionPath(es[i]) := es[i].version + ['\n']];
      }
      assert es[..|es|] == es;
    }
  }

  lemma {:induction false} AppliedElsewhere(t: Tree, es: seq<PlanEntry>, path: string)
    requires forall i :: 0 <= i < |es| ==> EntryVersionPath(es[i]) != path
    ensures Lookup(Applied(t, es), path) == Lookup(t, path)
  {
    hide EntryVersionPath;
    if es != [] {
      AppliedElsewhere(t, es[..|es| - 1], path);
    }
  }

  lemma {:induction false} AppliedAt(t: Tree, es: seq<PlanEntry>, k: nat)
    requires k < |es|
    requires forall i, j :: 0 <= i < j < |es| ==> EntryVersionPath(es[i]) != EntryVersionPath(es[j])
    ensures Lookup(Applied(t, es), EntryVersionPath(es[k])) == Some(es[k].version + ['\n'])
  {
    hide EntryVersionPath;
    if k < |es| - 1 {
      AppliedAt(t, es[..|es| - 1], k);
    }
  }

  /** Preparing again, without overrides, on top of the snapshot just rendered, at a commit that
      differs from the first target only by what applyPlan wrote. */
  ghost predicate Again(r: ReleaseInput, plan: Plan, s: Snapshot, again: PlanInput) {
    && Plannable(again)
    && again.catalog == r.planned.catalog
    && again.previous == Some(s)
    && again.baseRef == ""
    && again.overrides == map[]
    && r.planned.target in r.planned.repo.commits
    && r.planned.target in again.repo.commits
    && again.repo.commits[r.planned.target] == Target(r)
    && again.repo.commits[again.target] == Applied(Target(r), plan.body.plugins)
  }

  /** No shared input group matches the VERSION file of a planned plugin. */
  ghost predicate VersionsUnshared(c: Catalog, plan: Plan) {
    forall p, i :: p in c.plugins && 0 <= i < |plan.body.plugins| ==>
        !SharedMatches(c, p, EntryVersionPath(plan.body.plugins[i]))
  }

  /** The plugin's planned version survives its VERSION file: it has no surrounding space, or
      the file already held exactly this text. */
  ghost predicate Restated(r: ReleaseInput, e: PlanEntry)
    requires r.planned.target in r.planned.repo.commits
  {
    Trimmed(e.version) || Lookup(Target(r), EntryVersionPath(e)) == Some(e.version + ['\n'])
  }

  lemma PlannedPaths(r: ReleaseInput, plan: Plan, i: nat) returns (p: Plugin)
    requires PlanOf(r.planned) == Some(plan) && i < |plan.body.plugins|
    ensures p in r.planned.catalog.plugins && p.releaseEligible && p.logicalId == plan.body.plugins[i].logicalId
    ensures PlanMap(plan.body.plugins)[p.logicalId] == plan.body.plugins[i]
    ensures EntryVersionPath(plan.body.plugins[i]) == VersionPath(p)
  {
    hide PlanOf, PlanMap, Decide;
    PlanIds(r.planned, plan);
    assert plan.body.plugins[i] in plan.body.plugins;
    p :| p in r.planned.catalog.plugins && p.releaseEligible && p.logicalId == plan.body.plugins[i].logicalId;
    PlanMapAt(plan.body.plugins, i);
    PlanCatalog(r.planned, plan);
    PlanContents(r.planned, plan, p);
    DecidedImage(InputContext(r.planned), p);
  }

  lemma PathsDistinct(r: ReleaseInput, plan: Plan)
    requires PlanOf(r.planned) == Some(plan)
    ensures forall i, j :: 0 <= i < j < |plan.body.plugins| ==>
              EntryVersionPath(plan.body.plugins[i]) != EntryVersionPath(plan.body.plugins[j])
  {
    hide PlanOf, PlanMap, EntryVersionPath;
    PlanIds(r.planned, plan);
    forall i, j | 0 <= i < j < |plan.body.plugins|
      ensures EntryVersionPath(plan.body.plugins[i]) != EntryVersionPath(plan.body.plugins[j])
    {
      var p := PlannedPaths(r, plan, i);
      var q := PlannedPaths(r, plan, j);
      StrLtTotal(p.logicalId, q.logicalId);
      PlanCatalog(r.planned, plan);
      DistinctPaths(r.planned.catalog, p, q);
    }
  }

  lemma DistinctPaths(c: Catalog, p: Plugin, q: Plugin)
    requires ValidCatalog(c) && p in c.plugins && q in c.plugins && p.logicalId != q.logicalId
    ensures VersionPath(p) != VersionPath(q)
  {
    hide ValidPlugin, Contains;
    if VersionPath(p) == VersionPath(q) { VersionPathInjective(p, q); }
    var i :| 0 <= i < |c.plugins| && c.plugins[i] == p;
    var j :| 0 <= j < |c.plugins| && c.plugins[j] == q;
  }

  /** VERSION after applyPlan. */
  lemma VersionAfter(r: ReleaseInput, plan: Plan, p: Plugin)
    requires PlanOf(r.planned) == Some(plan) && p in r.planned.catalog.plugins && p.releaseEligible
    ensures r.planned.target in r.planned.repo.commits
    ensures Lookup(Applied(Target(r), plan.body.plugins), VersionPath(p)) ==
            if p.logicalId in PlanMap(plan.body.plugins)
                then Some(PlanMap(plan.body.plugins)[p.logicalId].version + ['\n'])
            else Lookup(Target(r), VersionPath(p))
  {
    hide PlanOf, PlanMap, EntryVersionPath, VersionPath, Applied, DeferredHere, CurrentVersion, IsAlpha, HashOf,
         ParseSemver;
    var es := plan.body.plugins;
    Decided(r, plan, p);
    PathsDistinct(r, plan);
    PlanCatalog(r.planned, plan);
    if p.logicalId in PlanMap(es) {
      var k :| 0 <= k < |es| && es[k] == PlanMap(es)[p.logicalId];
      var q := PlannedPaths(r, plan, k);
      SameId(r.planned.catalog.plugins, p, q);
      AppliedAt(Target(r), es, k);
    } else {
      forall i | 0 <= i < |es|
        ensures EntryVersionPath(es[i]) != VersionPath(p)
      {
        var q := PlannedPaths(r, plan, i);
        assert es[i] in es;
        DistinctPaths(r.planned.catalog, p, q);
      }
      AppliedElsewhere(Target(r), es, VersionPath(p));
    }
  }

  /** applyPlan changes no plugin's inputs. */
  lemma InputsAfter(r: ReleaseInput, plan: Plan, p: Plugin)
    requires PlanOf(r.planned) == Some(plan) && p in r.planned.catalog.plugins &&
              VersionsUnshared(r.planned.catalog, plan)
    requires r.planned.target in r.planned.repo.commits
    ensures Selected(Applied(Target(r), plan.body.plugins), r.planned.catalog, p) == Selected(Target(r),
              r.planned.catalog, p)
  {
    hide PlanOf, Applied, InputMatches, SharedMatches;
    var a, b, c := Target(r), Applied(Target(r), plan.body.plugins), r.planned.catalog;
    forall path | InputMatches(c, p, path)
      ensures Lookup(a, path) == Lookup(b, path)
    {
      forall i | 0 <= i < |plan.body.plugins|
        ensures EntryVersionPath(plan.body.plugins[i]) != path
      {
        VersionIsDocumentation(c, p, plan.body.plugins[i].sourceDir);
      }
      AppliedElsewhere(a, plan.body.plugins, path);
    }
    SameSelected(a, b, c, p);
  }

  lemma SameSelected(a: Tree, b: Tree, c: Catalog, p: Plugin)
    requires forall path :: InputMatches(c, p, path) ==> Lookup(a, path) == Lookup(b, path)
    ensures Selected(a, c, p) == Selected(b, c, p)
  {
    hide InputMatches;
    var x, y := Selected(a, c, p), Selected(b, c, p);
    forall path
      ensures Lookup(x, path) == Lookup(y, path)
    {
      if path in x.Keys + y.Keys { assert InputMatches(c, p, path); }
    }
    SameMaps(x, y);
  }

  /** A version with surrounding space can only come from an override, so it is stable. */
  lemma UntrimmedIsStable(ctx: Context, id: string, t: Tree, p: Plugin)
    requires CurrentVersion(t, p).Some? && ChooseVersion(ctx, id, CurrentVersion(t, p).value).Some?
    ensures var v := ChooseVersion(ctx, id, CurrentVersion(t, p).value).value; Trimmed(v) || Stable(v)
  {
    hide ParseSemver, CompareSemver, TrimSpace, IsSpace;
    TrimFixpoint(t[VersionPath(p)]);
    CurrentParses(t, p);
    ChosenParses(ctx, id, CurrentVersion(t, p).value);
    if id !in ctx.overrides && id in ctx.previous {
      NextVersionIsLarger(ctx.previous[id].version, CurrentVersion(t, p).value);
      NextBootstrapVersionAdvances(ctx.previous[id].version, CurrentVersion(t, p).value);
      TrimFixpoint(ChooseVersion(ctx, id, CurrentVersion(t, p).value).value);
    }
  }

  lemma PlannedVersionKind(r: ReleaseInput, plan: Plan, p: Plugin)
    requires PlanOf(r.planned) == Some(plan) && p in r.planned.catalog.plugins &&
              p.logicalId in PlanMap(plan.body.plugins)
    ensures var v := PlanMap(plan.body.plugins)[p.logicalId].version;
            && (Trimmed(v) || Stable(v)) && ParseSemver(v).Some? && !IsAlpha(TrimSpace(v))
  {
    hide PlanOf, PlanMap, ChooseVersion, Affected, RelevantPaths, EntryMap, HashOf, ResolveBase, ValidCatalog,
         ParseSemver, Trimmed, TrimSpace;
    PlanCatalog(r.planned, plan);
    PlanContents(r.planned, plan, p);
    var ctx := InputContext(r.planned);
    CurrentParses(ctx.tree, p);
    var current := CurrentVersion(ctx.tree, p).value;
    UntrimmedIsStable(ctx, p.logicalId, ctx.tree, p);
    ChosenParses(ctx, p.logicalId, current);
    ParseTrimmed(PlanMap(plan.body.plugins)[p.logicalId].version);
    if Stable(PlanMap(plan.body.plugins)[p.logicalId].version) {
      StableNotAlpha(PlanMap(plan.body.plugins)[p.logicalId].version);
    }
  }

  lemma StableNotAlpha(v: string)
    requires Stable(v)
    ensures !IsAlpha(v)
  {
    hide ParseSemver;
  }

  /** The second decision on one plugin: never an error, and a selection exactly for a planned
      version that its VERSION file does not restate. */
  lemma SecondDecision(r: ReleaseInput, plan: Plan, s0: Snapshot, s: Snapshot, again: PlanInput, p: Plugin)
    requires Step(r, plan, s0, s) && Again(r, plan, s, again) && VersionsUnshared(r.planned.catalog, plan)
    requires p in r.planned.catalog.plugins
    ensures Decide(InputContext(again), p).Some?
    ensures Decide(InputContext(again), p).value.Select? <==>
            p.releaseEligible && p.logicalId in PlanMap(plan.body.plugins) &&
            !Restated(r, PlanMap(plan.body.plugins)[p.logicalId])
  {
    hide Step, PlanOf, PlanMap, EntryMap, HashOf, ParseSemver, IsAlpha, CurrentVersion, DeferredHere, Applied,
         Affected, VersionsUnshared,
         ChooseVersion, Restated, InputContext, NewEntry, Plannable;
    if p.releaseEligible {
      SecondCurrent(r, plan, s0, s, again, p);
      StepPlan(r, plan, s0, s);
      Decided(r, plan, p);
      if !DeferredHere(Target(r), p) {
        SecondAffected(r, plan, s0, s, again, p);
        if p.logicalId in PlanMap(plan.body.plugins) && !Restated(r, PlanMap(plan.body.plugins)[p.logicalId]) {
          SecondVersion(r, plan, s0, s, again, p);
        }
      }
    }
  }

  lemma SecondCurrent(r: ReleaseInput, plan: Plan, s0: Snapshot, s: Snapshot, again: PlanInput, p: Plugin)
    requires Step(r, plan, s0, s) && Again(r, plan, s, again)
    requires p in r.planned.catalog.plugins && p.releaseEligible
    ensures CurrentVersion(InputContext(again).tree, p) ==
            if p.logicalId in PlanMap(plan.body.plugins)
                then Some(TrimSpace(PlanMap(plan.body.plugins)[p.logicalId].version))
            else CurrentVersion(Target(r), p)
    ensures IsAlpha(CurrentVersion(InputContext(again).tree, p).value) <==> DeferredHere(Target(r), p)
  {
    hide Step, PlanOf, PlanMap, EntryMap, ValidCatalog, ParseSemver, IsAlpha, Applied, TrimSpace, Trimmed,
         ResolveBase, HashOf;
    StepPlan(r, plan, s0, s);
    Decided(r, plan, p);
    VersionAfter(r, plan, p);
    if p.logicalId in PlanMap(plan.body.plugins) {
      var v := PlanMap(plan.body.plugins)[p.logicalId].version;
      TrimTrailing(v, '\n');
      PlannedVersionKind(r, plan, p);
      ParseTrimmed(v);
    }
  }

  lemma SecondAffected(r: ReleaseInput, plan: Plan, s0: Snapshot, s: Snapshot, again: PlanInput, p: Plugin)
    requires Step(r, plan, s0, s) && Again(r, plan, s, again) && VersionsUnshared(r.planned.catalog, plan)
    requires p in r.planned.catalog.plugins && p.releaseEligible && !DeferredHere(Target(r), p)
    requires CurrentVersion(InputContext(again).tree, p).Some?
    ensures p.logicalId in EntryMap(s.plugins) && !InputContext(again).bootstrap
    ensures Affected(InputContext(again), p, CurrentVersion(InputContext(again).tree, p).value) <==>
            p.logicalId in PlanMap(plan.body.plugins) && !Restated(r, PlanMap(plan.body.plugins)[p.logicalId])
  {
    SecondCurrent(r, plan, s0, s, again, p);
    hide Step, PlanOf, PlanMap, EntryMap, RelevantPaths, HashOf, ValidCatalog, ParseSemver, IsAlpha, CurrentVersion,
         DeferredHere, Signals, Applied,
         SharedMatches, Selected, TrimSpace, Trimmed, VersionsUnshared, EntrySound;
    StepPlan(r, plan, s0, s);
    StepHeader(r, plan, s0, s);
    ThreeWays(r, plan, s0, s, p);
    VersionAfter(r, plan, p);
    InputsAfter(r, plan, p);
    var ctx := InputContext(again);
    SignalsExactly(ctx, p, CurrentVersion(ctx.tree, p).value, Target(r));
    if p.logicalId in PlanMap(plan.body.plugins) {
      PlannedIsSound(r, plan, s0, s, p);
      var e := PlanMap(plan.body.plugins)[p.logicalId];
      assert EntryVersionPath(e) == VersionPath(p);
      TrimFixpoint(e.version);
    }
  }

  lemma SecondVersion(r: ReleaseInput, plan: Plan, s0: Snapshot, s: Snapshot, again: PlanInput, p: Plugin)
    requires Step(r, plan, s0, s) && Again(r, plan, s, again)
    requires p in r.planned.catalog.plugins && p.releaseEligible && !DeferredHere(Target(r), p)
    requires CurrentVersion(InputContext(again).tree, p).Some? && p.logicalId in EntryMap(s.plugins) &&
              !InputContext(again).bootstrap
    requires p.logicalId in PlanMap(plan.body.plugins) && !Restated(r, PlanMap(plan.body.plugins)[p.logicalId])
    ensures ChooseVersion(InputContext(again), p.logicalId, CurrentVersion(InputContext(again).tree, p).value).Some?
  {
    hide Step, PlanOf, PlanMap, EntryMap, HashOf, ValidCatalog, ParseSemver, IsAlpha, DeferredHere, Applied, Trimmed,
         EntrySound, CurrentVersion, IsSpace;
    StepPlan(r, plan, s0, s);
    PlannedIsSound(r, plan, s0, s, p);
    PlannedVersionKind(r, plan, p);
    var ctx := InputContext(again);
    CurrentParses(ctx.tree, p);
    NextVersionIsLarger(EntryMap(s.plugins)[p.logicalId].version, CurrentVersion(ctx.tree, p).value);
  }

  /** Re-preparation reaches a fixpoint: planning again on top of the rendered snapshot always
      succeeds, and selects no plugin exactly when every planned version is restated by its
      VERSION file. An override with surrounding space is the only way to break this. */
  lemma ReplanFixpoint(r: ReleaseInput, plan: Plan, s0: Snapshot, s: Snapshot, again: PlanInput)
    requires Step(r, plan, s0, s) && Again(r, plan, s, again) && VersionsUnshared(r.planned.catalog, plan)
    ensures PlanOf(again).Some?
    ensures PlanOf(again).value.body.plugins == [] <==>
            forall i :: 0 <= i < |plan.body.plugins| ==> Restated(r, plan.body.plugins[i])
  {
    hide Step, Decide, Again, Entries, Deferrals, Restated, PlanMap, ParseSemver, ValidCatalog, ResolveBase,
         SortPlugins, InputContext;
    AgainPlannable(r, plan, s, again);
    var ctx, ps := InputContext(again), SortPlugins(again.catalog.plugins);
    forall k | 0 <= k < |ps|
      ensures Decide(ctx, ps[k]).Some?
    {
      SecondDecision(r, plan, s0, s, again, ps[k]);
    }
    NothingSelected(r, plan, s0, s, again);
  }

  /** Any acceptable override is still accepted with a trailing space, and then its text is not
      trimmed: unless VERSION already held that very line, planning again selects the plugin. */
  lemma PaddedOverride(ctx: Context, id: string, space: char)
    requires id in ctx.overrides && AllowedOverride(ctx, id) && IsSpace(space)
    ensures var padded := ctx.(overrides := ctx.overrides[id := ctx.overrides[id] + [space]]);
            AllowedOverride(padded, id) && !Trimmed(padded.overrides[id])
  {
    hide ParseSemver, CompareSemver, TrimSpace, IsSpace;
    var v := ctx.overrides[id];
    TrimTrailing(v, space);
    ParseTrimmed(v);
    ParseTrimmed(v + [space]);
  }

  lemma PaddedReplans(r: ReleaseInput, plan: Plan, s0: Snapshot, s: Snapshot, again: PlanInput, i: nat)
    requires Step(r, plan, s0, s) && Again(r, plan, s, again) && VersionsUnshared(r.planned.catalog, plan)
    requires i < |plan.body.plugins| && !Trimmed(plan.body.plugins[i].version)
    requires Lookup(Target(r), EntryVersionPath(plan.body.plugins[i])) != Some(plan.body.plugins[i].version + ['\n'])
    ensures PlanOf(again).Some? && PlanOf(again).value.body.plugins != []
  {
    hide Step, Again, VersionsUnshared, PlanOf, Trimmed, EntryVersionPath;
    AgainPlannable(r, plan, s, again);
    ReplanFixpoint(r, plan, s0, s, again);
    assert !Restated(r, plan.body.plugins[i]);
  }

  lemma AgainPlannable(r: ReleaseInput, plan: Plan, s: Snapshot, again: PlanInput)
    requires Again(r, plan, s, again)
    ensures Plannable(again) && again.overrides == map[] && again.catalog == r.planned.catalog &&
              r.planned.target in r.planned.repo.commits
  {
    hide Plannable, Applied;
  }

  lemma NothingSelected(r: ReleaseInput, plan: Plan, s0: Snapshot, s: Snapshot, again: PlanInput)
    requires Step(r, plan, s0, s) && Again(r, plan, s, again) && VersionsUnshared(r.planned.catalog, plan)
    ensures Plannable(again) && r.planned.target in r.planned.repo.commits
    ensures Entries(InputContext(again), SortPlugins(again.catalog.plugins)) == [] <==>
            forall i :: 0 <= i < |plan.body.plugins| ==> Restated(r, plan.body.plugins[i])
  {
    hide Step, Decide, Again, Restated, PlanMap, ParseSemver, ValidCatalog, ResolveBase, SortPlugins, InputContext,
         PlanOf;
    AgainPlannable(r, plan, s, again);
    StepPlan(r, plan, s0, s);
    var ctx, ps := InputContext(again), SortPlugins(again.catalog.plugins);
    forall p | p in ps
      ensures Decide(ctx, p).Some?
      ensures Decide(ctx, p).value.Select? <==> p.releaseEligible && p.logicalId in PlanMap(plan.body.plugins) &&
                                                 !Restated(r, PlanMap(plan.body.plugins)[p.logicalId])
    {
      SecondDecision(r, plan, s0, s, again, p);
    }
    if forall i :: 0 <= i < |plan.body.plugins| ==> Restated(r, plan.body.plugins[i]) {
      NoEntries(ctx, ps);
    } else {
      var i :| 0 <= i < |plan.body.plugins| && !Restated(r, plan.body.plugins[i]);
      var p := PlannedPaths(r, plan, i);
      assert p in ps;
      EntriesComplete(ctx, ps, p);
    }
  }

  lemma {:induction false} NoEntries(ctx: Context, ps: seq<Plugin>)
    requires forall p :: p in ps ==> Decide(ctx, p).Some? && !Decide(ctx, p).value.Select?
    ensures Entries(ctx, ps) == []
  {
    hide Decide;
    if ps != [] {
      assert ps[|ps| - 1] in ps;
      NoEntries(ctx, ps[..|ps| - 1]);
    }
  }
}
