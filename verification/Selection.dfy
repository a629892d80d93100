/** Which plugins a managed release selects, stated on file contents and on input hashes. */
module Selection {
  import opened Wrappers
  import opened Text
  import opened Semver
  import opened ReleaseModel
  import opened Inputs
  import opened Planning

  /** A release after a managed one, and a plugin it could carry: no override, not an alpha. */
  ghost predicate ManagedCandidate(input: PlanInput, p: Plugin) {
    && Plannable(input)
    && p in input.catalog.plugins && p.releaseEligible
    && input.previous.value.provenanceMode != BOOTSTRAP_PUBLIC
    && input.previous.value.sourceCommit != ""
    && p.logicalId in EntryMap(input.previous.value.plugins)
    && p.logicalId !in input.overrides
    && CurrentVersion(TargetTree(input), p).Some?
    && !IsAlpha(CurrentVersion(TargetTree(input), p).value)
  }

  ghost function TargetTree(input: PlanInput): Tree
    requires input.target in input.repo.commits
  {
    input.repo.commits[input.target]
  }

  ghost function BaseTree(input: PlanInput): Tree
    requires input.previous.Some? && input.previous.value.sourceCommit in input.repo.commits
  {
    input.repo.commits[input.previous.value.sourceCommit]
  }

  /** VERSION was edited to something else than the version on record. */
  ghost predicate HandEdited(input: PlanInput, p: Plugin)
    requires ManagedCandidate(input, p)
  {
    && Lookup(BaseTree(input), VersionPath(p)) != Lookup(TargetTree(input), VersionPath(p))
    && CurrentVersion(TargetTree(input), p).value != EntryMap(input.previous.value.plugins)[p.logicalId].version
  }

  lemma DiffIsChange(a: Tree, b: Tree, c: Catalog, p: Plugin, path: string)
    requires path in Diff(a, b) && InputMatches(c, p, path) && path != VersionPath(p)
    ensures Selected(a, c, p) - {VersionPath(p)} != Selected(b, c, p) - {VersionPath(p)}
  {
    hide InputMatches;
    var x, y := Selected(a, c, p) - {VersionPath(p)}, Selected(b, c, p) - {VersionPath(p)};
    assert Lookup(x, path) == Lookup(a, path) && Lookup(y, path) == Lookup(b, path);
  }

  lemma ChangeIsDiff(a: Tree, b: Tree, c: Catalog, p: Plugin) returns (path: string)
    requires Selected(a, c, p) - {VersionPath(p)} != Selected(b, c, p) - {VersionPath(p)}
    ensures path in Diff(a, b) && InputMatches(c, p, path) && path != VersionPath(p)
  {
    hide InputMatches;
    var x, y := Selected(a, c, p) - {VersionPath(p)}, Selected(b, c, p) - {VersionPath(p)};
    if forall k :: Lookup(x, k) == Lookup(y, k) {
      SameMaps(x, y);
    }
    path :| path in x.Keys + y.Keys && Lookup(x, path) != Lookup(y, path);
  }

  lemma SignalsExactly(ctx: Context, p: Plugin, current: string, base: Tree)
    requires ctx.paths == Ascending(Diff(base, ctx.tree))
    ensures Signals(RelevantPaths(ctx, p, ctx.paths), Restates(ctx, p, current), VersionPath(p)) <==>
            || Selected(base, ctx.catalog, p) - {VersionPath(p)} != Selected(ctx.tree, ctx.catalog,
                p) - {VersionPath(p)}
            || (Lookup(base, VersionPath(p)) != Lookup(ctx.tree, VersionPath(p)) && !Restates(ctx, p, current))
  {
    hide InputMatches, RelevantPaths, Selected, Ascending, Restates;
    var vp, r, changed := VersionPath(p), Restates(ctx, p, current), RelevantPaths(ctx, p, ctx.paths);
    if Signals(changed, r, vp) {
      var i :| 0 <= i < |changed| && IsSignal(changed[i], r, vp);
      assert changed[i] in ctx.paths && changed[i] in Diff(base, ctx.tree);
      if changed[i] != vp { DiffIsChange(base, ctx.tree, ctx.catalog, p, changed[i]); }
    }
    if Selected(base, ctx.catalog, p) - {vp} != Selected(ctx.tree, ctx.catalog, p) - {vp} {
      var path := ChangeIsDiff(base, ctx.tree, ctx.catalog, p);
      assert path in changed;
      assert IsSignal(path, r, vp);
    }
    if Lookup(base, vp) != Lookup(ctx.tree, vp) && !r {
      assert vp in Diff(base, ctx.tree) && vp in changed;
      assert IsSignal(vp, r, vp);
    }
  }

  /** A managed release plans a plugin exactly when an input other than VERSION changed since
      the previous release, or VERSION was hand-edited. */
  lemma SelectionOnContents(input: PlanInput, plan: Plan, p: Plugin)
    requires PlanOf(input) == Some(plan) && ManagedCandidate(input, p)
    ensures p.logicalId in PlanMap(plan.body.plugins) <==>
            || Selected(BaseTree(input), input.catalog, p) - {VersionPath(p)} !=
               Selected(TargetTree(input), input.catalog, p) - {VersionPath(p)}
            || HandEdited(input, p)
  {
    hide PlanOf, Selected, RelevantPaths, EntryMap, PlanMap, Signals, ParseSemver, ValidCatalog, HashOf, ChooseVersion;
    PlanContents(input, plan, p);
    var ctx := InputContext(input);
    SignalsExactly(ctx, p, CurrentVersion(ctx.tree, p).value, BaseTree(input));
  }

  /** The same on input hashes, for plugins no shared input group hands a VERSION file to: a
      plugin is planned exactly when its input hash differs between the two commits, or VERSION
      was hand-edited. `v` is any version text; the hash compares the inputs. */
  lemma SelectionOnHashes(input: PlanInput, plan: Plan, p: Plugin, v: string)
    requires ValidRepo(input.repo) && PlanOf(input) == Some(plan) && ManagedCandidate(input, p)
    requires !SharedMatches(input.catalog, p, VersionPath(p)) && '\0' !in v
    ensures p.logicalId in PlanMap(plan.body.plugins) <==>
            || HashOf(BaseTree(input), v, input.catalog, p) != HashOf(TargetTree(input), v, input.catalog, p)
            || HandEdited(input, p)
  {
    hide PlanOf, PlanMap, EntryMap, InputMatches, ParseSemver, ValidCatalog, HashOf, IsAlpha;
    SelectionOnContents(input, plan, p);
    VersionIsDocumentation(input.catalog, p, p.sourceDir);
    var a, b := BaseTree(input), TargetTree(input);
    assert Selected(a, input.catalog, p) - {VersionPath(p)} == Selected(a, input.catalog, p);
    assert Selected(b, input.catalog, p) - {VersionPath(p)} == Selected(b, input.catalog, p);
    HashExact(a, v, input.catalog, p, b, v, input.catalog, p);
  }
}
