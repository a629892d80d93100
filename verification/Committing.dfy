/** Verification at the commit that merges the preparation: VERSION files and inputs there must equal
    what the snapshot records. */
module Committing {
  import opened Wrappers
  import opened Text
  import opened Semver
  import opened ReleaseModel
  import opened Inputs
  import opened Planning
  import opened Rendering
  import opened Migrating
  import opened Preflight
  import opened Verifying
  import opened Exactness
  import opened Releasing
  import opened Agreement
  import opened Replanning

  /** The commit holds exactly what applyPlan wrote on top of the target. */
  ghost predicate Merges(r: ReleaseInput, plan: Plan, merged: string) {
    && r.planned.target in r.planned.repo.commits && merged in r.planned.repo.commits
    && r.planned.repo.commits[merged] == Applied(Target(r), plan.body.plugins)
  }

  /** A planned version survives its VERSION file; a carried entry still describes the target. */
  ghost predicate UpToDate(r: ReleaseInput, plan: Plan, p: Plugin, e: SnapshotEntry)
    requires r.planned.target in r.planned.repo.commits
  {
    if p.logicalId in PlanMap(plan.body.plugins) then Trimmed(e.version)
    else
      && CurrentVersion(Target(r), p) == Some(e.version)
      && HashOf(Target(r), e.version, r.planned.catalog, p) == e.inputHash
  }

  lemma CommittedEntry(r: ReleaseInput, plan: Plan, s0: Snapshot, s: Snapshot, merged: string, p: Plugin)
    requires Step(r, plan, s0, s) && Merges(r, plan, merged) && VersionsUnshared(r.planned.catalog, plan)
    requires p in r.planned.catalog.plugins && p.releaseEligible && p.logicalId in EntryMap(s.plugins)
    ensures var e := EntryMap(s.plugins)[p.logicalId];
            CommittedOk(r.planned.repo, merged, r.planned.catalog, p, e) <==> UpToDate(r, plan, p, e)
  {
    hide Step, PlanOf, PlanMap, EntryMap, Applied, VersionsUnshared, Selected, Preimage, Trimmed, TrimSpace,
         DeferredHere, EntrySound;
    var e, t := EntryMap(s.plugins)[p.logicalId], Target(r);
    StepPlan(r, plan, s0, s);
    VersionAfter(r, plan, p);
    InputsAfter(r, plan, p);
    Decided(r, plan, p);
    if p.logicalId in PlanMap(plan.body.plugins) {
      PlannedIsSound(r, plan, s0, s, p);
      PlannedHash(r, plan, s0, s, p);
      assert IsSpace('\n');
      TrimTrailing(e.version, '\n');
      TrimFixpoint(e.version);
    } else {
      CurrentText(t, p);
    }
  }

  lemma PlannedHash(r: ReleaseInput, plan: Plan, s0: Snapshot, s: Snapshot, p: Plugin)
    requires Step(r, plan, s0, s) && p in r.planned.catalog.plugins && p.releaseEligible &&
              p.logicalId in PlanMap(plan.body.plugins)
    ensures r.planned.target in r.planned.repo.commits && p.logicalId in EntryMap(s.plugins)
    ensures var e := EntryMap(s.plugins)[p.logicalId]; HashOf(Target(r), e.version, r.planned.catalog, p) == e.inputHash
  {
    hide Step, PlanMap, EntryMap, HashOf, EntrySound, DeferredHere;
    PlannedIsSound(r, plan, s0, s, p);
    StepPlan(r, plan, s0, s);
    Decided(r, plan, p);
  }

  lemma CurrentText(t: Tree, p: Plugin)
    requires CurrentVersion(t, p).Some?
    ensures VersionPath(p) in t && CurrentVersion(t, p).value == TrimSpace(t[VersionPath(p)])
  {
  }

  ghost predicate AllUpToDate(r: ReleaseInput, plan: Plan, s: Snapshot)
    requires r.planned.target in r.planned.repo.commits
  {
    forall p | p in r.planned.catalog.plugins && p.releaseEligible && p.logicalId in EntryMap(s.plugins) &&
               !DeferredHere(Target(r), p) ::
      UpToDate(r, plan, p, EntryMap(s.plugins)[p.logicalId])
  }

  /** With the merge commit supplied as committed source, a release is accepted exactly when it is
      accepted without it, every planned version survives its VERSION file, and every carried,
      undeferred entry still records VERSION and inputs of the target. */
  lemma CommittedExactly(r: ReleaseInput, plan: Plan, s0: Snapshot, s: Snapshot,
      files: map<string, BootstrapEvidence>, merged: string)
    requires Step(r, plan, s0, s) && Merges(r, plan, merged) && VersionsUnshared(r.planned.catalog, plan)
    ensures var input := VerifyInputOf(r, plan, s, files);
            Accepts(input.(committed := Some(merged))) <==> Accepts(input) && AllUpToDate(r, plan, s)
  {
    hide Step, Accepts, EntryMap, DeferredHere, UpToDate, VersionsUnshared, Merges, CommittedOk;
    var input := VerifyInputOf(r, plan, s, files);
    var input' := input.(committed := Some(merged));
    StepSource(r, plan, s0, s);
    MergedThere(r, plan, merged);
    OnlyCommitted(input, merged);
    forall i | 0 <= i < |s.plugins|
      ensures CommittedAt(input', i) <==>
              exists p :: p in r.planned.catalog.plugins && p.releaseEligible &&
                  p.logicalId == s.plugins[i].logicalId &&
                          (DeferredHere(Target(r), p) || UpToDate(r, plan, p, s.plugins[i]))
      ensures forall p | p in r.planned.catalog.plugins && p.releaseEligible &&
                         p.logicalId == s.plugins[i].logicalId ::
                (CommittedAt(input', i) <==> DeferredHere(Target(r), p) || UpToDate(r, plan, p, s.plugins[i]))
    {
      var p := FinishedSource(r, plan, s0, s, i);
      CommittedEntry(r, plan, s0, s, merged, p);
      UniquePlugin(r, plan, s0, s, p);
    }
    if Accepts(input) && AllUpToDate(r, plan, s) {
      forall i | 0 <= i < |s.plugins|
        ensures CommittedAt(input', i)
      {
        var p := FinishedSource(r, plan, s0, s, i);
      }
    }
    if Accepts(input') {
      forall p | p in r.planned.catalog.plugins && p.releaseEligible && p.logicalId in EntryMap(s.plugins) &&
          !DeferredHere(Target(r), p)
        ensures UpToDate(r, plan, p, EntryMap(s.plugins)[p.logicalId])
      {
        var i :| 0 <= i < |s.plugins| && s.plugins[i] == EntryMap(s.plugins)[p.logicalId];
        assert CommittedAt(input', i);
      }
    }
  }

  lemma MergedThere(r: ReleaseInput, plan: Plan, merged: string)
    requires Merges(r, plan, merged)
    ensures merged in r.planned.repo.commits
  {
    hide Applied;
  }

  /** Catalog ids are unique, so the verifier's lookup finds the very plugin. */
  lemma UniquePlugin(r: ReleaseInput, plan: Plan, s0: Snapshot, s: Snapshot, p: Plugin)
    requires Step(r, plan, s0, s) && p in r.planned.catalog.plugins
    ensures p.logicalId in PluginMap(r.planned.catalog.plugins) &&
              PluginMap(r.planned.catalog.plugins)[p.logicalId] == p
    ensures forall q :: q in r.planned.catalog.plugins && q.logicalId == p.logicalId ==> q == p
  {
    hide Step, PluginMap, PlanOf, ValidCatalog;
    StepPlan(r, plan, s0, s);
    PlanCatalog(r.planned, plan);
    CatalogDistinct(r.planned.catalog);
    PluginMapOf(r.planned.catalog.plugins, p);
    forall q | q in r.planned.catalog.plugins && q.logicalId == p.logicalId
      ensures q == p
    {
      SameId(r.planned.catalog.plugins, p, q);
    }
  }

  ghost predicate CommittedAt(input: VerifyInput, i: nat) {
    && i < |input.snapshot.plugins| && input.committed.Some? && input.snapshot.sourceCommit in input.repo.commits
    && var id := input.snapshot.plugins[i].logicalId;
       && id in PluginMap(input.catalog.plugins)
       && var p := PluginMap(input.catalog.plugins)[id];
          DeferredHere(SourceTree(input), p) ||
          CommittedOk(input.repo, input.committed.value, input.catalog, p, input.snapshot.plugins[i])
  }

  /** What the committed source adds to acceptance. */
  lemma OnlyCommitted(input: VerifyInput, merged: string)
    requires input.committed.None? && merged in input.repo.commits
    ensures var input' := input.(committed := Some(merged));
            Accepts(input') <==> Accepts(input) && forall i :: 0 <= i < |input.snapshot.plugins| ==>
                CommittedAt(input', i)
  {
    hide PlanBound, PreviousBound, MarkerBound, DeferredMap, EntrySound, DeferredHere, CommittedOk, PluginMap,
         EntryMap, ParseSemver, IsCommit,
         MigrationValid, ValidCatalog, CurrentVersion, EntryBinds;
    var input' := input.(committed := Some(merged));
    var es := input.snapshot.plugins;
    forall i | 0 <= i < |es| && input.snapshot.sourceCommit in input.repo.commits
      ensures EntryOk(input', es[i]) <==> EntryOk(input, es[i]) && CommittedAt(input', i)
      ensures EntryBinds(input', es[i]) <==> EntryBinds(input, es[i])
    {
      BindsAlike(input, input', es[i]);
    }
    MarkerAlike(input, input');
  }

  lemma BindsAlike(input: VerifyInput, input': VerifyInput, e: SnapshotEntry)
    requires input' == input.(committed := input'.committed)
    ensures EntryBinds(input', e) <==> EntryBinds(input, e)
  {
    hide EntryMap, PlanMap;
  }

  lemma MarkerAlike(input: VerifyInput, input': VerifyInput)
    requires input' == input.(committed := input'.committed)
    ensures MarkerBound(input') <==> MarkerBound(input)
  {
    hide EvidenceBound;
  }
}
