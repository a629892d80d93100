/** A managed release always goes through: from a plan, its candidates and a successful sweep to a
    snapshot that the verifier accepts. */
module Progress {
  import opened Wrappers
  import opened Text
  import opened Semver
  import opened ReleaseModel
  import opened Inputs
  import opened Planning
  import opened Rendering
  import opened Migrating
  import opened Preflight
  import opened Verifying
  import opened Exactness
  import opened Releasing
  import opened Chains
  import opened Bootstrapping

  ghost function ManagedRender(input: PlanInput, plan: Plan, evidence: Evidence): RenderInput {
    RenderInput(input.catalog, plan, input.previous, evidence, None)
  }

  /** Outside the bootstrap nothing is backfilled. */
  lemma NoBackfill(ctx: Context, p: Plugin)
    requires !ctx.bootstrap && Decide(ctx, p).Some? && Decide(ctx, p).value.Select?
    ensures !Decide(ctx, p).value.entry.backfill
  {
    hide ParseSemver, IsAlpha, CurrentVersion, RelevantPaths, HashOf, Affected, ChooseVersion;
  }

  /** A plugin that was never released is planned or deferred. */
  lemma NewIsDecided(ctx: Context, p: Plugin)
    requires p.releaseEligible && p.logicalId !in ctx.previous && Decide(ctx, p).Some?
    ensures !Decide(ctx, p).value.Skip?
  {
    hide ParseSemver, IsAlpha, CurrentVersion, RelevantPaths, HashOf, ChooseVersion;
  }

  lemma ContextIs(input: PlanInput)
    requires Plannable(input)
    ensures InputContext(input).bootstrap == FromBootstrap(input.previous)
    ensures InputContext(input).previous == PreviousEntries(input.previous)
  {
    hide ParseSemver, ValidCatalog, ResolveBase, EntryMap;
  }

  lemma ManagedHeader(input: PlanInput, plan: Plan)
    requires PlanOf(input) == Some(plan) && ValidRepo(input.repo)
    ensures plan.body.catalog == Sha256(input.catalog) && plan.body.schemaVersion == 1 && plan.planId.Sha256?
    ensures IsCommit(plan.body.sourceCommit) && Plannable(input)
  {
    hide ParseSemver, ValidCatalog, ResolveBase, Entries, Deferrals, Decidable, SortPlugins, IsCommit, NulFreePaths;
  }

  lemma ManagedPlanSound(input: PlanInput, plan: Plan)
    requires PlanOf(input) == Some(plan) && Plannable(input) && !FromBootstrap(input.previous)
    ensures PlanIsSound(plan.body, false, PreviousEntries(input.previous))
    ensures DeferredAreEligible(plan.body.deferred, SortPlugins(input.catalog.plugins))
  {
    hide PlanOf, PlanMap, EntryMap, SortPlugins, EligibleId, Plannable, Decide, InputContext, FromBootstrap;
    PlanIds(input, plan);
    PlanCatalog(input, plan);
    ContextIs(input);
    var es, ds := plan.body.plugins, plan.body.deferred;
    forall i, j | 0 <= i < j < |es|
      ensures es[i].logicalId != es[j].logicalId
    {
      StrLtTotal(es[i].logicalId, es[j].logicalId);
    }
    forall i, j | 0 <= i < j < |ds|
      ensures ds[i].logicalId != ds[j].logicalId
    {
      StrLtTotal(ds[i].logicalId, ds[j].logicalId);
    }
    forall i | 0 <= i < |es|
      ensures !es[i].backfill
    {
      assert es[i] in es;
      var p :| p in input.catalog.plugins && p.releaseEligible && p.logicalId == es[i].logicalId;
      PlanContents(input, plan, p);
      PlanMapAt(es, i);
      NoBackfill(InputContext(input), p);
    }
    forall i | 0 <= i < |ds|
      ensures ds[i].reason == "alpha-prerelease" && ds[i].logicalId !in PlanMap(es)
      ensures EligibleId(SortPlugins(input.catalog.plugins), ds[i].logicalId)
    {
      FirstDeferral(input, plan, i);
    }
  }

  lemma ManagedEntry(input: PlanInput, plan: Plan, evidence: Evidence, p: Plugin)
    requires PlanOf(input) == Some(plan) && Plannable(input) && EvidenceFor(plan, evidence)
    requires p in input.catalog.plugins && p.releaseEligible
    ensures RenderOne(ManagedRender(input, plan, evidence), p).Some?
  {
    hide PlanOf, PlanMap, EntryMap, Plannable, Decide, InputContext, EvidenceMatches, PreviousEntries;
    PlanContents(input, plan, p);
    ContextIs(input);
    if p.logicalId in PlanMap(plan.body.plugins) {
      var k :| 0 <= k < |plan.body.plugins| && plan.body.plugins[k] == PlanMap(plan.body.plugins)[p.logicalId];
    } else if p.logicalId !in PreviousEntries(input.previous) {
      NewIsDecided(InputContext(input), p);
      var d := Decide(InputContext(input), p).value.deferral;
      var k :| 0 <= k < |plan.body.deferred| && plan.body.deferred[k] == d;
      assert IsDeferred(plan.body.deferred, p.logicalId);
    }
  }

  /** Every plan of a managed release renders, whatever candidates were built for it. */
  lemma ManagedRenders(input: PlanInput, plan: Plan, evidence: Evidence)
    requires ValidRepo(input.repo) && PlanOf(input) == Some(plan) && !FromBootstrap(input.previous) &&
              EvidenceFor(plan, evidence)
    ensures RenderOf(ManagedRender(input, plan, evidence)).Some?
  {
    hide PlanOf, SortPlugins, RenderOne, PlanIsSound, DeferredAreEligible, EvidenceFor, ValidRepo, Plannable,
         RenderEntries, SnapshotFrom;
    ManagedHeader(input, plan);
    ManagedPlanSound(input, plan);
    var ps := SortPlugins(input.catalog.plugins);
    forall i | 0 <= i < |ps| && ps[i].releaseEligible
      ensures RenderOne(ManagedRender(input, plan, evidence), ps[i]).Some?
    {
      ManagedEntry(input, plan, evidence, ps[i]);
    }
  }

  ghost function SweepInputOf(input: PlanInput, plan: Plan, evidence: Evidence, registry: Registry): SweepInput {
    SweepInput(input.catalog, plan, input.previous, Some(evidence), registry)
  }

  ghost function ManagedInput(input: PlanInput, evidence: Evidence, report: Report): ReleaseInput {
    ReleaseInput(input, evidence, None, Some(report))
  }

  lemma SweepOnPlanned(planned: PlanInput, rendered: RenderInput, swept: SweepInput, s: Snapshot, report: Report)
    requires SameRelease(planned, rendered, swept, s) && SweepOf(swept) == Some(report)
    ensures ReportOnPlanned(Some(report), rendered.plan)
  {
    hide PlanOf, RenderOf, SweepOf, ReportMap, Occupied, MigrationValid, ApplyReport, ReportValid, PlanMap;
    SweepReportBinds(planned, rendered, swept, s, report);
    forall id | id in ReportMap(report.entries)
      ensures id in PlanMap(rendered.plan.body.plugins)
    {
      var k :| 0 <= k < |swept.plan.body.plugins| && swept.plan.body.plugins[k].logicalId == id &&
               Occupied(swept, swept.plan.body.plugins[k], rendered.evidence);
      assert rendered.plan.body.plugins[k] in rendered.plan.body.plugins;
    }
  }

  /** From a sound previous snapshot with valid markers, a plan, candidates for it and a successful
      sweep, the release exists, the verifier accepts it, and it is again a sound snapshot with
      valid markers. */
  lemma ReleaseGoesThrough(
    input: PlanInput, plan: Plan, evidence: Evidence, registry: Registry, report: Report,
    c: Catalog, previous: Snapshot, files: map<string, BootstrapEvidence>)
    returns (s0: Snapshot, s: Snapshot)
    requires ValidRepo(input.repo) && PlanOf(input) == Some(plan) && EvidenceFor(plan, evidence)
    requires input.previous == Some(previous) && !FromBootstrap(input.previous)
    requires SoundSnapshot(input.repo, c, previous) && MigrationValid(previous) &&
              KeepsRecords(c, input.catalog, previous, plan)
    requires Stable(input.gatewayVersion) && NoOtherPrereleases(ManagedInput(input, evidence, report))
    requires SweepOf(SweepInputOf(input, plan, evidence, registry)) == Some(report)
    ensures Step(ManagedInput(input, evidence, report), plan, s0, s)
    ensures Accepts(VerifyInputOf(ManagedInput(input, evidence, report), plan, s, files))
    ensures SoundSnapshot(input.repo, input.catalog, s) && MigrationValid(s)
  {
    hide ValidRepo, PlanOf, RenderOf, EvidenceFor, SoundSnapshot, MigrationValid, KeepsRecords, Stable,
         NoOtherPrereleases, SweepOf, Accepts,
         ReportOnPlanned, ApplyReport, ReportValid, ReportMap;
    var ri, swept := ManagedRender(input, plan, evidence), SweepInputOf(input, plan, evidence, registry);
    ManagedRenders(input, plan, evidence);
    s0 := RenderOf(ri).value;
    SweepReportBinds(input, ri, swept, s0, report);
    s := ApplyReport(s0, report).value;
    var r := ManagedInput(input, evidence, report);
    assert Step(r, plan, s0, s);
    SweepOnPlanned(input, ri, swept, s0, report);
    StepAccepted(Link(r, plan, s0), c, previous, s, input.repo, files);
  }

  // ---- Starting from a verified snapshot ----------------------------------------

  /** A snapshot that the verifier accepts, with stable versions and explicit provenance, is sound:
      a chain can start from it. */
  lemma AcceptedIsSound(input: VerifyInput)
    requires Accepts(input) && Stable(input.snapshot.gatewayVersion)
    requires forall i :: 0 <= i < |input.snapshot.plugins| ==>
               Stable(input.snapshot.plugins[i].version) && input.snapshot.plugins[i].provenanceMode != ""
    ensures SoundSnapshot(input.repo, input.catalog, input.snapshot)
  {
    hide Accepts, Stable, EntrySound;
    var s := input.snapshot;
    AcceptedHeader(input);
    forall i | 0 <= i < |s.plugins|
      ensures SoundEntry(input.repo, input.catalog, s.plugins[i])
    {
      AcceptedEntry(input, i);
    }
  }

  lemma AcceptedHeader(input: VerifyInput)
    requires Accepts(input)
    ensures input.snapshot.schemaVersion == 1 && DistinctEntries(input.snapshot.plugins)
  {
    hide EntryOk, PlanBound, PreviousBound, MarkerBound, EntriesBound, DeferredMap, SourceOk, Complete, ParseSemver,
         IsCommit, MigrationValid,
         ValidCatalog;
    var es := input.snapshot.plugins;
    forall i, j | 0 <= i < j < |es|
      ensures es[i].logicalId != es[j].logicalId
    {
      StrLtTotal(es[i].logicalId, es[j].logicalId);
    }
  }
}
