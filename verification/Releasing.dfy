/** One release: plan, render, bind the sweep; and the verifier's verdict on the result. */
module Releasing {
  import opened Wrappers
  import opened Text
  import opened Semver
  import opened ReleaseModel
  import opened Inputs
  import opened Planning
  import opened Rendering
  import opened Migrating
  import opened Preflight
  import opened Verifying

  datatype ReleaseInput = ReleaseInput(
    planned: PlanInput,
    evidence: Evidence,
    bootstrapEvidence: Option<BootstrapEvidence>,
    report: Option<Report>)

  function RenderInputOf(r: ReleaseInput, plan: Plan): RenderInput {
    RenderInput(r.planned.catalog, plan, r.planned.previous, r.evidence, r.bootstrapEvidence)
  }

  /** The end of commandRender: bind the report, or insist that nothing is excluded. */
  function Finish(s: Snapshot, report: Option<Report>): Option<Snapshot> {
    match report
    case Some(r) => ApplyReport(s, r)
    case None => if MarkedIds(s.plugins) == [] then Some(s) else None
  }

  method CommandRender(input: RenderInput, report: Option<Report>) returns (r: Result<Snapshot>)
    ensures r.ToOption() == if RenderOf(input).None? then None else Finish(RenderOf(input).value, report)
  {
    hide RenderOf, ApplyReport;
    r := RenderSnapshot(input);
    if r.Failure? {
      return;
    }
    if report.Some? {
      r := ApplyMigrationReport(r.value, report.value);
      return;
    }
    var es := r.value.plugins;
    for i := 0 to |es|
      invariant MarkedIds(es[..i]) == []
    {
      assert es[..i + 1][..i] == es[..i];
      if es[i].migration.Some? {
        MarkedIdsMember(es, es[i].logicalId);
        return Failure("a migration report is required to rebind carried exclusions");
      }
    }
    assert es[..|es|] == es;
  }

  ghost predicate Names(report: Option<Report>, id: string) {
    report.Some? && id in ReportMap(report.value.entries)
  }

  /** True of every report that the sweep of the same release produces. */
  ghost predicate ReportOnPlanned(report: Option<Report>, plan: Plan) {
    forall id :: Names(report, id) ==> id in PlanMap(plan.body.plugins)
  }

  /** One whole release step; `s0` is the snapshot before the report is bound. */
  ghost predicate Step(r: ReleaseInput, plan: Plan, s0: Snapshot, s: Snapshot) {
    && ValidRepo(r.planned.repo)
    && PlanOf(r.planned) == Some(plan)
    && RenderOf(RenderInputOf(r, plan)) == Some(s0)
    && Finish(s0, r.report) == Some(s)
  }

  // ---- The shape of a finished snapshot -----------------------------------------

  lemma NoMarkers(es: seq<SnapshotEntry>)
    requires MarkedIds(es) == []
    ensures forall i :: 0 <= i < |es| ==> es[i].migration.None?
    ensures AllMarkersValid(es)
  {
    forall i | 0 <= i < |es|
      ensures es[i].migration.None?
    {
      MarkedIdsMember(es, es[i].logicalId);
    }
  }

  /** What binding `report` may do to one entry: mark it if it is named, and then it had no marker. */
  ghost predicate MarkedBy(report: Option<Report>, e0: SnapshotEntry, e: SnapshotEntry) {
    && e == e0.(migration := e.migration)
    && if Names(report, e.logicalId) then e0.migration.None? && e.migration.Some? else e == e0
  }

  lemma BoundShape(s0: Snapshot, report: Report, s: Snapshot)
    requires ApplyReport(s0, report) == Some(s) && DistinctEntries(s0.plugins) && s0.migrationPreflight.None?
    ensures s == s0.(plugins := s.plugins, migrationPreflight := s.migrationPreflight) && |s.plugins| == |s0.plugins|
    ensures forall i :: 0 <= i < |s.plugins| ==> MarkedBy(Some(report), s0.plugins[i], s.plugins[i])
    ensures MigrationValid(s)
  {
    hide ReportMap, MarkEntries, MarkedIds, ReportValid, MarkerOf, SortStrings, MarkerValid;
    if report.entries == [] { EmptyReport(report.entries); }
    MarkShape(s0.plugins, ReportMap(report.entries), report.sourceCommit);
    if MarkedIds(s0.plugins) == [] { NoMarkers(s0.plugins); }
  }

  /** Binding a report touches markers only: it adds one to each entry it names, which had none. */
  lemma FinishedShape(r: ReleaseInput, plan: Plan, s0: Snapshot, s: Snapshot)
    requires Step(r, plan, s0, s)
    ensures s == s0.(plugins := s.plugins, migrationPreflight := s.migrationPreflight)
    ensures |s.plugins| == |s0.plugins|
    ensures forall i :: 0 <= i < |s.plugins| ==> MarkedBy(r.report, s0.plugins[i], s.plugins[i])
    ensures MigrationValid(s)
  {
    hide PlanOf, RenderOf, ApplyReport, MarkedIds, MarkerValid;
    PlanCatalog(r.planned, plan);
    SnapshotSorted(RenderInputOf(r, plan), s0);
    HeaderOf(RenderInputOf(r, plan), s0);
    if r.report.Some? {
      BoundShape(s0, r.report.value, s);
    } else {
      NoMarkers(s0.plugins);
    }
  }

  /** A bound report names entries of the snapshot. */
  lemma NamedPresent(r: ReleaseInput, plan: Plan, s0: Snapshot, s: Snapshot, id: string)
    requires Step(r, plan, s0, s) && Names(r.report, id)
    ensures id in EntryMap(s.plugins)
  {
    hide PlanOf, RenderOf, ReportMap, EntryMap, MarkEntries, MigrationValid, MarkedIds, IsDigest, Contains,
         ReportSorted;
    FinishedShape(r, plan, s0, s);
    var i := ReportMapIn(r.report.value.entries, id);
    assert ReportEntryValid(r.report.value.entries[i], r.report.value, EntryMap(s0.plugins));
    var k :| 0 <= k < |s0.plugins| && s0.plugins[k] == EntryMap(s0.plugins)[id];
    assert s.plugins[k] in s.plugins && s.plugins[k].logicalId == id;
  }

  lemma FinishedSorted(r: ReleaseInput, plan: Plan, s0: Snapshot, s: Snapshot)
    requires Step(r, plan, s0, s)
    ensures SortedEntries(s.plugins) && DistinctEntries(s.plugins)
  {
    hide PlanOf, RenderOf, PlanMap, Finish, MigrationValid, ReportMap;
    FinishedShape(r, plan, s0, s);
    PlanCatalog(r.planned, plan);
    SnapshotSorted(RenderInputOf(r, plan), s0);
    assert forall i :: 0 <= i < |s.plugins| ==> s.plugins[i].logicalId == s0.plugins[i].logicalId;
  }

  /** The finished snapshot's table against the rendering of each plugin. */
  lemma FinishedEntry(r: ReleaseInput, plan: Plan, s0: Snapshot, s: Snapshot, p: Plugin)
    requires Step(r, plan, s0, s) && p in r.planned.catalog.plugins
    ensures p.releaseEligible ==> RenderOne(RenderInputOf(r, plan), p).Some?
    ensures p.logicalId in EntryMap(s.plugins) <==> RenderedHere(RenderInputOf(r, plan), p).Some?
    ensures p.logicalId in EntryMap(s.plugins) ==>
              var e, e0 := EntryMap(s.plugins)[p.logicalId], RenderedHere(RenderInputOf(r, plan), p).value;
              && e == e0.(migration := e.migration)
              && if Names(r.report, p.logicalId) then e0.migration.None? && e.migration.Some? else e == e0
  {
    hide PlanOf, RenderOf, PlanMap, Finish, MigrationValid, RenderedHere, EntryMap, RenderOne;
    FinishedShape(r, plan, s0, s);
    FinishedSorted(r, plan, s0, s);
    PlanCatalog(r.planned, plan);
    SnapshotContents(RenderInputOf(r, plan), s0, p);
    SnapshotSorted(RenderInputOf(r, plan), s0);
    if p.logicalId in EntryMap(s.plugins) {
      var i :| 0 <= i < |s.plugins| && s.plugins[i] == EntryMap(s.plugins)[p.logicalId];
      EntryMapAt(s0.plugins, i);
      assert s0.plugins[i] in s0.plugins;
    }
    if p.logicalId in EntryMap(s0.plugins) {
      var i :| 0 <= i < |s0.plugins| && s0.plugins[i] == EntryMap(s0.plugins)[p.logicalId];
      EntryMapAt(s.plugins, i);
      assert s.plugins[i] in s.plugins;
    }
  }

  lemma FinishedSource(r: ReleaseInput, plan: Plan, s0: Snapshot, s: Snapshot, i: nat) returns (p: Plugin)
    requires Step(r, plan, s0, s) && i < |s.plugins|
    ensures p in r.planned.catalog.plugins && p.releaseEligible && p.logicalId == s.plugins[i].logicalId
    ensures p.logicalId in EntryMap(s.plugins) && EntryMap(s.plugins)[p.logicalId] == s.plugins[i]
  {
    hide PlanOf, RenderOf, PlanMap, Finish, MigrationValid, EntryMap, RenderOne;
    FinishedShape(r, plan, s0, s);
    FinishedSorted(r, plan, s0, s);
    p := SnapshotSource(RenderInputOf(r, plan), s0, i);
    EntryMapAt(s.plugins, i);
    assert s.plugins[i] in s.plugins;
  }

  // ---- What planning decided, entry by entry ------------------------------------

  ghost function Target(r: ReleaseInput): Tree
    requires r.planned.target in r.planned.repo.commits
  {
    r.planned.repo.commits[r.planned.target]
  }

  /** A planned version always parses. */
  lemma ChosenParses(ctx: Context, id: string, current: string)
    requires ParseSemver(current).Some? && ChooseVersion(ctx, id, current).Some?
    ensures ParseSemver(ChooseVersion(ctx, id, current).value).Some?
    ensures id in ctx.previous || id in ctx.overrides ==> Stable(ChooseVersion(ctx, id, current).value)
    ensures id !in ctx.previous && id !in ctx.overrides ==> ChooseVersion(ctx, id, current).value == current
  {
    hide ParseSemver, CompareSemver;
    if id in ctx.previous {
      NextVersionIsLarger(ctx.previous[id].version, current);
      NextBootstrapVersionAdvances(ctx.previous[id].version, current);
    }
  }

  /** The decision on an eligible plugin, in terms of the target tree. */
  lemma Decided(r: ReleaseInput, plan: Plan, p: Plugin)
    requires PlanOf(r.planned) == Some(plan) && p in r.planned.catalog.plugins && p.releaseEligible
    ensures r.planned.target in r.planned.repo.commits && CurrentVersion(Target(r), p).Some?
    ensures DeferredHere(Target(r), p) <==> IsDeferred(plan.body.deferred, p.logicalId)
    ensures DeferredHere(Target(r), p) ==> p.logicalId !in PlanMap(plan.body.plugins)
    ensures forall d :: d in plan.body.deferred && d.logicalId == p.logicalId ==>
              d == DeferredPlugin(p.logicalId, CurrentVersion(Target(r), p).value, "alpha-prerelease")
    ensures p.logicalId in PlanMap(plan.body.plugins) ==>
              var e := PlanMap(plan.body.plugins)[p.logicalId];
              && e.logicalId == p.logicalId && e.implementation == p.implementation
              && e.sourceDir == p.sourceDir && e.image == p.image
              && ParseSemver(e.version).Some?
              && e.inputHash == HashOf(Target(r), e.version, r.planned.catalog, p)
  {
    hide PlanOf, PlanMap, ChooseVersion, Affected, RelevantPaths, EntryMap, HashOf, ResolveBase, ValidCatalog,
         ParseSemver, IsAlpha;
    PlanCatalog(r.planned, plan);
    PlanContents(r.planned, plan, p);
    var ctx := InputContext(r.planned);
    if DeferredHere(Target(r), p) {
      var d := Decide(ctx, p).value.deferral;
      var k :| 0 <= k < |plan.body.deferred| && plan.body.deferred[k] == d;
      assert IsDeferred(plan.body.deferred, p.logicalId);
    }
    if IsDeferred(plan.body.deferred, p.logicalId) {
      var k :| 0 <= k < |plan.body.deferred| && plan.body.deferred[k].logicalId == p.logicalId;
      assert plan.body.deferred[k] in plan.body.deferred;
    }
    if p.logicalId in PlanMap(plan.body.plugins) {
      CurrentParses(ctx.tree, p);
      ChosenParses(ctx, p.logicalId, CurrentVersion(ctx.tree, p).value);
    }
  }

  lemma CurrentParses(t: Tree, p: Plugin)
    ensures CurrentVersion(t, p).Some? ==> ParseSemver(CurrentVersion(t, p).value).Some?
  {
    hide ParseSemver;
  }

  // ---- The verdict --------------------------------------------------------------

  ghost function VerifyInputOf(r: ReleaseInput, plan: Plan, s: Snapshot,
      files: map<string, BootstrapEvidence>): VerifyInput {
    VerifyInput(r.planned.repo, files, r.planned.catalog, s, Some(plan), r.planned.previous, None, None)
  }

  /** A first managed release has its bootstrap evidence committed. */
  ghost predicate EvidenceCommitted(r: ReleaseInput, files: map<string, BootstrapEvidence>) {
    r.bootstrapEvidence.Some? ==>
      EvidencePath(r.planned.gatewayVersion) in files &&
          files[EvidencePath(r.planned.gatewayVersion)] == r.bootstrapEvidence.value
  }

  /** The previous entry records its provenance, still satisfies the verifier under the new
      catalog, and is stable if its plugin is deferred now. */
  ghost predicate CarryOk(r: ReleaseInput, p: Plugin, prior: SnapshotEntry)
    requires r.planned.target in r.planned.repo.commits
  {
    && prior.provenanceMode != ""
    && EntrySound(r.planned.repo, r.planned.catalog, p, CarriedEntry(r.planned.catalog, p, prior))
    && (DeferredHere(Target(r), p) ==> Stable(prior.version))
  }

  ghost predicate Carries(r: ReleaseInput, plan: Plan, p: Plugin) {
    && p in r.planned.catalog.plugins && p.releaseEligible
    && p.logicalId !in PlanMap(plan.body.plugins)
    && p.logicalId in PreviousEntries(r.planned.previous)
  }

  /** What the previous snapshot must offer for its successor to verify. */
  ghost predicate Carriable(r: ReleaseInput, plan: Plan)
    requires r.planned.previous.Some? && r.planned.target in r.planned.repo.commits
  {
    var previous := r.planned.previous.value;
    && Stable(r.planned.gatewayVersion)
    && Stable(previous.gatewayVersion) && previous.schemaVersion == 1
    && DistinctEntries(previous.plugins)
    && forall p :: Carries(r, plan, p) ==> CarryOk(r, p, EntryMap(previous.plugins)[p.logicalId])
  }

  lemma PlannedIsSound(r: ReleaseInput, plan: Plan, s0: Snapshot, s: Snapshot, p: Plugin)
    requires Step(r, plan, s0, s) && p in r.planned.catalog.plugins && p.releaseEligible
    requires p.logicalId in PlanMap(plan.body.plugins)
    ensures p.logicalId in EntryMap(s.plugins)
    ensures EntrySound(r.planned.repo, r.planned.catalog, p, EntryMap(s.plugins)[p.logicalId])
    ensures PlannedMatches(PlanMap(plan.body.plugins)[p.logicalId], EntryMap(s.plugins)[p.logicalId], r.planned.target)
    ensures EntryMap(s.plugins)[p.logicalId].provenanceMode == "candidate"
  {
    hide PlanOf, RenderOf, Finish, PlanMap, EntryMap, ParseSemver, IsDigest, Preimage, CatalogConsumers;
    FinishedEntry(r, plan, s0, s, p);
    Decided(r, plan, p);
    StepHeader(r, plan, s0, s);
    BackfillIsStable(r, plan, s0, p.logicalId);
  }

  lemma BackfillIsStable(r: ReleaseInput, plan: Plan, s0: Snapshot, id: string)
    requires RenderOf(RenderInputOf(r, plan)) == Some(s0) && id in PlanMap(plan.body.plugins)
    ensures PlanMap(plan.body.plugins)[id].backfill ==>
              Stable(PlanMap(plan.body.plugins)[id].version) && FromBootstrap(r.planned.previous)
  {
    hide Renderable, RenderEntries, EvidenceBound, DeferredAreEligible, SortPlugins, PlanMap, ParseSemver, IsCommit,
         DistinctPlanned, DistinctDeferred,
         SnapshotFrom, EntryMap;
    var k :| 0 <= k < |plan.body.plugins| && plan.body.plugins[k] == PlanMap(plan.body.plugins)[id];
    assert BackfillAllowed(plan.body.plugins[k], FromBootstrap(r.planned.previous),
        PreviousEntries(r.planned.previous));
  }

  lemma StepHeader(r: ReleaseInput, plan: Plan, s0: Snapshot, s: Snapshot)
    requires Step(r, plan, s0, s)
    ensures Plannable(r.planned) && plan.planId == Sha256(plan.body) && plan.body.schemaVersion == 1
    ensures plan.body.sourceCommit == r.planned.target == s.sourceCommit && IsCommit(s.sourceCommit)
    ensures plan.body.gatewayVersion == r.planned.gatewayVersion == s.gatewayVersion
    ensures plan.body.previousRelease == r.planned.previous.value.gatewayVersion == s.previousRelease
    ensures plan.body.catalog == Sha256(r.planned.catalog) == s.catalog && s.planId == plan.planId &&
              s.schemaVersion == 1
    ensures plan.body.baseCommit == "" || IsCommit(plan.body.baseCommit)
    ensures s.provenanceMode == "candidate" || s.provenanceMode == "mixed"
    ensures s.bootstrapEvidence.Some? <==> FromBootstrap(r.planned.previous)
    ensures s.bootstrapEvidence.Some? ==> r.bootstrapEvidence.Some?
    ensures s.bootstrapEvidence.Some? ==>
              s.bootstrapEvidence.value == EvidenceMarker(EvidencePath(s.gatewayVersion),
                  Sha256(r.bootstrapEvidence.value))
    ensures s.bootstrapEvidence.Some? ==> EvidenceBound(s0.plugins, r.bootstrapEvidence.value)
    ensures DistinctPlanned(plan.body.plugins) && DistinctDeferred(plan.body.deferred)
    ensures forall i :: 0 <= i < |plan.body.deferred| ==> plan.body.deferred[i].logicalId !in PlanMap(plan.body.plugins)
    ensures AnyBackfill(plan.body.plugins) ==> FromBootstrap(r.planned.previous)
  {
    hide Finish, Renderable, RenderEntries, EvidenceBound, DeferredAreEligible, SortPlugins, PlanMap, ParseSemver,
         IsCommit, DistinctPlanned,
         DistinctDeferred, Entries, Deferrals, Decidable, MigrationValid, ValidCatalog, EntryMap, Stable,
             NulFreePaths, ReportMap;
    FinishedShape(r, plan, s0, s);
  }
}
