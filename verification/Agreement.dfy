/** Producer and verifier agree: a rendered release is accepted exactly when what it carries is. */
module Agreement {
  import opened Wrappers
  import opened Semver
  import opened ReleaseModel
  import opened Inputs
  import opened Planning
  import opened Rendering
  import opened Migrating
  import opened Preflight
  import opened Verifying
  import opened Exactness
  import opened Releasing

  /** A carried entry in the finished snapshot is the previous one with fresh consumers; a report
      that names it adds a marker, and then it had none. */
  lemma CarriedEntryOf(r: ReleaseInput, plan: Plan, s0: Snapshot, s: Snapshot, p: Plugin)
    requires Step(r, plan, s0, s) && Carries(r, plan, p)
    ensures p.logicalId in EntryMap(s.plugins)
    ensures var e, prior := EntryMap(s.plugins)[p.logicalId], PreviousEntries(r.planned.previous)[p.logicalId];
            && e == CarriedEntry(r.planned.catalog, p, prior).(migration := e.migration)
            && if Names(r.report, p.logicalId) then prior.migration.None? && e.migration.Some?
                else e.migration == prior.migration
  {
    hide PlanOf, RenderOf, Finish, PlanMap, EntryMap, Names;
    FinishedEntry(r, plan, s0, s, p);
  }

  /** Every eligible plugin is planned, carried, or deferred without a previous release. */
  lemma ThreeWays(r: ReleaseInput, plan: Plan, s0: Snapshot, s: Snapshot, p: Plugin)
    requires Step(r, plan, s0, s) && p in r.planned.catalog.plugins && p.releaseEligible
    ensures p.logicalId in EntryMap(s.plugins) <==> p.logicalId in PlanMap(plan.body.plugins) || Carries(r, plan, p)
    ensures p.logicalId !in EntryMap(s.plugins) ==> DeferredHere(Target(r), p)
  {
    hide PlanOf, RenderOf, Finish, PlanMap, EntryMap, CarriedEntry, DeferredHere, PlannedEntry, EvidenceMatches;
    FinishedEntry(r, plan, s0, s, p);
    Decided(r, plan, p);
  }

  lemma HeaderAccepted(r: ReleaseInput, plan: Plan, s0: Snapshot, s: Snapshot, files: map<string, BootstrapEvidence>)
    requires Step(r, plan, s0, s)
    ensures HeaderOk(VerifyInputOf(r, plan, s, files)) && SourceOk(VerifyInputOf(r, plan, s, files))
    ensures Complete(VerifyInputOf(r, plan, s, files))
  {
    hide Step, MigrationValid, ValidCatalog, ParseSemver, IsCommit, EntryMap, DeferredHere, ResolveBase, CurrentVersion;
    StepHeader(r, plan, s0, s);
    FinishedShape(r, plan, s0, s);
    StepPlan(r, plan, s0, s);
    forall i | 0 <= i < |r.planned.catalog.plugins| && r.planned.catalog.plugins[i].releaseEligible
      ensures CurrentVersion(Target(r), r.planned.catalog.plugins[i]).Some?
      ensures !DeferredHere(Target(r), r.planned.catalog.plugins[i]) ==>
                r.planned.catalog.plugins[i].logicalId in EntryMap(s.plugins)
    {
      Decided(r, plan, r.planned.catalog.plugins[i]);
      ThreeWays(r, plan, s0, s, r.planned.catalog.plugins[i]);
    }
  }

  lemma StepPlan(r: ReleaseInput, plan: Plan, s0: Snapshot, s: Snapshot)
    requires Step(r, plan, s0, s)
    ensures PlanOf(r.planned) == Some(plan)
  {
    hide PlanOf, RenderOf, Finish;
  }

  lemma DeferralsAccepted(r: ReleaseInput, plan: Plan, s0: Snapshot, s: Snapshot)
    requires Step(r, plan, s0, s)
    ensures r.planned.target in r.planned.repo.commits
    ensures DeferralsMatch(plan.body.deferred, DeferredMap(Target(r), r.planned.catalog.plugins))
  {
    hide Step, DeferredHere, DeferredMap, PlanMap, IsAlpha, CurrentVersion, PlanOf;
    StepPlan(r, plan, s0, s);
    PlanCatalog(r.planned, plan);
    PlanIds(r.planned, plan);
    StepHeader(r, plan, s0, s);
    var ps, here := r.planned.catalog.plugins, DeferredMap(Target(r), r.planned.catalog.plugins);
    forall i | 0 <= i < |plan.body.deferred|
      ensures var d := plan.body.deferred[i];
              d.logicalId in here && d.version == here[d.logicalId] && d.reason == "alpha-prerelease"
    {
      var d := plan.body.deferred[i];
      assert d in plan.body.deferred;
      var p :| p in ps && p.releaseEligible && p.logicalId == d.logicalId;
      var k :| 0 <= k < |ps| && ps[k] == p;
      assert IsDeferred(plan.body.deferred, p.logicalId);
      Decided(r, plan, p);
      DeferredMapValue(Target(r), ps, k);
    }
    forall id | id in here
      ensures IsDeferred(plan.body.deferred, id)
    {
      DeferredMapIn(Target(r), ps, id);
      var k :| 0 <= k < |ps| && DeferredHere(Target(r), ps[k]) && ps[k].logicalId == id;
      EligibleIfDeferred(Target(r), ps[k]);
      Decided(r, plan, ps[k]);
    }
  }

  lemma EligibleIfDeferred(t: Tree, p: Plugin)
    requires DeferredHere(t, p)
    ensures p.releaseEligible
  {
    hide IsAlpha, CurrentVersion;
  }

  lemma PlanBoundExactly(r: ReleaseInput, plan: Plan, s0: Snapshot, s: Snapshot)
    requires Step(r, plan, s0, s)
    ensures r.planned.previous.Some? && r.planned.target in r.planned.repo.commits
    ensures PlanBound(s, plan, DeferredMap(Target(r), r.planned.catalog.plugins)) <==>
            Stable(r.planned.gatewayVersion) &&
            (r.planned.previous.value.gatewayVersion == "" || Stable(r.planned.previous.value.gatewayVersion))
    ensures PreviousBound(s, r.planned.previous.value) <==>
            var previous := r.planned.previous.value;
            Stable(previous.gatewayVersion) && previous.schemaVersion == 1 && DistinctEntries(previous.plugins)
  {
    hide Step, Stable, IsCommit, PlanMap, DistinctPlanned, DistinctDeferred, DeferralsMatch, DeferredMap, ParseSemver,
         ResolveBase,
         ValidCatalog, DistinctEntries, EvidenceBound;
    StepHeader(r, plan, s0, s);
    DeferralsAccepted(r, plan, s0, s);
  }

  lemma EvidenceStillBound(es: seq<SnapshotEntry>, es': seq<SnapshotEntry>, evidence: BootstrapEvidence)
    requires EvidenceBound(es, evidence) && |es| == |es'|
    requires forall i :: 0 <= i < |es| ==> es'[i] == es[i].(migration := es'[i].migration)
    ensures EvidenceBound(es', evidence)
  {
    forall i | 0 <= i < |es'|
      ensures EntryBound(es'[i], evidence)
    {
      assert EntryBound(es[i], evidence);
    }
    hide EntryBound;
    forall id | Backfilled(es, id)
      ensures Backfilled(es', id)
    {
      var i :| 0 <= i < |es| && es[i].backfill && es[i].logicalId == id;
      assert es'[i].backfill && es'[i].logicalId == id;
    }
    forall id | HasSnapshotEntry(es', id)
      ensures HasSnapshotEntry(es, id)
    {
      var i :| 0 <= i < |es'| && es'[i].logicalId == id;
      assert es[i].logicalId == id;
    }
  }

  lemma MarkerAccepted(r: ReleaseInput, plan: Plan, s0: Snapshot, s: Snapshot, files: map<string, BootstrapEvidence>)
    requires Step(r, plan, s0, s) && EvidenceCommitted(r, files)
    ensures MarkerBound(VerifyInputOf(r, plan, s, files))
  {
    hide Step, EvidenceBound, Plannable, PlanMap, IsCommit, DistinctPlanned, DistinctDeferred, MigrationValid;
    StepHeader(r, plan, s0, s);
    FinishedShape(r, plan, s0, s);
    if s.bootstrapEvidence.Some? {
      EvidenceStillBound(s0.plugins, s.plugins, r.bootstrapEvidence.value);
    }
  }

  /** A planned entry passes every check; a carried one passes exactly when CarryOk holds and the
      report does not name it. */
  lemma EntryVerdict(r: ReleaseInput, plan: Plan, s0: Snapshot, s: Snapshot, files: map<string, BootstrapEvidence>,
      p: Plugin)
    requires Step(r, plan, s0, s) && p in r.planned.catalog.plugins && p.releaseEligible &&
              p.logicalId in EntryMap(s.plugins)
    ensures r.planned.target in r.planned.repo.commits && s.sourceCommit == r.planned.target && r.planned.previous.Some?
    ensures var input, e := VerifyInputOf(r, plan, s, files), EntryMap(s.plugins)[p.logicalId];
            EntryOk(input, e) && EntryBinds(input, e) <==>
            (Carries(r, plan, p) ==>
               CarryOk(r, p, EntryMap(r.planned.previous.value.plugins)[p.logicalId]) && !Names(r.report, p.logicalId))
  {
    hide Step, PlanMap, EntryMap, EntrySound, DeferredHere, PluginMap, ResolveBase, ValidCatalog, ParseSemver, Names;
    StepHeader(r, plan, s0, s);
    StepPlan(r, plan, s0, s);
    PlanCatalog(r.planned, plan);
    PluginMapOf(r.planned.catalog.plugins, p);
    ThreeWays(r, plan, s0, s, p);
    Decided(r, plan, p);
    if Carries(r, plan, p) {
      CarriedEntryOf(r, plan, s0, s, p);
      MarkerIrrelevant(r.planned.repo, r.planned.catalog, p,
                       CarriedEntry(r.planned.catalog, p, PreviousEntries(r.planned.previous)[p.logicalId]),
                       EntryMap(s.plugins)[p.logicalId].migration);
    } else {
      PlannedIsSound(r, plan, s0, s, p);
    }
  }

  /** Soundness does not look at markers. */
  lemma MarkerIrrelevant(repo: Repo, c: Catalog, p: Plugin, e: SnapshotEntry, m: Option<Migration>)
    ensures EntrySound(repo, c, p, e.(migration := m)) <==> EntrySound(repo, c, p, e)
  {
    hide ParseSemver, IsDigest, HashOf, CatalogConsumers;
  }

  /** The verifier accepts a rendered release, with its plan and previous snapshot bound, exactly
      when both gateway versions are stable, the previous snapshot has the supported schema and
      one entry per plugin, every entry the release carries is itself verifiable, and the bound
      migration report names planned plugins only. */
  lemma RenderedIsAcceptedExactly(r: ReleaseInput, plan: Plan, s0: Snapshot, s: Snapshot,
      files: map<string, BootstrapEvidence>)
    requires Step(r, plan, s0, s) && EvidenceCommitted(r, files)
    ensures r.planned.previous.Some? && r.planned.target in r.planned.repo.commits
    ensures Accepts(VerifyInputOf(r, plan, s, files)) <==> Carriable(r, plan) && ReportOnPlanned(r.report, plan)
  {
    hide Step, Names, HeaderOk, SourceOk, Complete, EntryOk, EntryBinds, PlanBound, PreviousBound, MarkerBound,
         DeferredMap, EntryMap, PlanMap, CarryOk,
         SortedEntries, Stable, DistinctEntries;
    var input := VerifyInputOf(r, plan, s, files);
    HeaderAccepted(r, plan, s0, s, files);
    FinishedSorted(r, plan, s0, s);
    PlanBoundExactly(r, plan, s0, s);
    MarkerAccepted(r, plan, s0, s, files);
    PlannedPresent(r, plan, s0, s, files);
    StepSource(r, plan, s0, s);
    if Carriable(r, plan) && ReportOnPlanned(r.report, plan) {
      forall i | 0 <= i < |s.plugins|
        ensures EntryOk(input, s.plugins[i]) && EntryBinds(input, s.plugins[i])
      {
        var p := FinishedSource(r, plan, s0, s, i);
        EntryVerdict(r, plan, s0, s, files, p);
      }
    }
    if Accepts(input) {
      forall p | Carries(r, plan, p)
        ensures CarryOk(r, p, EntryMap(r.planned.previous.value.plugins)[p.logicalId])
      {
        CarriesEligible(r, plan, p);
        CarriedEntryOf(r, plan, s0, s, p);
        var i :| 0 <= i < |s.plugins| && s.plugins[i] == EntryMap(s.plugins)[p.logicalId];
        assert EntryOk(input, s.plugins[i]) && EntryBinds(input, s.plugins[i]);
        EntryVerdict(r, plan, s0, s, files, p);
      }
      forall id | Names(r.report, id)
        ensures id in PlanMap(plan.body.plugins)
      {
        NamedPresent(r, plan, s0, s, id);
        var i :| 0 <= i < |s.plugins| && s.plugins[i] == EntryMap(s.plugins)[id];
        assert EntryOk(input, s.plugins[i]) && EntryBinds(input, s.plugins[i]);
        var p := FinishedSource(r, plan, s0, s, i);
        ThreeWays(r, plan, s0, s, p);
        EntryVerdict(r, plan, s0, s, files, p);
      }
    }
  }

  /** The producer can bind a report that the verifier then rejects: any report that marks an entry
      this release merely carries. */
  lemma ReportOnCarriedRejected(r: ReleaseInput, plan: Plan, s0: Snapshot, s: Snapshot,
      files: map<string, BootstrapEvidence>, id: string)
    requires Step(r, plan, s0, s) && EvidenceCommitted(r, files)
    requires Names(r.report, id) && id !in PlanMap(plan.body.plugins)
    ensures !Accepts(VerifyInputOf(r, plan, s, files))
  {
    hide Step, Accepts, PlanMap, Names, Carriable;
    RenderedIsAcceptedExactly(r, plan, s0, s, files);
  }

  /** A previous entry that leaves its provenance implicit verifies in its own snapshot
      (Exactness.ImplicitProvenanceVerifies), but the release that carries it does not: rendering
      spells the provenance out. */
  lemma ImplicitProvenanceRejected(r: ReleaseInput, plan: Plan, s0: Snapshot, s: Snapshot,
      files: map<string, BootstrapEvidence>, p: Plugin)
    requires Step(r, plan, s0, s) && EvidenceCommitted(r, files) && Carries(r, plan, p)
    requires PreviousEntries(r.planned.previous)[p.logicalId].provenanceMode == ""
    ensures r.planned.target in r.planned.repo.commits && !Accepts(VerifyInputOf(r, plan, s, files))
  {
    hide Step, Accepts, EntryMap, PlanMap, EntrySound, DeferredHere, Stable;
    RenderedIsAcceptedExactly(r, plan, s0, s, files);
    assert !CarryOk(r, p, EntryMap(r.planned.previous.value.plugins)[p.logicalId]);
  }

  lemma CarriesEligible(r: ReleaseInput, plan: Plan, p: Plugin)
    requires Carries(r, plan, p)
    ensures p in r.planned.catalog.plugins && p.releaseEligible && r.planned.previous.Some?
    ensures p.logicalId in EntryMap(r.planned.previous.value.plugins)
  {
    hide PlanMap, EntryMap;
  }

  lemma StepSource(r: ReleaseInput, plan: Plan, s0: Snapshot, s: Snapshot)
    requires Step(r, plan, s0, s)
    ensures s.sourceCommit == r.planned.target && r.planned.target in r.planned.repo.commits
  {
    hide Step, ResolveBase, ValidCatalog, ParseSemver;
    StepHeader(r, plan, s0, s);
  }

  lemma PlannedPresent(r: ReleaseInput, plan: Plan, s0: Snapshot, s: Snapshot, files: map<string, BootstrapEvidence>)
    requires Step(r, plan, s0, s)
    ensures r.planned.previous.Some? && r.planned.target in r.planned.repo.commits
    ensures forall id :: id in PlanMap(plan.body.plugins) ==> id in EntryMap(s.plugins)
    ensures forall id :: id in DeferredMap(Target(r), r.planned.catalog.plugins) &&
              id in EntryMap(r.planned.previous.value.plugins)
              ==> id in EntryMap(s.plugins)
  {
    hide Step, PlanMap, EntryMap, DeferredMap, DeferredHere, ResolveBase, ValidCatalog, ParseSemver, PlanOf;
    StepHeader(r, plan, s0, s);
    StepPlan(r, plan, s0, s);
    PlanIds(r.planned, plan);
    forall id | id in PlanMap(plan.body.plugins)
      ensures id in EntryMap(s.plugins)
    {
      var p :| p in r.planned.catalog.plugins && p.releaseEligible && p.logicalId == id;
      ThreeWays(r, plan, s0, s, p);
    }
    forall id | id in DeferredMap(Target(r), r.planned.catalog.plugins) &&
        id in EntryMap(r.planned.previous.value.plugins)
      ensures id in EntryMap(s.plugins)
    {
      DeferredMapIn(Target(r), r.planned.catalog.plugins, id);
      var k :| 0 <= k < |r.planned.catalog.plugins| && DeferredHere(Target(r), r.planned.catalog.plugins[k]) &&
               r.planned.catalog.plugins[k].logicalId == id;
      EligibleIfDeferred(Target(r), r.planned.catalog.plugins[k]);
      ThreeWays(r, plan, s0, s, r.planned.catalog.plugins[k]);
    }
  }
}
