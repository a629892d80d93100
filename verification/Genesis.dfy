/** The bootstrap starts a chain: its baseline is sound, its first release is a release step, and the
    verifier accepts it. */
module Genesis {
  import opened Wrappers
  import opened Semver
  import opened ReleaseModel
  import opened Inputs
  import opened Planning
  import opened Rendering
  import opened Migrating
  import opened Verifying
  import opened Exactness
  import opened Releasing
  import opened Chains
  import opened Bootstrapping

  /** Every eligible VERSION at the commit is stable or an alpha. */
  ghost predicate OnlyAlphas(t: Tree, c: Catalog) {
    forall p :: p in c.plugins && p.releaseEligible && CurrentVersion(t, p).Some? ==>
      IsAlpha(CurrentVersion(t, p).value) || Stable(CurrentVersion(t, p).value)
  }

  lemma {:induction false} BaselineDistinct(
    c: Catalog, t: Tree, source: string, evidence: BootstrapEvidence, registry: Registry, ps: seq<Plugin>)
    requires DistinctIds(ps)
    ensures DistinctEntries(BaselineEntries(c, t, source, evidence, registry, ps))
  {
    hide BaselineOne;
    if ps != [] {
      var n := |ps| - 1;
      var before := BaselineEntries(c, t, source, evidence, registry, ps[..n]);
      BaselineDistinct(c, t, source, evidence, registry, ps[..n]);
      BaselineId(c, t, source, evidence, registry, ps[n]);
      forall i | 0 <= i < |before|
        ensures before[i].logicalId != ps[n].logicalId
      {
        var k := BaselineFrom(c, t, source, evidence, registry, ps[..n], i);
        BaselineId(c, t, source, evidence, registry, ps[k]);
      }
    }
  }

  lemma ImportedSound(repo: Repo, c: Catalog, source: string, evidence: BootstrapEvidence, registry: Registry,
      p: Plugin, e: SnapshotEntry)
    requires source in repo.commits && p in c.plugins && p.releaseEligible && OnlyAlphas(repo.commits[source], c)
    requires BaselineOne(c, repo.commits[source], source, evidence, registry, p) == Some(Some(e))
    ensures SoundEntry(repo, c, e) && e.migration.None?
  {
    hide ParseSemver, IsAlpha, IsDigest, Preimage, CatalogConsumers, CurrentVersion, Stable;
    CurrentParses(repo.commits[source], p);
    assert e.provenanceMode == "public" && EntryProvenance(e) == "public";
    assert EntrySound(repo, c, p, e);
  }

  /** Where every VERSION is stable or an alpha, the imported baseline is a sound snapshot. */
  lemma BaselineIsSound(repo: Repo, c: Catalog, source: string, registry: Registry, evidence: BootstrapEvidence,
      baseline: Snapshot)
    requires Bootstrap(repo, c, source, registry, evidence, baseline) && source in repo.commits
    requires OnlyAlphas(repo.commits[source], c) && Stable(baseline.gatewayVersion)
    ensures SoundSnapshot(repo, c, baseline)
    ensures forall i :: 0 <= i < |baseline.plugins| ==> baseline.plugins[i].migration.None?
  {
    hide ParseSemver, CaptureOf, BaselineOne, SortPlugins, SoundEntry, OnlyAlphas, Stable, ValidCatalog;
    var ps, t := SortPlugins(c.plugins), repo.commits[source];
    CatalogIdsOf(repo, c, source, registry, evidence, baseline);
    SortPluginsSorted(c.plugins);
    SortedIdsDistinct(ps);
    BaselineDistinct(c, t, source, evidence, registry, ps);
    forall i | 0 <= i < |baseline.plugins|
      ensures SoundEntry(repo, c, baseline.plugins[i]) && baseline.plugins[i].migration.None?
    {
      var k := BaselineFrom(c, t, source, evidence, registry, ps, i);
      ImportedSound(repo, c, source, evidence, registry, ps[k], baseline.plugins[i]);
    }
  }

  lemma CatalogIdsOf(repo: Repo, c: Catalog, source: string, registry: Registry, evidence: BootstrapEvidence,
      baseline: Snapshot)
    requires Bootstrap(repo, c, source, registry, evidence, baseline)
    ensures DistinctIds(c.plugins)
  {
    hide CaptureOf, BaselineEntries, Importable, ParseSemver, SortPlugins, ValidCatalog;
    CatalogDistinct(c);
  }

  // ---- The first release --------------------------------------------------------

  /** Planned entries carry no marker and baseline entries have none to hand on. */
  lemma FirstUnmarked(ri: RenderInput, previous: Snapshot, s: Snapshot, i: nat)
    requires RenderOf(ri) == Some(s) && i < |s.plugins| && ri.previous == Some(previous)
    requires forall k :: 0 <= k < |previous.plugins| ==> previous.plugins[k].migration.None?
    ensures s.plugins[i].migration.None?
  {
    hide RenderOf, EntryMap, PlanMap, EvidenceMatches, CatalogConsumers;
    var p := SnapshotSource(ri, s, i);
    if p.logicalId !in PlanMap(ri.plan.body.plugins) {
      var prior := EntryMap(previous.plugins)[p.logicalId];
      var k :| 0 <= k < |previous.plugins| && previous.plugins[k] == prior;
    }
  }

  lemma {:induction false} Unmarked(es: seq<SnapshotEntry>)
    requires forall i :: 0 <= i < |es| ==> es[i].migration.None?
    ensures MarkedIds(es) == []
  {
    if es != [] { Unmarked(es[..|es| - 1]); }
  }

  ghost function FirstInput(input: PlanInput, candidates: Evidence, evidence: BootstrapEvidence): ReleaseInput {
    ReleaseInput(input, candidates, Some(evidence), None)
  }

  lemma SameCatalogKeeps(c: Catalog, s: Snapshot, plan: Plan)
    requires DistinctIds(c.plugins)
    ensures KeepsRecords(c, c, s, plan)
  {
    hide EntryMap, PlanMap;
    forall p, p' | p in c.plugins && p' in c.plugins && p'.releaseEligible && p.logicalId == p'.logicalId &&
        p.logicalId in EntryMap(s.plugins)
      ensures SameRecord(c, p, c, p')
    {
      SameId(c.plugins, p, p');
    }
  }

  /** From any bootstrap at a commit whose VERSIONs are stable or alphas: the first release is a
      release step on top of the baseline, the verifier accepts its snapshot with plan and
      baseline bound, and the snapshot is sound, so that a chain can go on from it. */
  lemma FirstReleaseAccepted(
    repo: Repo, c: Catalog, source: string, registry: Registry, evidence: BootstrapEvidence, baseline: Snapshot,
    input: PlanInput, plan: Plan, candidates: Evidence, files: map<string, BootstrapEvidence>)
    returns (s: Snapshot)
    requires ValidRepo(repo) && Bootstrap(repo, c, source, registry, evidence, baseline) && source in repo.commits
    requires FirstPlan(repo, c, source, baseline, input) && PlanOf(input) == Some(plan) && EvidenceFor(plan, candidates)
    requires MissingKept(evidence, input.overrides) && OnlyAlphas(repo.commits[source], c)
    requires Stable(baseline.gatewayVersion) && Stable(input.gatewayVersion)
    requires EvidencePath(input.gatewayVersion) in files && files[EvidencePath(input.gatewayVersion)] == evidence
    ensures Step(FirstInput(input, candidates, evidence), plan, s, s)
    ensures Accepts(VerifyInputOf(FirstInput(input, candidates, evidence), plan, s, files))
    ensures SoundSnapshot(repo, c, s)
  {
    hide ValidRepo, Bootstrap, PlanOf, RenderOf, EvidenceFor, MissingKept, OnlyAlphas, Stable, SoundSnapshot, Accepts,
         KeepsRecords;
    var r, ri := FirstInput(input, candidates, evidence), FirstRender(c, plan, baseline, candidates, evidence);
    BootstrapCloses(repo, c, source, registry, evidence, baseline, input, plan, candidates);
    s := RenderOf(ri).value;
    BaselineIsSound(repo, c, source, registry, evidence, baseline);
    forall i | 0 <= i < |s.plugins|
      ensures s.plugins[i].migration.None?
    {
      FirstUnmarked(ri, baseline, s, i);
    }
    Unmarked(s.plugins);
    assert Step(r, plan, s, s);
    CatalogIdsOf(repo, c, source, registry, evidence, baseline);
    SameCatalogKeeps(c, baseline, plan);
    AlphasHere(r);
    StepAccepted(Link(r, plan, s), c, baseline, s, repo, files);
  }

  lemma AlphasHere(r: ReleaseInput)
    requires r.planned.target in r.planned.repo.commits && OnlyAlphas(Target(r), r.planned.catalog)
    ensures NoOtherPrereleases(r)
  {
    hide CurrentVersion, IsAlpha, Stable;
  }

  ghost predicate Released(
    r: ReleaseInput, plan: Plan, files: map<string, BootstrapEvidence>, repo: Repo, c: Catalog, s: Snapshot)
  {
    Step(r, plan, s, s) && Accepts(VerifyInputOf(r, plan, s, files)) && SoundSnapshot(repo, c, s)
  }

  /** Wherever evidence can be captured, the bootstrap goes through to an accepted release: the
      baseline imports, the first plan without overrides exists, and whatever candidates are built
      for it, rendering yields a snapshot that the verifier accepts. */
  lemma BootstrapReleases(
    repo: Repo, c: Catalog, source: string, registry: Registry, evidence: BootstrapEvidence, baselineVersion: string,
        gatewayVersion: string)
    returns (baseline: Snapshot, input: PlanInput, plan: Plan)
    requires ValidRepo(repo) && CaptureOf(repo, c, source, registry) == Some(evidence) && source in repo.commits
    requires (source, source) in repo.ancestors && OnlyAlphas(repo.commits[source], c)
    requires Stable(baselineVersion) && Stable(gatewayVersion)
    ensures BaselineOf(repo, c, baselineVersion, source, evidence, registry) == Some(baseline)
    ensures FirstPlan(repo, c, source, baseline, input) && input.gatewayVersion == gatewayVersion &&
              input.overrides == map[]
    ensures PlanOf(input) == Some(plan)
    ensures forall candidates | EvidenceFor(plan, candidates) ::
              exists s :: Released(FirstInput(input, candidates, evidence), plan,
                  map[EvidencePath(gatewayVersion) := evidence], repo, c, s)
  {
    hide CaptureOf, BaselineOf, PlanOf, OnlyAlphas, EvidenceFor, ValidRepo, ParseSemver, ValidCatalog, Released;
    BaselineAlwaysImports(repo, c, baselineVersion, source, registry, evidence);
    baseline := BaselineOf(repo, c, baselineVersion, source, evidence, registry).value;
    BaselineHeader(repo, c, baselineVersion, source, evidence, registry);
    CaptureHeader(repo, c, source, registry);
    assert Bootstrap(repo, c, source, registry, evidence, baseline);
    input := PlanInput(repo, c, Some(baseline), source, source, gatewayVersion, map[]);
    FirstPlanExists(repo, c, source, registry, evidence, baseline, input);
    plan := PlanOf(input).value;
    forall candidates | EvidenceFor(plan, candidates)
      ensures exists s :: Released(FirstInput(input, candidates, evidence), plan,
                map[EvidencePath(gatewayVersion) := evidence], repo, c, s)
    {
      var s := ReleasedFirst(repo, c, source, registry, evidence, baseline, input, plan, candidates);
    }
  }

  lemma ReleasedFirst(
    repo: Repo, c: Catalog, source: string, registry: Registry, evidence: BootstrapEvidence, baseline: Snapshot,
    input: PlanInput, plan: Plan, candidates: Evidence)
    returns (s: Snapshot)
    requires ValidRepo(repo) && Bootstrap(repo, c, source, registry, evidence, baseline) && source in repo.commits
    requires FirstPlan(repo, c, source, baseline, input) && PlanOf(input) == Some(plan) && EvidenceFor(plan, candidates)
    requires input.overrides == map[] && OnlyAlphas(repo.commits[source], c)
    requires Stable(baseline.gatewayVersion) && Stable(input.gatewayVersion)
    ensures Released(FirstInput(input, candidates, evidence), plan,
              map[EvidencePath(input.gatewayVersion) := evidence], repo, c, s)
  {
    hide Bootstrap, PlanOf, OnlyAlphas, EvidenceFor, ValidRepo, Stable, Step, Accepts, SoundSnapshot;
    var files := map[EvidencePath(input.gatewayVersion) := evidence];
    s := FirstReleaseAccepted(repo, c, source, registry, evidence, baseline, input, plan, candidates, files);
  }

  lemma BaselineHeader(repo: Repo, c: Catalog, gatewayVersion: string, source: string, evidence: BootstrapEvidence,
      registry: Registry)
    requires BaselineOf(repo, c, gatewayVersion, source, evidence, registry).Some?
    ensures var b := BaselineOf(repo, c, gatewayVersion, source, evidence, registry).value;
            b.gatewayVersion == gatewayVersion && b.provenanceMode == BOOTSTRAP_PUBLIC
  {
    hide ParseSemver, ValidCatalog, BaselineEntries, Importable, SortPlugins;
  }

  lemma CaptureHeader(repo: Repo, c: Catalog, source: string, registry: Registry)
    requires CaptureOf(repo, c, source, registry).Some?
    ensures IsCommit(source) && ValidCatalog(c) && source != ""
  {
    hide ValidCatalog, Capturable, Captured, SortPlugins;
  }
}
