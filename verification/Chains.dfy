/** Chains of releases: what holds in every snapshot, however many releases follow each other. */
module Chains {
  import opened Wrappers
  import opened Text
  import opened Semver
  import opened ReleaseModel
  import opened Inputs
  import opened Planning
  import opened Selection
  import opened Rendering
  import opened Migrating
  import opened Preflight
  import opened Verifying
  import opened Releasing
  import opened Agreement

  datatype Link = Link(release: ReleaseInput, plan: Plan, rendered: Snapshot)

  /** `snaps[k + 1]` is released by `links[k]` on top of `snaps[k]`, all in one repository. */
  ghost predicate Chain(repo: Repo, links: seq<Link>, snaps: seq<Snapshot>) {
    && |snaps| == |links| + 1
    && forall k :: 0 <= k < |links| ==> LinkOk(repo, links[k], snaps[k], snaps[k + 1])
  }

  ghost predicate LinkOk(repo: Repo, link: Link, previous: Snapshot, s: Snapshot) {
    && link.release.planned.repo == repo
    && link.release.planned.previous == Some(previous)
    && Step(link.release, link.plan, link.rendered, s)
  }

  // ---- Acceptance along a chain -------------------------------------------------

  /** The catalog record of a plugin as far as released artifacts depend on it. */
  ghost predicate SameRecord(c: Catalog, p: Plugin, c': Catalog, p': Plugin) {
    && c.registry == c'.registry
    && p'.logicalId == p.logicalId && p'.image == p.image && p'.sourceDir == p.sourceDir &&
        p'.implementation == p.implementation
    && p'.artifactInputs == p.artifactInputs && p'.sharedInputGroups == p.sharedInputGroups
    && forall g :: g in p.sharedInputGroups ==> Lookup(c.sharedInputGroups, g) == Lookup(c'.sharedInputGroups, g)
  }

  lemma SameInputs(c: Catalog, p: Plugin, c': Catalog, p': Plugin, t: Tree)
    requires SameRecord(c, p, c', p')
    ensures Selected(t, c, p) == Selected(t, c', p')
  {
    forall path
      ensures InputMatches(c, p, path) <==> InputMatches(c', p', path)
    {
      SameShared(c, p, c', p', path);
      SameShared(c', p', c, p, path);
    }
    hide InputMatches;
  }

  lemma SameShared(c: Catalog, p: Plugin, c': Catalog, p': Plugin, path: string)
    requires p'.sharedInputGroups == p.sharedInputGroups
    requires forall g :: g in p.sharedInputGroups ==> Lookup(c.sharedInputGroups, g) == Lookup(c'.sharedInputGroups, g)
    ensures SharedMatches(c, p, path) ==> SharedMatches(c', p', path)
  {
    hide GroupMatches;
    if SharedMatches(c, p, path) {
      var i :| 0 <= i < |p.sharedInputGroups| && p.sharedInputGroups[i] in c.sharedInputGroups &&
               GroupMatches(c.sharedInputGroups[p.sharedInputGroups[i]], path);
      assert p.sharedInputGroups[i] in p.sharedInputGroups;
      assert p'.sharedInputGroups[i] in c'.sharedInputGroups;
    }
  }

  /** A snapshot whose entries verify under its catalog, are stable and record their provenance. */
  ghost predicate SoundSnapshot(repo: Repo, c: Catalog, s: Snapshot) {
    && s.schemaVersion == 1 && Stable(s.gatewayVersion) && DistinctEntries(s.plugins)
    && forall i :: 0 <= i < |s.plugins| ==> SoundEntry(repo, c, s.plugins[i])
  }

  ghost predicate SoundEntry(repo: Repo, c: Catalog, e: SnapshotEntry) {
    && e.provenanceMode != "" && Stable(e.version)
    && exists p :: p in c.plugins && p.logicalId == e.logicalId && EntrySound(repo, c, p, e)
  }

  /** The catalog keeps the records of the plugins that the release carries from the snapshot. */
  ghost predicate KeepsRecords(c: Catalog, c': Catalog, s: Snapshot, plan: Plan) {
    forall p, p' | p in c.plugins && p' in c'.plugins && p'.releaseEligible && p.logicalId == p'.logicalId &&
                   p.logicalId in EntryMap(s.plugins) && p.logicalId !in PlanMap(plan.body.plugins) ::
      SameRecord(c, p, c', p')
  }

  /** No VERSION at the target is a prerelease other than an alpha. */
  ghost predicate NoOtherPrereleases(r: ReleaseInput) {
    && r.planned.target in r.planned.repo.commits
    && forall p :: p in r.planned.catalog.plugins && p.releaseEligible && CurrentVersion(Target(r), p).Some? ==>
         IsAlpha(CurrentVersion(Target(r), p).value) || Stable(CurrentVersion(Target(r), p).value)
  }

  lemma CarriedStaysSound(repo: Repo, c: Catalog, p: Plugin, c': Catalog, p': Plugin, e: SnapshotEntry)
    requires EntrySound(repo, c, p, e) && SameRecord(c, p, c', p')
    ensures EntrySound(repo, c', p', CarriedEntry(c', p', e))
  {
    hide CatalogConsumers, ParseSemver, IsDigest, Selected, Preimage;
    SameInputs(c, p, c', p', repo.commits[e.sourceCommit]);
  }

  /** Planned versions are stable when no VERSION is a non-alpha prerelease. */
  lemma PlannedStable(r: ReleaseInput, plan: Plan, p: Plugin)
    requires PlanOf(r.planned) == Some(plan) && NoOtherPrereleases(r)
    requires p in r.planned.catalog.plugins && p.logicalId in PlanMap(plan.body.plugins)
    ensures Stable(PlanMap(plan.body.plugins)[p.logicalId].version)
  {
    hide PlanOf, PlanMap, ChooseVersion, Affected, RelevantPaths, EntryMap, HashOf, ResolveBase, ValidCatalog,
         ParseSemver, IsAlpha, Stable;
    PlanCatalog(r.planned, plan);
    PlanContents(r.planned, plan, p);
    var ctx := InputContext(r.planned);
    CurrentParses(ctx.tree, p);
    ChosenParses(ctx, p.logicalId, CurrentVersion(ctx.tree, p).value);
  }

  lemma PriorEntry(s: Snapshot, id: string) returns (i: nat)
    requires id in EntryMap(s.plugins)
    ensures i < |s.plugins| && s.plugins[i] == EntryMap(s.plugins)[id] && s.plugins[i].logicalId == id
  {
    hide EntryMap;
    i :| 0 <= i < |s.plugins| && s.plugins[i] == EntryMap(s.plugins)[id];
  }

  lemma CarryOkFromSound(r: ReleaseInput, plan: Plan, c: Catalog, previous: Snapshot, p: Plugin)
    requires r.planned.previous == Some(previous) && r.planned.target in r.planned.repo.commits
    requires SoundSnapshot(r.planned.repo, c, previous) && KeepsRecords(c, r.planned.catalog, previous, plan)
    requires Carries(r, plan, p)
    ensures CarryOk(r, p, EntryMap(previous.plugins)[p.logicalId])
  {
    hide EntryMap, PlanMap, Stable, EntrySound, SameRecord, DeferredHere, CarriedEntry;
    var i := PriorEntry(previous, p.logicalId);
    var e := previous.plugins[i];
    assert SoundEntry(r.planned.repo, c, e);
    var q :| q in c.plugins && q.logicalId == e.logicalId && EntrySound(r.planned.repo, c, q, e);
    CarriedStaysSound(r.planned.repo, c, q, r.planned.catalog, p, e);
  }

  /** One release keeps soundness, and its snapshot is accepted exactly when the bound migration
      report names planned plugins only. */
  lemma StepAccepted(link: Link, c: Catalog, previous: Snapshot, s: Snapshot, repo: Repo,
      files: map<string, BootstrapEvidence>)
    requires LinkOk(repo, link, previous, s) && SoundSnapshot(repo, c, previous)
    requires KeepsRecords(c, link.release.planned.catalog, previous, link.plan) && NoOtherPrereleases(link.release)
    requires Stable(link.release.planned.gatewayVersion) && EvidenceCommitted(link.release, files)
    ensures Accepts(VerifyInputOf(link.release, link.plan, s, files)) <==>
              ReportOnPlanned(link.release.report, link.plan)
    ensures SoundSnapshot(repo, link.release.planned.catalog, s)
  {
    hide Step, ReportOnPlanned, Accepts, CarryOk, Carries, EntryMap, KeepsRecords, SoundEntry, NoOtherPrereleases,
         Stable, DistinctEntries, EvidenceCommitted, PlanMap;
    var r, plan, s0 := link.release, link.plan, link.rendered;
    RenderedIsAcceptedExactly(r, plan, s0, s, files);
    forall p | Carries(r, plan, p)
      ensures p.logicalId in EntryMap(previous.plugins) && CarryOk(r, p, EntryMap(previous.plugins)[p.logicalId])
    {
      CarriesEligible(r, plan, p);
      CarryOkFromSound(r, plan, c, previous, p);
    }
    FinishedSorted(r, plan, s0, s);
    StepGateway(r, plan, s0, s);
    forall i | 0 <= i < |s.plugins|
      ensures SoundEntry(repo, r.planned.catalog, s.plugins[i])
    {
      StepSound(link, c, previous, s, repo, i);
    }
  }

  lemma StepGateway(r: ReleaseInput, plan: Plan, s0: Snapshot, s: Snapshot)
    requires Step(r, plan, s0, s)
    ensures s.gatewayVersion == r.planned.gatewayVersion && s.schemaVersion == 1
  {
    hide Step, Plannable, PlanMap, EvidenceBound, IsCommit, DistinctPlanned, DistinctDeferred;
    StepHeader(r, plan, s0, s);
  }

  lemma StepSound(link: Link, c: Catalog, previous: Snapshot, s: Snapshot, repo: Repo, i: nat)
    requires LinkOk(repo, link, previous, s) && SoundSnapshot(repo, c, previous)
    requires KeepsRecords(c, link.release.planned.catalog, previous, link.plan) && NoOtherPrereleases(link.release)
    requires i < |s.plugins|
    ensures SoundEntry(repo, link.release.planned.catalog, s.plugins[i])
  {
    hide Step, EntryMap, KeepsRecords, NoOtherPrereleases, Stable, EntrySound, PlanMap, Carries, SoundSnapshot,
         DeferredHere, PlanOf;
    var r, plan, s0 := link.release, link.plan, link.rendered;
    var p := FinishedSource(r, plan, s0, s, i);
    StepPlan(r, plan, s0, s);
    StepSource(r, plan, s0, s);
    ThreeWays(r, plan, s0, s, p);
    if Carries(r, plan, p) {
      CarriesEligible(r, plan, p);
      CarriedEntryOf(r, plan, s0, s, p);
      CarryOkFromSound(r, plan, c, previous, p);
      MarkerIrrelevant(repo, r.planned.catalog, p,
          CarriedEntry(r.planned.catalog, p, EntryMap(previous.plugins)[p.logicalId]),
                       EntryMap(s.plugins)[p.logicalId].migration);
      PriorStable(repo, c, previous, p.logicalId);
    } else {
      PlannedIsSound(r, plan, s0, s, p);
      PlannedStable(r, plan, p);
    }
  }

  lemma PriorStable(repo: Repo, c: Catalog, previous: Snapshot, id: string)
    requires SoundSnapshot(repo, c, previous) && id in EntryMap(previous.plugins)
    ensures Stable(EntryMap(previous.plugins)[id].version) && EntryMap(previous.plugins)[id].provenanceMode != ""
  {
    hide EntryMap, Stable, EntrySound;
    var i := PriorEntry(previous, id);
    assert SoundEntry(repo, c, previous.plugins[i]);
  }

  ghost function CatalogAt(c0: Catalog, links: seq<Link>, k: nat): Catalog
    requires k <= |links|
  {
    if k == 0 then c0 else links[k - 1].release.planned.catalog
  }

  /** What each release of a chain may assume of its repository and catalog. */
  ghost predicate WellKept(c0: Catalog, links: seq<Link>, snaps: seq<Snapshot>, files: map<string, BootstrapEvidence>)
    requires |snaps| == |links| + 1
  {
    forall k :: 0 <= k < |links| ==>
      && KeepsRecords(CatalogAt(c0, links, k), links[k].release.planned.catalog, snaps[k], links[k].plan)
      && NoOtherPrereleases(links[k].release)
      && Stable(links[k].release.planned.gatewayVersion)
      && EvidenceCommitted(links[k].release, files)
  }

  /** Every snapshot of a chain that starts sound is sound again, for chains of any length, and is
      accepted with its plan and its predecessor bound exactly when its migration report names
      planned plugins only, as every report of the sweep does. */
  lemma {:induction false} ChainAccepted(repo: Repo, c0: Catalog, links: seq<Link>, snaps: seq<Snapshot>,
                                         files: map<string, BootstrapEvidence>, k: nat)
    requires Chain(repo, links, snaps) && WellKept(c0, links, snaps, files) && SoundSnapshot(repo, c0, snaps[0])
    requires k < |links|
    ensures Accepts(VerifyInputOf(links[k].release, links[k].plan, snaps[k + 1], files)) <==>
              ReportOnPlanned(links[k].release.report, links[k].plan)
    ensures SoundSnapshot(repo, links[k].release.planned.catalog, snaps[k + 1])
  {
    hide LinkOk, ReportOnPlanned, KeepsRecords, NoOtherPrereleases, Accepts, SoundSnapshot, EvidenceCommitted, Stable;
    if k > 0 {
      ChainAccepted(repo, c0, links, snaps, files, k - 1);
    }
    StepAccepted(links[k], CatalogAt(c0, links, k), snaps[k], snaps[k + 1], repo, files);
  }

  // ---- Carried entries and their markers ----------------------------------------

  /** The plugin is in every catalog of links [i, j) and never planned there. */
  ghost predicate NeverPlanned(links: seq<Link>, id: string, i: nat, j: nat)
    requires i <= j <= |links|
  {
    forall k :: i <= k < j ==> KeptBy(links[k], id)
  }

  ghost predicate KeptBy(link: Link, id: string) {
    && id !in PlanMap(link.plan.body.plugins)
    && exists p :: p in link.release.planned.catalog.plugins && p.releaseEligible && p.logicalId == id
  }

  lemma StepCarries(repo: Repo, link: Link, previous: Snapshot, s: Snapshot, id: string)
    requires LinkOk(repo, link, previous, s) && KeptBy(link, id) && id in EntryMap(previous.plugins)
    ensures id in EntryMap(s.plugins)
    ensures var e, e' := EntryMap(previous.plugins)[id], EntryMap(s.plugins)[id];
            && e' == e.(consumers := e'.consumers, provenanceMode := EntryProvenance(e), migration := e'.migration)
            && (e.migration.Some? || !Names(link.release.report, id) ==> e'.migration == e.migration)
  {
    hide Step, EntryMap, PlanMap, Names;
    var p :| p in link.release.planned.catalog.plugins && p.releaseEligible && p.logicalId == id;
    CarriedEntryOf(link.release, link.plan, link.rendered, s, p);
  }

  ghost predicate NeverNamed(links: seq<Link>, id: string, i: nat, j: nat)
    requires i <= j <= |links|
  {
    forall k :: i <= k < j ==> !Names(links[k].release.report, id)
  }

  /** An entry, with its version, digest and exclusion marker, appears verbatim in every later
      snapshot until its plugin is planned again or leaves the catalog; only the consumers follow
      the catalog, an implicit provenance becomes explicit, and an entry without a marker gets one
      if a report names it. */
  lemma {:induction false} CarriedVerbatim(repo: Repo, links: seq<Link>, snaps: seq<Snapshot>, id: string, i: nat,
      j: nat)
    requires Chain(repo, links, snaps) && i <= j <= |links| && NeverPlanned(links, id, i, j)
    requires id in EntryMap(snaps[i].plugins)
    ensures id in EntryMap(snaps[j].plugins)
    ensures var e, e' := EntryMap(snaps[i].plugins)[id], EntryMap(snaps[j].plugins)[id];
            && e' == e.(consumers := e'.consumers, migration := e'.migration,
                        provenanceMode := if i == j then e.provenanceMode else EntryProvenance(e))
            && (e.migration.Some? || NeverNamed(links, id, i, j) ==> e'.migration == e.migration)
    decreases j - i
  {
    hide LinkOk, KeptBy, EntryMap, Names;
    if i < j {
      CarriedVerbatim(repo, links, snaps, id, i, j - 1);
      StepCarries(repo, links[j - 1], snaps[j - 1], snaps[j], id);
    }
  }

  /** Every released snapshot satisfies validateSnapshotMigration, although carried markers were
      decided at other source commits; and a marker survives unchanged until re-planning. */
  lemma MarkersSurvive(repo: Repo, links: seq<Link>, snaps: seq<Snapshot>, id: string, i: nat, j: nat)
    requires Chain(repo, links, snaps) && i < j <= |links| && NeverPlanned(links, id, i, j)
    requires id in EntryMap(snaps[i].plugins) && EntryMap(snaps[i].plugins)[id].migration.Some?
    ensures id in EntryMap(snaps[j].plugins)
    ensures EntryMap(snaps[j].plugins)[id].migration == EntryMap(snaps[i].plugins)[id].migration
    ensures MigrationValid(snaps[j]) && snaps[j].migrationPreflight.Some?
    ensures id in snaps[j].migrationPreflight.value.excluded
  {
    hide EntryMap, KeptBy, Step, AllMarkersValid, MarkedIds, SortStrings;
    CarriedVerbatim(repo, links, snaps, id, i, j);
    assert LinkOk(repo, links[j - 1], snaps[j - 1], snaps[j]);
    FinishedShape(links[j - 1].release, links[j - 1].plan, links[j - 1].rendered, snaps[j]);
    var k := PriorEntry(snaps[j], id);
    MarkedIdsMember(snaps[j].plugins, id);
    assert id in multiset(SortStrings(MarkedIds(snaps[j].plugins)));
  }

  // ---- Versions -----------------------------------------------------------------

  ghost predicate Above(w: string, v: string) {
    ParseSemver(v).Some? && ParseSemver(w).Some? && CompareSemver(ParseSemver(w).value, ParseSemver(v).value) > 0
  }

  lemma AboveTransitive(u: string, v: string, w: string)
    requires Above(v, u) && Above(w, v) && Stable(v) && Stable(w)
    ensures Above(w, u)
  {
    StableTransitive(ParseSemver(u).value, ParseSemver(v).value, ParseSemver(w).value);
  }

  lemma StableTransitive(a: Semver, b: Semver, c: Semver)
    requires b.prerelease == "" && c.prerelease == "" && CompareSemver(b, a) > 0 && CompareSemver(c, b) > 0
    ensures CompareSemver(c, a) > 0
  {
  }

  lemma ChosenAbove(ctx: Context, id: string, current: string)
    requires id in ctx.previous && ChooseVersion(ctx, id, current).Some?
    ensures Stable(ChooseVersion(ctx, id, current).value) &&
              Above(ChooseVersion(ctx, id, current).value, ctx.previous[id].version)
  {
    hide ParseSemver, CompareSemver;
    NextVersionIsLarger(ctx.previous[id].version, current);
    NextBootstrapVersionAdvances(ctx.previous[id].version, current);
  }

  /** A plugin that was released before moves to a strictly higher, stable version exactly when
      it is planned, on the stable, prerelease, bootstrap and override paths alike. */
  lemma VersionMoves(repo: Repo, link: Link, previous: Snapshot, s: Snapshot, id: string)
    requires LinkOk(repo, link, previous, s)
    requires id in EntryMap(previous.plugins) && id in EntryMap(s.plugins)
    ensures var v, w := EntryMap(previous.plugins)[id].version, EntryMap(s.plugins)[id].version;
            && (id in PlanMap(link.plan.body.plugins) ==> Above(w, v) && Stable(w))
            && (id !in PlanMap(link.plan.body.plugins) ==> w == v)
  {
    hide Step, EntryMap, PlanMap, PlanOf, Above, Stable, DeferredHere, Carries, EntrySound, Affected, ChooseVersion,
         RelevantPaths, HashOf, ParseSemver,
         IsAlpha, ValidCatalog, ResolveBase;
    var r, plan, s0 := link.release, link.plan, link.rendered;
    var i := PriorEntry(s, id);
    var p := FinishedSource(r, plan, s0, s, i);
    ThreeWays(r, plan, s0, s, p);
    StepPlan(r, plan, s0, s);
    if id in PlanMap(plan.body.plugins) {
      PlannedIsSound(r, plan, s0, s, p);
      PlanCatalog(r.planned, plan);
      PlanContents(r.planned, plan, p);
      var ctx := InputContext(r.planned);
      ChosenAbove(ctx, id, CurrentVersion(ctx.tree, p).value);
    } else {
      CarriedEntryOf(r, plan, s0, s, p);
    }
  }

  ghost predicate PresentThroughout(snaps: seq<Snapshot>, id: string, i: nat, j: nat)
    requires i <= j < |snaps|
  {
    forall k :: i <= k <= j ==> id in EntryMap(snaps[k].plugins)
  }

  ghost predicate PlannedSomewhere(links: seq<Link>, id: string, i: nat, j: nat)
    requires i <= j <= |links|
  {
    exists k :: i <= k < j && id in PlanMap(links[k].plan.body.plugins)
  }

  /** Over any stretch of a chain a plugin's version never decreases, and it rises exactly when
      some release in the stretch planned it. */
  lemma {:induction false} VersionsMonotone(repo: Repo, links: seq<Link>, snaps: seq<Snapshot>, id: string, i: nat,
      j: nat)
    requires Chain(repo, links, snaps) && i <= j <= |links| && PresentThroughout(snaps, id, i, j)
    ensures var v, w := EntryMap(snaps[i].plugins)[id].version, EntryMap(snaps[j].plugins)[id].version;
            if PlannedSomewhere(links, id, i, j) then Above(w, v) && Stable(w) else w == v
    decreases j - i
  {
    hide LinkOk, EntryMap, PlanMap, Above, Stable, Chain, PlannedSomewhere;
    ChainLength(repo, links, snaps);
    if i < j {
      VersionsMonotone(repo, links, snaps, id, i, j - 1);
      assert id in EntryMap(snaps[j - 1].plugins) && id in EntryMap(snaps[j].plugins);
      ChainLink(repo, links, snaps, j - 1);
      VersionMoves(repo, links[j - 1], snaps[j - 1], snaps[j], id);
      PlannedLater(links, id, i, j);
      if PlannedSomewhere(links, id, i, j - 1) && id in PlanMap(links[j - 1].plan.body.plugins) {
        AboveTransitive(EntryMap(snaps[i].plugins)[id].version, EntryMap(snaps[j - 1].plugins)[id].version,
            EntryMap(snaps[j].plugins)[id].version);
      }
    } else {
      NotPlannedYet(links, id, i);
    }
  }

  lemma ChainLength(repo: Repo, links: seq<Link>, snaps: seq<Snapshot>)
    requires Chain(repo, links, snaps)
    ensures |snaps| == |links| + 1
  {
    hide LinkOk;
  }

  lemma ChainLink(repo: Repo, links: seq<Link>, snaps: seq<Snapshot>, k: nat)
    requires Chain(repo, links, snaps) && k < |links|
    ensures |snaps| == |links| + 1 && LinkOk(repo, links[k], snaps[k], snaps[k + 1])
  {
    hide LinkOk;
  }

  lemma PlannedLater(links: seq<Link>, id: string, i: nat, j: nat)
    requires i < j <= |links|
    ensures PlannedSomewhere(links, id, i, j) <==>
              PlannedSomewhere(links, id, i, j - 1) || id in PlanMap(links[j - 1].plan.body.plugins)
  {
    hide PlanMap;
  }

  lemma NotPlannedYet(links: seq<Link>, id: string, i: nat)
    requires i <= |links|
    ensures !PlannedSomewhere(links, id, i, i)
  {
    hide PlanMap;
  }

  // ---- Freshness ----------------------------------------------------------------

  /** The entry's recorded inputs are those at the snapshot's own source commit. */
  ghost predicate Fresh(repo: Repo, c: Catalog, p: Plugin, s: Snapshot) {
    && s.sourceCommit in repo.commits
    && p.logicalId in EntryMap(s.plugins)
    && ParseSemver(EntryMap(s.plugins)[p.logicalId].version).Some?
    && EntryMap(s.plugins)[p.logicalId].inputHash ==
       HashOf(repo.commits[s.sourceCommit], EntryMap(s.plugins)[p.logicalId].version, c, p)
  }

  /** A managed release leaves no stale entry: whatever was fresh stays fresh, planned or not,
      unless the plugin is deferred or a shared group hands it its own VERSION file. */
  lemma FreshnessKept(repo: Repo, link: Link, previous: Snapshot, s: Snapshot, c: Catalog, q: Plugin, p: Plugin)
    requires LinkOk(repo, link, previous, s) && Fresh(repo, c, q, previous)
    requires previous.provenanceMode != BOOTSTRAP_PUBLIC && previous.sourceCommit != ""
    requires p in link.release.planned.catalog.plugins && p.releaseEligible &&
              SameRecord(c, q, link.release.planned.catalog, p)
    requires link.release.planned.target in repo.commits && !DeferredHere(repo.commits[link.release.planned.target], p)
    requires !SharedMatches(link.release.planned.catalog, p, VersionPath(p))
    ensures Fresh(repo, link.release.planned.catalog, p, s)
  {
    hide Step, EntryMap, PlanMap, PlanOf, ParseSemver, IsAlpha, CurrentVersion, Preimage, Selected, ValidCatalog,
         EntrySound, SharedMatches, ValidRepo;
    var r, plan, s0 := link.release, link.plan, link.rendered;
    var c' := r.planned.catalog;
    ThreeWays(r, plan, s0, s, p);
    StepPlan(r, plan, s0, s);
    StepSource(r, plan, s0, s);
    Decided(r, plan, p);
    if p.logicalId in PlanMap(plan.body.plugins) {
      PlannedIsSound(r, plan, s0, s, p);
    } else {
      CarriedEntryOf(r, plan, s0, s, p);
      var v := EntryMap(previous.plugins)[p.logicalId].version;
      VersionNulFree(v);
      StepRepo(r, plan, s0, s);
      PlanCatalog(r.planned, plan);
      NotOverridden(r.planned, plan, p.logicalId);
      SelectionOnHashes(r.planned, plan, p, v);
      SameInputs(c, q, c', p, repo.commits[previous.sourceCommit]);
    }
  }

  lemma StepRepo(r: ReleaseInput, plan: Plan, s0: Snapshot, s: Snapshot)
    requires Step(r, plan, s0, s)
    ensures ValidRepo(r.planned.repo)
  {
    hide ValidRepo, PlanOf, RenderOf, Finish;
  }

  lemma NotOverridden(input: PlanInput, plan: Plan, id: string)
    requires PlanOf(input) == Some(plan) && id !in PlanMap(plan.body.plugins)
    ensures id !in input.overrides
  {
    hide Plannable, Entries, Deferrals, Decidable, SortPlugins, PlanMap;
    forall other | other in input.overrides
      ensures other in PlanMap(plan.body.plugins)
    {
      assert HasEntry(plan.body.plugins, other);
      var i :| 0 <= i < |plan.body.plugins| && plan.body.plugins[i].logicalId == other;
      assert plan.body.plugins[i] in plan.body.plugins;
    }
  }
}
