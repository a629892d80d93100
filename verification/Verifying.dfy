/** verifySnapshotBindings: the independent check of a snapshot, and how exactly it pins one. */
module Verifying {
  import opened Wrappers
  import opened Text
  import opened Semver
  import opened ReleaseModel
  import opened Inputs
  import opened Planning
  import opened Rendering
  import opened Migrating

  /** `files` holds the bootstrap evidence committed in the working tree. OCI resolution is off. */
  datatype VerifyInput = VerifyInput(
    repo: Repo,
    files: map<string, BootstrapEvidence>,
    catalog: Catalog,
    snapshot: Snapshot,
    plan: Option<Plan>,
    previous: Option<Snapshot>,
    expectedSource: Option<string>,
    committed: Option<string>)

  // ---- The source commit --------------------------------------------------------

  /** An alpha VERSION at the snapshot's source commit defers the plugin. */
  predicate DeferredHere(t: Tree, p: Plugin) {
    p.releaseEligible && CurrentVersion(t, p).Some? && IsAlpha(CurrentVersion(t, p).value)
  }

  function DeferredMap(t: Tree, ps: seq<Plugin>): map<string, string> {
    if ps == [] then map[]
    else
      var p := ps[|ps| - 1];
      var m := DeferredMap(t, ps[..|ps| - 1]);
      if DeferredHere(t, p) then m[p.logicalId := CurrentVersion(t, p).value] else m
  }

  function PluginMap(ps: seq<Plugin>): (m: map<string, Plugin>)
    ensures forall id :: id in m ==> m[id] in ps && m[id].logicalId == id
    ensures forall p :: p in ps ==> p.logicalId in m
  {
    if ps == [] then map[]
    else
      var p := ps[|ps| - 1];
      assert ps == ps[..|ps| - 1] + [p];
      PluginMap(ps[..|ps| - 1])[p.logicalId := p]
  }

  ghost predicate SourceOk(input: VerifyInput) {
    && input.snapshot.sourceCommit in input.repo.commits
    && forall i :: 0 <= i < |input.catalog.plugins| && input.catalog.plugins[i].releaseEligible ==>
         CurrentVersion(input.repo.commits[input.snapshot.sourceCommit], input.catalog.plugins[i]).Some?
  }

  ghost function SourceTree(input: VerifyInput): Tree
    requires input.snapshot.sourceCommit in input.repo.commits
  {
    input.repo.commits[input.snapshot.sourceCommit]
  }

  // ---- One entry ----------------------------------------------------------------

  predicate ProvenanceOk(e: SnapshotEntry) {
    || (EntryProvenance(e) == "candidate" && HasSuffix(e.candidateRef, "@" + e.digest))
    || (EntryProvenance(e) == "public" && e.candidateRef == "")
  }

  /** The checks that need neither plan nor previous snapshot. */
  ghost predicate EntrySound(repo: Repo, c: Catalog, p: Plugin, e: SnapshotEntry) {
    && e.image == p.image && e.sourceDir == p.sourceDir && e.implementation == p.implementation
    && e.consumers == CatalogConsumers(c, p)
    && ParseSemver(e.version).Some?
    && e.ociRef == PublicRef(c, p.image, e.version) && IsDigest(e.digest) && e.inputHash.Sha256?
    && ProvenanceOk(e)
    && (e.backfill ==> EntryProvenance(e) == "candidate" && Stable(e.version))
    && e.sourceCommit in repo.commits
    && HashOf(repo.commits[e.sourceCommit], e.version, c, p) == e.inputHash
  }

  /** VERSION and inputs at the merged commit equal what the entry records. */
  ghost predicate CommittedOk(repo: Repo, committed: string, c: Catalog, p: Plugin, e: SnapshotEntry) {
    && committed in repo.commits
    && VersionPath(p) in repo.commits[committed]
    && TrimSpace(repo.commits[committed][VersionPath(p)]) == e.version
    && HashOf(repo.commits[committed], e.version, c, p) == e.inputHash
  }

  ghost predicate EntryOk(input: VerifyInput, e: SnapshotEntry)
    requires input.snapshot.sourceCommit in input.repo.commits
  {
    var plugins, c := PluginMap(input.catalog.plugins), input.catalog;
    && e.logicalId in plugins && plugins[e.logicalId].releaseEligible
    && var p := plugins[e.logicalId];
       && EntrySound(input.repo, c, p, e)
       && (DeferredHere(SourceTree(input), p) ==> Stable(e.version))
       && (input.committed.Some? && !DeferredHere(SourceTree(input), p) ==>
             CommittedOk(input.repo, input.committed.value, c, p, e))
  }

  // ---- Binding to plan, previous snapshot and bootstrap evidence ----------------

  ghost predicate DeferralsMatch(deferred: seq<DeferredPlugin>, here: map<string, string>) {
    && (forall i :: 0 <= i < |deferred| ==>
        deferred[i].logicalId in here && deferred[i].version == here[deferred[i].logicalId] &&
                                            deferred[i].reason == "alpha-prerelease")
    && (forall id :: id in here ==> IsDeferred(deferred, id))
  }

  ghost predicate PlanBound(s: Snapshot, plan: Plan, here: map<string, string>) {
    var body := plan.body;
    && Stable(body.gatewayVersion)
    && body.schemaVersion == 1 && IsCommit(body.sourceCommit) && (body.baseCommit == "" || IsCommit(body.baseCommit))
    && (body.previousRelease == "" || Stable(body.previousRelease))
    && plan.planId == Sha256(body)
    && body.gatewayVersion == s.gatewayVersion && body.sourceCommit == s.sourceCommit
    && body.previousRelease == s.previousRelease && plan.planId == s.planId && body.catalog == s.catalog
    && DistinctPlanned(body.plugins) && DistinctDeferred(body.deferred)
    && (AnyBackfill(body.plugins) ==> s.bootstrapEvidence.Some?)
    && (forall i :: 0 <= i < |body.deferred| ==> body.deferred[i].logicalId !in PlanMap(body.plugins))
    && DeferralsMatch(body.deferred, here)
  }

  predicate AnyBackfill(entries: seq<PlanEntry>) {
    exists i :: 0 <= i < |entries| && entries[i].backfill
  }

  ghost predicate PreviousBound(s: Snapshot, previous: Snapshot) {
    && Stable(previous.gatewayVersion) && previous.schemaVersion == 1 && previous.gatewayVersion == s.previousRelease
    && (s.bootstrapEvidence.Some? ==> previous.provenanceMode == BOOTSTRAP_PUBLIC)
    && DistinctEntries(previous.plugins)
  }

  predicate PlannedMatches(planned: PlanEntry, e: SnapshotEntry, sourceCommit: string) {
    && planned.logicalId == e.logicalId && planned.implementation == e.implementation
    && planned.sourceDir == e.sourceDir && planned.image == e.image && planned.version == e.version
    && planned.inputHash == e.inputHash && planned.backfill == e.backfill && e.sourceCommit == sourceCommit
  }

  predicate CarriedMatches(prior: SnapshotEntry, e: SnapshotEntry) {
    && prior.version == e.version && prior.ociRef == e.ociRef && prior.digest == e.digest
    && prior.inputHash == e.inputHash && prior.sourceCommit == e.sourceCommit && prior.candidateRef == e.candidateRef
    && prior.provenanceMode == e.provenanceMode && prior.backfill == e.backfill && prior.migration == e.migration
  }

  function Planned(input: VerifyInput): map<string, PlanEntry> {
    if input.plan.Some? then PlanMap(input.plan.value.body.plugins) else map[]
  }

  /** Each entry comes from the plan, else from the previous snapshot, else from the evidence. */
  predicate EntryBinds(input: VerifyInput, e: SnapshotEntry) {
    if e.logicalId in Planned(input) then PlannedMatches(Planned(input)[e.logicalId], e, input.snapshot.sourceCommit)
    else if input.previous.Some? then
      && e.logicalId in EntryMap(input.previous.value.plugins)
      && CarriedMatches(EntryMap(input.previous.value.plugins)[e.logicalId], e)
    else input.snapshot.bootstrapEvidence.Some? && EntryProvenance(e) == "public"
  }

  ghost predicate EntriesBound(input: VerifyInput, here: map<string, string>) {
    input.plan.Some? || input.previous.Some? ==>
      var entries := EntryMap(input.snapshot.plugins);
      && (forall i :: 0 <= i < |input.snapshot.plugins| ==> EntryBinds(input, input.snapshot.plugins[i]))
      && (forall id :: id in Planned(input) ==> id in entries)
      && (input.previous.Some? ==> forall id :: id in here && id in EntryMap(input.previous.value.plugins) ==>
          id in entries)
  }

  ghost predicate MarkerBound(input: VerifyInput) {
    match input.snapshot.bootstrapEvidence
    case None => true
    case Some(marker) =>
      && input.snapshot.provenanceMode != BOOTSTRAP_PUBLIC
      && marker.path == EvidencePath(input.snapshot.gatewayVersion)
      && marker.path in input.files
      && marker.sha256 == Sha256(input.files[marker.path])
      && EvidenceBound(input.snapshot.plugins, input.files[marker.path])
  }

  // ---- The verifier -------------------------------------------------------------

  ghost predicate HeaderOk(input: VerifyInput) {
    var s := input.snapshot;
    && ValidCatalog(input.catalog)
    && s.schemaVersion == 1 && s.catalog == Sha256(input.catalog)
    && ParseSemver(s.gatewayVersion).Some? && IsCommit(s.sourceCommit)
    && (s.provenanceMode == "candidate" || s.provenanceMode == BOOTSTRAP_PUBLIC || s.provenanceMode == "mixed")
    && MigrationValid(s)
    && (input.expectedSource.Some? ==> input.expectedSource.value == s.sourceCommit)
    && (input.committed.Some? ==> input.committed.value in input.repo.commits)
  }

  ghost predicate SortedEntries(es: seq<SnapshotEntry>) {
    forall i, j :: 0 <= i < j < |es| ==> StrLt(es[i].logicalId, es[j].logicalId)
  }

  ghost predicate Complete(input: VerifyInput)
    requires input.snapshot.sourceCommit in input.repo.commits
  {
    forall i :: 0 <= i < |input.catalog.plugins| && input.catalog.plugins[i].releaseEligible &&
                !DeferredHere(SourceTree(input), input.catalog.plugins[i]) ==>
      input.catalog.plugins[i].logicalId in EntryMap(input.snapshot.plugins)
  }

  ghost predicate Accepts(input: VerifyInput) {
    && HeaderOk(input)
    && SourceOk(input)
    && SortedEntries(input.snapshot.plugins)
    && (forall i :: 0 <= i < |input.snapshot.plugins| ==> EntryOk(input, input.snapshot.plugins[i]))
    && Complete(input)
    && var here := DeferredMap(SourceTree(input), input.catalog.plugins);
       && (input.plan.Some? ==> PlanBound(input.snapshot, input.plan.value, here))
       && (input.previous.Some? ==> PreviousBound(input.snapshot, input.previous.value))
       && EntriesBound(input, here)
       && MarkerBound(input)
  }

  method VerifySnapshot(input: VerifyInput) returns (ok: bool)
    ensures ok <==> Accepts(input)
  {
    hide HeaderOk, EntryOk, DeferredMap, PlanBound, PreviousBound, EntriesBound, MarkerBound, EntryMap,
         CurrentVersion, IsAlpha;
    ok := CheckHeader(input);
    if !ok || input.snapshot.sourceCommit !in input.repo.commits {
      return false;
    }
    var t := input.repo.commits[input.snapshot.sourceCommit];
    var here := ComputeDeferred(t, input.catalog.plugins);
    if here.Failure? {
      return false;
    }
    ok := CheckEntries(input);
    if !ok {
      return false;
    }
    var entries := EntryMap(input.snapshot.plugins);
    for i := 0 to |input.catalog.plugins|
      invariant forall j | 0 <= j < i && input.catalog.plugins[j].releaseEligible &&
                           !DeferredHere(t, input.catalog.plugins[j]) ::
                  input.catalog.plugins[j].logicalId in entries
    {
      if input.catalog.plugins[i].releaseEligible && !DeferredHere(t, input.catalog.plugins[i]) &&
         input.catalog.plugins[i].logicalId !in entries {
        return false;
      }
    }
    ok := CheckBindings(input, here.value);
  }

  method CheckHeader(input: VerifyInput) returns (ok: bool)
    ensures ok <==> HeaderOk(input)
  {
    hide ParseSemver, ValidCatalog, IsCommit, MigrationValid;
    var s := input.snapshot;
    if !ValidCatalog(input.catalog) || s.schemaVersion != 1 || s.catalog != Sha256(input.catalog) ||
       ParseSemver(s.gatewayVersion).None? || !IsCommit(s.sourceCommit) {
      return false;
    }
    if s.provenanceMode != "candidate" && s.provenanceMode != BOOTSTRAP_PUBLIC && s.provenanceMode != "mixed" {
      return false;
    }
    ok := ValidateSnapshotMigration(s);
    return ok && (input.expectedSource.Some? ==> input.expectedSource.value == s.sourceCommit) &&
           (input.committed.Some? ==> input.committed.value in input.repo.commits);
  }

  method ComputeDeferred(t: Tree, ps: seq<Plugin>) returns (r: Result<map<string, string>>)
    ensures r.Success? <==> forall i :: 0 <= i < |ps| && ps[i].releaseEligible ==> CurrentVersion(t, ps[i]).Some?
    ensures r.Success? ==> r.value == DeferredMap(t, ps)
  {
    hide CurrentVersion, IsAlpha;
    var m: map<string, string> := map[];
    for i := 0 to |ps|
      invariant forall j :: 0 <= j < i && ps[j].releaseEligible ==> CurrentVersion(t, ps[j]).Some?
      invariant m == DeferredMap(t, ps[..i])
    {
      assert ps[..i + 1][..i] == ps[..i];
      if ps[i].releaseEligible {
        if CurrentVersion(t, ps[i]).None? {
          return Failure("VERSION at snapshot source commit");
        }
        if IsAlpha(CurrentVersion(t, ps[i]).value) {
          m := m[ps[i].logicalId := CurrentVersion(t, ps[i]).value];
        }
      }
    }
    assert ps[..|ps|] == ps;
    return Success(m);
  }

  method CheckEntries(input: VerifyInput) returns (ok: bool)
    requires input.snapshot.sourceCommit in input.repo.commits
    ensures ok <==> SortedEntries(input.snapshot.plugins) &&
                    forall i :: 0 <= i < |input.snapshot.plugins| ==> EntryOk(input, input.snapshot.plugins[i])
  {
    hide EntryOk;
    var es := input.snapshot.plugins;
    var seen: set<string> := {};
    var last := "";
    for i := 0 to |es|
      invariant last == if i == 0 then "" else es[i - 1].logicalId
      invariant forall id :: id in seen <==> exists j :: 0 <= j < i && es[j].logicalId == id
      invariant forall j, k :: 0 <= j < k < i ==> StrLt(es[j].logicalId, es[k].logicalId)
      invariant forall j :: 0 <= j < i ==> EntryOk(input, es[j])
    {
      var id := es[i].logicalId;
      if id in seen || (last != "" && StrLt(id, last)) {
        if i > 0 { StrLtTotal(id, last); }
        forall j | 0 <= j < i && es[j].logicalId == id
          ensures !StrLt(es[j].logicalId, id)
        {
          StrLtTotal(id, id);
        }
        return false;
      }
      var sound := CheckEntry(input, es[i]);
      if !sound {
        return false;
      }
      forall j | 0 <= j < i
        ensures StrLt(es[j].logicalId, id)
      {
        assert id != es[j].logicalId && id != last;
        StrLtTotal(last, id);
        if j < i - 1 { StrLtTrans(es[j].logicalId, last, id); }
      }
      last := id;
      seen := seen + {id};
    }
    return true;
  }

  method CheckEntry(input: VerifyInput, e: SnapshotEntry) returns (ok: bool)
    requires input.snapshot.sourceCommit in input.repo.commits
    ensures ok <==> EntryOk(input, e)
  {
    hide HashOf, IsDigest, ParseSemver, IsAlpha, CurrentVersion, CatalogConsumers, ProvenanceOk;
    var plugins, c := PluginMap(input.catalog.plugins), input.catalog;
    if e.logicalId !in plugins || !plugins[e.logicalId].releaseEligible {
      return false;
    }
    var p := plugins[e.logicalId];
    ok := CheckEntrySound(input.repo, c, p, e);
    if !ok {
      return false;
    }
    var deferred := DeferredHere(input.repo.commits[input.snapshot.sourceCommit], p);
    if deferred && !Stable(e.version) {
      return false;
    }
    if input.committed.Some? && !deferred {
      var commit := input.committed.value;
      if commit !in input.repo.commits || VersionPath(p) !in input.repo.commits[commit] ||
         TrimSpace(input.repo.commits[commit][VersionPath(p)]) != e.version {
        return false;
      }
      var hash := ComputeInputHash(input.repo.commits[commit], e.version, c, p);
      return hash == e.inputHash;
    }
    return true;
  }

  method CheckEntrySound(repo: Repo, c: Catalog, p: Plugin, e: SnapshotEntry) returns (ok: bool)
    ensures ok <==> EntrySound(repo, c, p, e)
  {
    hide HashOf, IsDigest, ParseSemver, CatalogConsumers, ProvenanceOk;
    if e.image != p.image || e.sourceDir != p.sourceDir || e.implementation != p.implementation ||
       e.consumers != CatalogConsumers(c, p) || ParseSemver(e.version).None? ||
       e.ociRef != PublicRef(c, p.image, e.version) || !IsDigest(e.digest) || !e.inputHash.Sha256? || !ProvenanceOk(e) {
      return false;
    }
    if e.backfill && (EntryProvenance(e) != "candidate" || !Stable(e.version)) {
      return false;
    }
    if e.sourceCommit !in repo.commits {
      return false;
    }
    var hash := ComputeInputHash(repo.commits[e.sourceCommit], e.version, c, p);
    return hash == e.inputHash;
  }

  method CheckBindings(input: VerifyInput, here: map<string, string>) returns (ok: bool)
    ensures ok <==> (input.plan.Some? ==> PlanBound(input.snapshot, input.plan.value, here)) &&
                    (input.previous.Some? ==> PreviousBound(input.snapshot, input.previous.value)) &&
                    EntriesBound(input, here) && MarkerBound(input)
  {
    hide PlanBound, PreviousBound, EntriesBound, MarkerBound;
    if input.plan.Some? {
      ok := CheckPlanBound(input.snapshot, input.plan.value, here);
      if !ok { return; }
    }
    if input.previous.Some? {
      ok := CheckPreviousBound(input.snapshot, input.previous.value);
      if !ok { return; }
    }
    ok := CheckEntriesBound(input, here);
    if ok {
      ok := CheckMarker(input);
    }
  }

  method CheckPlanBound(s: Snapshot, plan: Plan, here: map<string, string>) returns (ok: bool)
    ensures ok <==> PlanBound(s, plan, here)
  {
    hide ParseSemver, IsCommit, PlanMap, DistinctPlanned, DistinctDeferred, DeferralsMatch, Stable;
    var body := plan.body;
    if !Stable(body.gatewayVersion) || body.schemaVersion != 1 || !IsCommit(body.sourceCommit) ||
       (body.baseCommit != "" && !IsCommit(body.baseCommit)) ||
       (body.previousRelease != "" && !Stable(body.previousRelease)) || plan.planId != Sha256(body) {
      return false;
    }
    if body.gatewayVersion != s.gatewayVersion || body.sourceCommit != s.sourceCommit ||
       body.previousRelease != s.previousRelease || plan.planId != s.planId || body.catalog != s.catalog {
      return false;
    }
    var planned := CheckPlannedBackfill(body.plugins);
    if planned.Failure? || (planned.value && s.bootstrapEvidence.None?) {
      return false;
    }
    ok := CheckDeferrals(body.deferred, PlanMap(body.plugins), here);
  }

  method CheckPlannedBackfill(entries: seq<PlanEntry>) returns (r: Result<bool>)
    ensures r.Success? <==> DistinctPlanned(entries)
    ensures r.Success? ==> r.value == AnyBackfill(entries)
  {
    var ids: set<string> := {};
    var backfill := false;
    for i := 0 to |entries|
      invariant forall id :: id in ids <==> exists j :: 0 <= j < i && entries[j].logicalId == id
      invariant forall j, k :: 0 <= j < k < i ==> entries[j].logicalId != entries[k].logicalId
      invariant backfill <==> exists j :: 0 <= j < i && entries[j].backfill
    {
      if entries[i].logicalId in ids {
        return Failure("plan contains duplicate plugin");
      }
      ids := ids + {entries[i].logicalId};
      backfill := backfill || entries[i].backfill;
    }
    return Success(backfill);
  }

  method CheckDeferrals(deferred: seq<DeferredPlugin>, planned: map<string, PlanEntry>, here: map<string, string>)
      returns (ok: bool)
    ensures ok <==> DistinctDeferred(deferred) &&
                    (forall i :: 0 <= i < |deferred| ==> deferred[i].logicalId !in planned) &&
                    DeferralsMatch(deferred, here)
  {
    var ids: set<string> := {};
    for i := 0 to |deferred|
      invariant forall id :: id in ids <==> exists j :: 0 <= j < i && deferred[j].logicalId == id
      invariant forall j, k :: 0 <= j < k < i ==> deferred[j].logicalId != deferred[k].logicalId
      invariant forall j :: 0 <= j < i ==> deferred[j].logicalId !in planned && deferred[j].logicalId in here &&
                                           deferred[j].version == here[deferred[j].logicalId] &&
                                               deferred[j].reason == "alpha-prerelease"
    {
      var d := deferred[i];
      if d.logicalId in ids || d.logicalId in planned || d.logicalId !in here || d.version != here[d.logicalId] ||
         d.reason != "alpha-prerelease" {
        return false;
      }
      ids := ids + {d.logicalId};
    }
    assert forall id :: id in ids <==> IsDeferred(deferred, id);
    return here.Keys <= ids;
  }

  method CheckPreviousBound(s: Snapshot, previous: Snapshot) returns (ok: bool)
    ensures ok <==> PreviousBound(s, previous)
  {
    hide ParseSemver;
    if !Stable(previous.gatewayVersion) || previous.schemaVersion != 1 ||
        previous.gatewayVersion != s.previousRelease ||
       (s.bootstrapEvidence.Some? && previous.provenanceMode != BOOTSTRAP_PUBLIC) {
      return false;
    }
    var ids: set<string> := {};
    var es := previous.plugins;
    for i := 0 to |es|
      invariant forall id :: id in ids <==> exists j :: 0 <= j < i && es[j].logicalId == id
      invariant forall j, k :: 0 <= j < k < i ==> es[j].logicalId != es[k].logicalId
    {
      if es[i].logicalId in ids {
        return false;
      }
      ids := ids + {es[i].logicalId};
    }
    return true;
  }

  method CheckEntriesBound(input: VerifyInput, here: map<string, string>) returns (ok: bool)
    ensures ok <==> EntriesBound(input, here)
  {
    hide EntryBinds, PlanMap, EntryMap;
    if input.plan.None? && input.previous.None? {
      return true;
    }
    var es := input.snapshot.plugins;
    for i := 0 to |es|
      invariant forall j :: 0 <= j < i ==> EntryBinds(input, es[j])
    {
      if !EntryBinds(input, es[i]) {
        return false;
      }
    }
    var entries := EntryMap(es);
    if !(Planned(input).Keys <= entries.Keys) {
      return false;
    }
    return input.previous.Some? ==> here.Keys * EntryMap(input.previous.value.plugins).Keys <= entries.Keys;
  }

  method CheckMarker(input: VerifyInput) returns (ok: bool)
    ensures ok <==> MarkerBound(input)
  {
    hide EvidenceBound;
    match input.snapshot.bootstrapEvidence
    case None => return true;
    case Some(marker) =>
      if input.snapshot.provenanceMode == BOOTSTRAP_PUBLIC ||
          marker.path != EvidencePath(input.snapshot.gatewayVersion) ||
         marker.path !in input.files || marker.sha256 != Sha256(input.files[marker.path]) {
        return false;
      }
      ok := BindBootstrapEvidence(input.snapshot.plugins, input.files[marker.path]);
  }
}
