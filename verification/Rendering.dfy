/** renderSnapshot: planned entries from candidate evidence, the rest carried from before. */
module Rendering {
  import opened Wrappers
  import opened Text
  import opened Semver
  import opened ReleaseModel
  import opened Planning

  datatype RenderInput = RenderInput(
    catalog: Catalog,
    plan: Plan,
    previous: Option<Snapshot>,
    evidence: Evidence,
    bootstrapEvidence: Option<BootstrapEvidence>)

  function PreviousEntries(previous: Option<Snapshot>): map<string, SnapshotEntry> {
    if previous.Some? then EntryMap(previous.value.plugins) else map[]
  }

  predicate FromBootstrap(previous: Option<Snapshot>) {
    previous.Some? && previous.value.provenanceMode == BOOTSTRAP_PUBLIC
  }

  // ---- Checking the plan --------------------------------------------------------

  ghost predicate DistinctPlanned(entries: seq<PlanEntry>) {
    forall i, j :: 0 <= i < j < |entries| ==> entries[i].logicalId != entries[j].logicalId
  }

  ghost predicate DistinctDeferred(deferred: seq<DeferredPlugin>) {
    forall i, j :: 0 <= i < j < |deferred| ==> deferred[i].logicalId != deferred[j].logicalId
  }

  /** A backfill marker is only for a stable version the bootstrap baseline lacks. */
  predicate BackfillAllowed(e: PlanEntry, bootstrap: bool, previous: map<string, SnapshotEntry>) {
    e.backfill ==> bootstrap && e.logicalId !in previous && Stable(e.version)
  }

  ghost predicate PlanIsSound(plan: PlanBody, bootstrap: bool, previous: map<string, SnapshotEntry>) {
    && DistinctPlanned(plan.plugins) && DistinctDeferred(plan.deferred)
    && (forall i :: 0 <= i < |plan.plugins| ==> BackfillAllowed(plan.plugins[i], bootstrap, previous))
    && (forall i :: 0 <= i < |plan.deferred| ==>
          plan.deferred[i].reason == "alpha-prerelease" && plan.deferred[i].logicalId !in PlanMap(plan.plugins))
  }

  predicate IsDeferred(deferred: seq<DeferredPlugin>, id: string) {
    exists i :: 0 <= i < |deferred| && deferred[i].logicalId == id
  }

  method CheckPlanned(entries: seq<PlanEntry>, bootstrap: bool, previous: map<string, SnapshotEntry>) returns (ok: bool)
    ensures ok <==> DistinctPlanned(entries) &&
                    forall i :: 0 <= i < |entries| ==> BackfillAllowed(entries[i], bootstrap, previous)
  {
    hide BackfillAllowed;
    var ids: set<string> := {};
    for i := 0 to |entries|
      invariant forall j :: 0 <= j < i ==> entries[j].logicalId in ids
      invariant forall id :: id in ids ==> exists j :: 0 <= j < i && entries[j].logicalId == id
      invariant forall j, k :: 0 <= j < k < i ==> entries[j].logicalId != entries[k].logicalId
      invariant forall j :: 0 <= j < i ==> BackfillAllowed(entries[j], bootstrap, previous)
    {
      if entries[i].logicalId in ids || !BackfillAllowed(entries[i], bootstrap, previous) {
        return false;
      }
      ids := ids + {entries[i].logicalId};
    }
    return true;
  }

  method CheckDeferred(deferred: seq<DeferredPlugin>, planned: map<string, PlanEntry>) returns (r: Result<set<string>>)
    ensures r.Success? <==> DistinctDeferred(deferred) && forall i :: 0 <= i < |deferred| ==>
                              deferred[i].reason == "alpha-prerelease" && deferred[i].logicalId !in planned
    ensures r.Success? ==> forall id :: id in r.value <==> IsDeferred(deferred, id)
  {
    var ids: set<string> := {};
    for i := 0 to |deferred|
      invariant forall j :: 0 <= j < i ==> deferred[j].logicalId in ids
      invariant forall id :: id in ids ==> exists j :: 0 <= j < i && deferred[j].logicalId == id
      invariant DistinctDeferred(deferred[..i])
      invariant forall j :: 0 <= j < i ==> deferred[j].reason == "alpha-prerelease" && deferred[j].logicalId !in planned
    {
      var d := deferred[i];
      if d.reason != "alpha-prerelease" || d.logicalId in planned || d.logicalId in ids {
        return Failure("unsupported, planned or repeated deferral");
      }
      ids := ids + {d.logicalId};
    }
    assert deferred[..|deferred|] == deferred;
    return Success(ids);
  }

  // ---- One plugin ---------------------------------------------------------------

  predicate EvidenceMatches(e: CandidateEvidence, sourceCommit: string, hash: InputHash) {
    IsDigest(e.digest) && e.sourceCommit == sourceCommit && e.inputHash == hash &&
        HasSuffix(e.candidateRef, "@" + e.digest)
  }

  function PlannedEntry(c: Catalog, p: Plugin, sourceCommit: string, planned: PlanEntry,
      e: CandidateEvidence): SnapshotEntry {
    SnapshotEntry(p.logicalId, p.implementation, p.sourceDir, p.image, planned.version,
                  PublicRef(c, p.image, planned.version), e.digest, planned.inputHash, sourceCommit,
                  e.candidateRef, "candidate", planned.backfill, None, CatalogConsumers(c, p))
  }

  function CarriedEntry(c: Catalog, p: Plugin, prior: SnapshotEntry): SnapshotEntry {
    prior.(consumers := CatalogConsumers(c, p), provenanceMode := EntryProvenance(prior))
  }

  /** One pass of the catalog loop for an eligible plugin: `None` is an error, `Some(None)` a
      deferred plugin that was never released. */
  function RenderOne(input: RenderInput, p: Plugin): (r: Option<Option<SnapshotEntry>>)
    ensures r.Some? && r.value.Some? ==> r.value.value.logicalId == p.logicalId
  {
    var id, plan := p.logicalId, input.plan.body;
    if id in PlanMap(plan.plugins) then
      var planned := PlanMap(plan.plugins)[id];
      if id in input.evidence && EvidenceMatches(input.evidence[id], plan.sourceCommit, planned.inputHash) then
        Some(Some(PlannedEntry(input.catalog, p, plan.sourceCommit, planned, input.evidence[id])))
      else None
    else if id in PreviousEntries(input.previous) then
      Some(Some(CarriedEntry(input.catalog, p, PreviousEntries(input.previous)[id])))
    else if IsDeferred(plan.deferred, id) then Some(None)
    else None
  }

  predicate Renderable(input: RenderInput, ps: seq<Plugin>) {
    forall i :: 0 <= i < |ps| && ps[i].releaseEligible ==> RenderOne(input, ps[i]).Some?
  }

  function RenderedHere(input: RenderInput, p: Plugin): Option<SnapshotEntry> {
    if p.releaseEligible && RenderOne(input, p).Some? then RenderOne(input, p).value else None
  }

  function RenderEntries(input: RenderInput, ps: seq<Plugin>): seq<SnapshotEntry> {
    if ps == [] then []
    else
      var e := RenderedHere(input, ps[|ps| - 1]);
      RenderEntries(input, ps[..|ps| - 1]) + if e.Some? then [e.value] else []
  }

  predicate AnyPublic(entries: seq<SnapshotEntry>) {
    exists i :: 0 <= i < |entries| && entries[i].provenanceMode == "public"
  }

  ghost predicate DeferredAreEligible(deferred: seq<DeferredPlugin>, ps: seq<Plugin>) {
    forall i :: 0 <= i < |deferred| ==> EligibleId(ps, deferred[i].logicalId)
  }

  ghost predicate EligibleId(ps: seq<Plugin>, id: string) {
    exists k :: 0 <= k < |ps| && ps[k].releaseEligible && ps[k].logicalId == id
  }

  // ---- Bootstrap evidence -------------------------------------------------------

  /** Every imported entry matches its "public" record, every backfill its "missing" record. */
  predicate EntryBound(e: SnapshotEntry, evidence: BootstrapEvidence) {
    && e.logicalId in evidence
    && var record := evidence[e.logicalId];
       if e.backfill then record.status == Missing && record.version == e.version
       else EntryProvenance(e) == "public" ==>
              record.status == Public && record.version == e.version && record.digest == e.digest
  }

  ghost predicate HasSnapshotEntry(entries: seq<SnapshotEntry>, id: string) {
    exists i :: 0 <= i < |entries| && entries[i].logicalId == id
  }

  ghost predicate Backfilled(entries: seq<SnapshotEntry>, id: string) {
    exists i :: 0 <= i < |entries| && entries[i].backfill && entries[i].logicalId == id
  }

  /** bindBootstrapEvidence */
  ghost predicate EvidenceBound(entries: seq<SnapshotEntry>, evidence: BootstrapEvidence) {
    && (forall i :: 0 <= i < |entries| ==> EntryBound(entries[i], evidence))
    && (forall id :: id in evidence && evidence[id].status == Missing ==> Backfilled(entries, id))
    && (forall id :: id in evidence && evidence[id].status == Deferred ==> !HasSnapshotEntry(entries, id))
  }

  method BindBootstrapEvidence(entries: seq<SnapshotEntry>, evidence: BootstrapEvidence) returns (ok: bool)
    ensures ok <==> EvidenceBound(entries, evidence)
  {
    hide EntryBound;
    var backfilled: set<string> := {};
    for i := 0 to |entries|
      invariant forall j :: 0 <= j < i ==> EntryBound(entries[j], evidence)
      invariant forall j :: 0 <= j < i && entries[j].backfill ==> entries[j].logicalId in backfilled
      invariant forall id :: id in backfilled ==> Backfilled(entries, id)
    {
      if !EntryBound(entries[i], evidence) {
        return false;
      }
      if entries[i].backfill {
        backfilled := backfilled + {entries[i].logicalId};
      }
    }
    var rest := evidence.Keys;
    while rest != {}
      invariant rest <= evidence.Keys
      invariant forall id :: id in evidence && id !in rest && evidence[id].status == Missing ==> Backfilled(entries, id)
      invariant forall id :: id in evidence && id !in rest && evidence[id].status == Deferred ==>
                !HasSnapshotEntry(entries, id)
      decreases |rest|
    {
      var id :| id in rest;
      if evidence[id].status == Missing && id !in backfilled {
        return false;
      }
      if evidence[id].status == Deferred {
        for i := 0 to |entries|
          invariant forall j :: 0 <= j < i ==> entries[j].logicalId != id
        {
          if entries[i].logicalId == id {
            return false;
          }
        }
      }
      rest := rest - {id};
    }
    return true;
  }

  // ---- The snapshot -------------------------------------------------------------

  ghost predicate RenderHeaderOk(input: RenderInput) {
    && input.plan.body.catalog == Sha256(input.catalog)
    && input.plan.body.schemaVersion == 1 && IsCommit(input.plan.body.sourceCommit) && input.plan.planId.Sha256?
    && FromBootstrap(input.previous) == input.bootstrapEvidence.Some?
    && PlanIsSound(input.plan.body, FromBootstrap(input.previous), PreviousEntries(input.previous))
  }

  function SnapshotFrom(input: RenderInput, entries: seq<SnapshotEntry>): Snapshot {
    var plan := input.plan.body;
    Snapshot(1, plan.gatewayVersion, plan.sourceCommit, plan.previousRelease, plan.catalog, input.plan.planId,
             if AnyPublic(entries) then "mixed" else "candidate",
             if FromBootstrap(input.previous) && input.bootstrapEvidence.Some? then
               Some(EvidenceMarker(EvidencePath(plan.gatewayVersion), Sha256(input.bootstrapEvidence.value)))
             else None,
             None, entries)
  }

  ghost function RenderOf(input: RenderInput): Option<Snapshot> {
    var ps := SortPlugins(input.catalog.plugins);
    var entries := RenderEntries(input, ps);
    if && RenderHeaderOk(input)
       && Renderable(input, ps)
       && DeferredAreEligible(input.plan.body.deferred, ps)
       && (FromBootstrap(input.previous) ==> EvidenceBound(entries, input.bootstrapEvidence.value))
    then Some(SnapshotFrom(input, entries))
    else None
  }

  method CheckRenderHeader(input: RenderInput) returns (ok: bool)
    ensures ok <==> RenderHeaderOk(input)
  {
    hide IsCommit, PlanMap, BackfillAllowed, PreviousEntries, DistinctPlanned, DistinctDeferred;
    var plan, bootstrap := input.plan.body, FromBootstrap(input.previous);
    if plan.catalog != Sha256(input.catalog) || plan.schemaVersion != 1 || !IsCommit(plan.sourceCommit) ||
        !input.plan.planId.Sha256? {
      return false;
    }
    if bootstrap != input.bootstrapEvidence.Some? {
      return false;
    }
    ok := CheckPlanned(plan.plugins, bootstrap, PreviousEntries(input.previous));
    if ok {
      var deferred := CheckDeferred(plan.deferred, PlanMap(plan.plugins));
      ok := deferred.Success?;
    }
  }

  method RenderSnapshot(input: RenderInput) returns (r: Result<Snapshot>)
    ensures r.ToOption() == RenderOf(input)
  {
    hide SortPlugins, RenderHeaderOk, EvidenceBound, RenderEntries, Renderable, DeferredAreEligible, SnapshotFrom;
    var header := CheckRenderHeader(input);
    if !header {
      return Failure("plan or bootstrap evidence does not fit the catalog and the previous snapshot");
    }
    var ps := SortPlugins(input.catalog.plugins);
    var loop := RenderLoop(input, ps);
    if loop.Failure? {
      return Failure(loop.error);
    }
    var eligible := AllEligible(input.plan.body.deferred, ps);
    if !eligible {
      return Failure("plan defers an unknown or release-ineligible plugin");
    }
    if FromBootstrap(input.previous) {
      HeaderEvidence(input);
      var bound := BindBootstrapEvidence(loop.value, input.bootstrapEvidence.value);
      if !bound {
        return Failure("bootstrap evidence does not bind");
      }
    }
    return Success(SnapshotFrom(input, loop.value));
  }

  lemma HeaderEvidence(input: RenderInput)
    requires RenderHeaderOk(input)
    ensures FromBootstrap(input.previous) == input.bootstrapEvidence.Some?
  {
  }

  method RenderLoop(input: RenderInput, ps: seq<Plugin>) returns (r: Result<seq<SnapshotEntry>>)
    ensures r.Success? <==> Renderable(input, ps)
    ensures r.Success? ==> r.value == RenderEntries(input, ps)
  {
    hide RenderOne;
    var entries := [];
    for i := 0 to |ps|
      invariant Renderable(input, ps[..i])
      invariant entries == RenderEntries(input, ps[..i])
    {
      assert ps[..i + 1][..i] == ps[..i];
      if ps[i].releaseEligible {
        var e := RenderOne(input, ps[i]);
        if e.None? {
          return Failure("missing or mismatched evidence, or neither planned nor carried");
        }
        if e.value.Some? {
          entries := entries + [e.value.value];
        }
      }
    }
    assert ps[..|ps|] == ps;
    return Success(entries);
  }

  method AllEligible(deferred: seq<DeferredPlugin>, ps: seq<Plugin>) returns (ok: bool)
    ensures ok <==> DeferredAreEligible(deferred, ps)
  {
    var eligible: set<string> := {};
    for i := 0 to |ps|
      invariant forall k :: 0 <= k < i && ps[k].releaseEligible ==> ps[k].logicalId in eligible
      invariant forall id :: id in eligible ==> EligibleId(ps, id)
    {
      if ps[i].releaseEligible {
        eligible := eligible + {ps[i].logicalId};
      }
    }
    for i := 0 to |deferred|
      invariant forall j :: 0 <= j < i ==> deferred[j].logicalId in eligible
    {
      if deferred[i].logicalId !in eligible {
        return false;
      }
    }
    return true;
  }

  // ---- What a snapshot contains -------------------------------------------------

  /** Snapshot entries come one per rendered plugin, in strictly ascending order. */
  lemma {:induction false} RenderedFrom(input: RenderInput, ps: seq<Plugin>, i: nat) returns (k: nat)
    requires i < |RenderEntries(input, ps)|
    ensures k < |ps| && RenderedHere(input, ps[k]) == Some(RenderEntries(input, ps)[i])
    ensures ps[k].logicalId == RenderEntries(input, ps)[i].logicalId
  {
    hide RenderOne;
    var n := |ps| - 1;
    if i < |RenderEntries(input, ps[..n])| {
      k := RenderedFrom(input, ps[..n], i);
    } else {
      k := n;
    }
  }

  lemma {:induction false} RenderedAt(input: RenderInput, ps: seq<Plugin>, k: nat) returns (i: nat)
    requires k < |ps| && RenderedHere(input, ps[k]).Some?
    ensures i < |RenderEntries(input, ps)| && RenderEntries(input, ps)[i] == RenderedHere(input, ps[k]).value
  {
    hide RenderOne, RenderedHere;
    var n := |ps| - 1;
    if k < n {
      i := RenderedAt(input, ps[..n], k);
    } else {
      i := |RenderEntries(input, ps[..n])|;
    }
  }

  lemma {:induction false} RenderedSorted(input: RenderInput, ps: seq<Plugin>)
    requires SortedIds(ps)
    ensures forall i, j :: 0 <= i < j < |RenderEntries(input, ps)| ==>
              StrLt(RenderEntries(input, ps)[i].logicalId, RenderEntries(input, ps)[j].logicalId)
  {
    hide RenderOne, RenderedHere;
    if ps != [] {
      var n := |ps| - 1;
      RenderedSorted(input, ps[..n]);
      var es := RenderEntries(input, ps[..n]);
      forall i | 0 <= i < |es|
        ensures StrLt(es[i].logicalId, ps[n].logicalId)
      {
        var k := RenderedFrom(input, ps[..n], i);
        assert ps[k].logicalId == es[i].logicalId;
      }
      HereId(input, ps[n]);
    }
  }

  lemma HereId(input: RenderInput, p: Plugin)
    ensures RenderedHere(input, p).Some? ==> RenderedHere(input, p).value.logicalId == p.logicalId
  {
  }

  lemma SnapshotSorted(input: RenderInput, s: Snapshot)
    requires RenderOf(input) == Some(s) && DistinctIds(input.catalog.plugins)
    ensures forall i, j :: 0 <= i < j < |s.plugins| ==> StrLt(s.plugins[i].logicalId, s.plugins[j].logicalId)
    ensures DistinctEntries(s.plugins)
  {
    hide RenderHeaderOk, Renderable, RenderEntries, EvidenceBound, DeferredAreEligible, SortPlugins;
    SortPluginsSorted(input.catalog.plugins);
    RenderedSorted(input, SortPlugins(input.catalog.plugins));
    forall i, j | 0 <= i < j < |s.plugins|
      ensures s.plugins[i].logicalId != s.plugins[j].logicalId
    {
      StrLtTotal(s.plugins[i].logicalId, s.plugins[j].logicalId);
    }
  }

  /** Every snapshot entry is the rendering of its catalog plugin. */
  lemma SnapshotSource(input: RenderInput, s: Snapshot, i: nat) returns (p: Plugin)
    requires RenderOf(input) == Some(s) && i < |s.plugins|
    ensures p in input.catalog.plugins && p.releaseEligible && p.logicalId == s.plugins[i].logicalId
    ensures RenderOne(input, p) == Some(Some(s.plugins[i]))
  {
    hide RenderHeaderOk, Renderable, RenderEntries, EvidenceBound, DeferredAreEligible, SortPlugins, RenderOne;
    var ps := SortPlugins(input.catalog.plugins);
    var k := RenderedFrom(input, ps, i);
    p := ps[k];
  }

  /** A snapshot holds, for every eligible catalog plugin, exactly its rendering. */
  lemma SnapshotContents(input: RenderInput, s: Snapshot, p: Plugin)
    requires RenderOf(input) == Some(s) && DistinctIds(input.catalog.plugins) && p in input.catalog.plugins
    ensures p.releaseEligible ==> RenderOne(input, p).Some?
    ensures p.logicalId in EntryMap(s.plugins) <==> RenderedHere(input, p).Some?
    ensures p.logicalId in EntryMap(s.plugins) ==> EntryMap(s.plugins)[p.logicalId] == RenderedHere(input, p).value
  {
    hide RenderHeaderOk, RenderEntries, EvidenceBound, DeferredAreEligible, SortPlugins, RenderOne, EntryMap,
         SnapshotFrom;
    var ps := SortPlugins(input.catalog.plugins);
    SnapshotEntries(input, s);
    var k :| 0 <= k < |ps| && ps[k] == p;
    SnapshotSorted(input, s);
    if RenderedHere(input, p).Some? {
      var i := RenderedAt(input, ps, k);
      HereId(input, p);
      EntryMapAt(s.plugins, i);
    }
    if p.logicalId in EntryMap(s.plugins) {
      var i :| 0 <= i < |s.plugins| && s.plugins[i] == EntryMap(s.plugins)[p.logicalId];
      var q := SnapshotSource(input, s, i);
      SameId(input.catalog.plugins, p, q);
    }
  }

  lemma SnapshotEntries(input: RenderInput, s: Snapshot)
    requires RenderOf(input) == Some(s)
    ensures s.plugins == RenderEntries(input, SortPlugins(input.catalog.plugins))
  {
    hide RenderHeaderOk, Renderable, RenderEntries, EvidenceBound, DeferredAreEligible, SortPlugins;
  }

  lemma SameId(ps: seq<Plugin>, p: Plugin, q: Plugin)
    requires DistinctIds(ps) && p in ps && q in ps && p.logicalId == q.logicalId
    ensures p == q
  {
    var i :| 0 <= i < |ps| && ps[i] == p;
    var j :| 0 <= j < |ps| && ps[j] == q;
    assert i == j;
  }
}
