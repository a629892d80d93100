/** The one-time bootstrap: classify public artifacts, import a baseline, plan and render the first
    managed release; and why the evidence captured at the start always binds at the end. */
module Bootstrapping {
  import opened Wrappers
  import opened Text
  import opened Semver
  import opened ReleaseModel
  import opened Inputs
  import opened Planning
  import opened Rendering
  import opened Preflight
  import opened Verifying
  import opened Exactness
  import opened Releasing

  // ---- Capturing evidence -------------------------------------------------------

  /** The classification of one eligible plugin's public tag; `None` aborts the capture. */
  function CaptureOne(c: Catalog, t: Tree, registry: Registry, p: Plugin): Option<BootstrapRecord> {
    var version :- CurrentVersion(t, p);
    if IsAlpha(version) then Some(BootstrapRecord(Deferred, version, "", ""))
    else
      var ref := PublicRef(c, p.image, version);
      match registry(ref)
      case Resolved(m) => if IsDigest(m.digest) then Some(BootstrapRecord(Public, version, ref, m.digest)) else None
      case NotFound => if Stable(version) then Some(BootstrapRecord(Missing, version, ref, "")) else None
      case Unauthorized => None
      case OtherFailure => None
  }

  predicate Capturable(c: Catalog, t: Tree, registry: Registry, ps: seq<Plugin>) {
    forall i :: 0 <= i < |ps| && ps[i].releaseEligible ==> CaptureOne(c, t, registry, ps[i]).Some?
  }

  function Captured(c: Catalog, t: Tree, registry: Registry, ps: seq<Plugin>): BootstrapEvidence {
    if ps == [] then map[]
    else
      var p := ps[|ps| - 1];
      var m := Captured(c, t, registry, ps[..|ps| - 1]);
      if p.releaseEligible && CaptureOne(c, t, registry, p).Some?
          then m[p.logicalId := CaptureOne(c, t, registry, p).value] else m
  }

  function CaptureOf(repo: Repo, c: Catalog, source: string, registry: Registry): Option<BootstrapEvidence> {
    if !IsCommit(source) || !ValidCatalog(c) || source !in repo.commits then None
    else
      var ps := SortPlugins(c.plugins);
      if Capturable(c, repo.commits[source], registry, ps) then Some(Captured(c, repo.commits[source], registry, ps))
          else None
  }

  method CaptureBootstrapEvidence(repo: Repo, c: Catalog, source: string, registry: Registry)
      returns (r: Result<BootstrapEvidence>)
    ensures r.ToOption() == CaptureOf(repo, c, source, registry)
  {
    hide ValidCatalog, IsCommit, SortPlugins, CaptureOne;
    if !IsCommit(source) || !ValidCatalog(c) || source !in repo.commits {
      return Failure("source commit or catalog");
    }
    var ps, t := SortPlugins(c.plugins), repo.commits[source];
    var evidence: BootstrapEvidence := map[];
    for i := 0 to |ps|
      invariant forall j :: 0 <= j < i && ps[j].releaseEligible ==> CaptureOne(c, t, registry, ps[j]).Some?
      invariant evidence == Captured(c, t, registry, ps[..i])
    {
      assert ps[..i + 1][..i] == ps[..i];
      if ps[i].releaseEligible {
        var record := CaptureOne(c, t, registry, ps[i]);
        if record.None? {
          return Failure("VERSION, authorization, unclassified failure or absent prerelease");
        }
        evidence := evidence[ps[i].logicalId := record.value];
      }
    }
    assert ps[..|ps|] == ps;
    return Success(evidence);
  }

  lemma {:induction false} CapturedAt(c: Catalog, t: Tree, registry: Registry, ps: seq<Plugin>, k: nat)
    requires DistinctIds(ps) && Capturable(c, t, registry, ps) && k < |ps| && ps[k].releaseEligible
    ensures ps[k].logicalId in Captured(c, t, registry, ps)
    ensures Captured(c, t, registry, ps)[ps[k].logicalId] == CaptureOne(c, t, registry, ps[k]).value
  {
    hide CaptureOne;
    if k < |ps| - 1 {
      CapturedAt(c, t, registry, ps[..|ps| - 1], k);
    }
  }

  lemma {:induction false} CapturedFrom(c: Catalog, t: Tree, registry: Registry, ps: seq<Plugin>, id: string)
      returns (k: nat)
    requires id in Captured(c, t, registry, ps)
    ensures k < |ps| && ps[k].releaseEligible && ps[k].logicalId == id
  {
    hide CaptureOne;
    var n := |ps| - 1;
    if ps[n].releaseEligible && ps[n].logicalId == id { k := n; }
        else { k := CapturedFrom(c, t, registry, ps[..n], id); }
  }

  // ---- The baseline -------------------------------------------------------------

  ghost function BaselineEntry(c: Catalog, t: Tree, source: string, p: Plugin, version: string,
      digest: string): SnapshotEntry {
    SnapshotEntry(p.logicalId, p.implementation, p.sourceDir, p.image, version, PublicRef(c, p.image, version), digest,
                  HashOf(t, version, c, p), source, "", "public", false, None, CatalogConsumers(c, p))
  }

  /** One pass of bootstrap-snapshot: `None` is an error, `Some(None)` leaves the plugin out. */
  ghost function BaselineOne(c: Catalog, t: Tree, source: string, evidence: BootstrapEvidence, registry: Registry,
      p: Plugin)
    : Option<Option<SnapshotEntry>>
  {
    var version :- CurrentVersion(t, p);
    var ref := PublicRef(c, p.image, version);
    if p.logicalId !in evidence || evidence[p.logicalId].version != version then None
    else
      var e := evidence[p.logicalId];
      if IsAlpha(version) then if e.status == Deferred then Some(None) else None
      else match e.status
        case Public =>
          if IsDigest(e.digest) && e.publicRef == ref && registry(ref).Resolved? &&
              registry(ref).manifest.digest == e.digest
          then Some(Some(BaselineEntry(c, t, source, p, version, e.digest))) else None
        case Missing =>
          if Stable(version) && e.publicRef == ref && e.digest == "" && registry(ref).NotFound? then Some(None)
              else None
        case Deferred => None
        case Unsupported(_) => None
  }

  ghost predicate Importable(c: Catalog, t: Tree, source: string, evidence: BootstrapEvidence, registry: Registry,
      ps: seq<Plugin>) {
    forall i :: 0 <= i < |ps| && ps[i].releaseEligible ==> BaselineOne(c, t, source, evidence, registry, ps[i]).Some?
  }

  ghost function BaselineEntries(c: Catalog, t: Tree, source: string, evidence: BootstrapEvidence, registry: Registry,
      ps: seq<Plugin>): seq<SnapshotEntry> {
    if ps == [] then []
    else
      var p := ps[|ps| - 1];
      var e := BaselineOne(c, t, source, evidence, registry, p);
      BaselineEntries(c, t, source, evidence, registry, ps[..|ps| - 1]) +
      if p.releaseEligible && e.Some? && e.value.Some? then [e.value.value] else []
  }

  ghost function BaselineOf(repo: Repo, c: Catalog, gatewayVersion: string, source: string,
      evidence: BootstrapEvidence, registry: Registry): Option<Snapshot> {
    if ParseSemver(gatewayVersion).None? || !ValidCatalog(c) || source !in repo.commits then None
    else
      var ps, t := SortPlugins(c.plugins), repo.commits[source];
      if !Importable(c, t, source, evidence, registry, ps) then None
      else Some(Snapshot(1, gatewayVersion, source, "", Sha256(c), NotSha("bootstrap:" + source), BOOTSTRAP_PUBLIC,
          None, None,
                         BaselineEntries(c, t, source, evidence, registry, ps)))
  }

  method ImportOne(c: Catalog, t: Tree, source: string, evidence: BootstrapEvidence, registry: Registry, p: Plugin)
    returns (r: Result<Option<SnapshotEntry>>)
    ensures r.ToOption() == BaselineOne(c, t, source, evidence, registry, p)
  {
    hide ParseSemver, IsAlpha, IsDigest, HashOf, CatalogConsumers;
    var current := CurrentVersion(t, p);
    if current.None? || p.logicalId !in evidence || evidence[p.logicalId].version != current.value {
      return Failure("bootstrap evidence is incomplete or mismatched");
    }
    var version, e := current.value, evidence[p.logicalId];
    var ref := PublicRef(c, p.image, version);
    if IsAlpha(version) {
      return if e.status == Deferred then Success(None) else Failure("VERSION is a deferred alpha prerelease");
    }
    if e.status == Public {
      if !IsDigest(e.digest) || e.publicRef != ref || !registry(ref).Resolved? ||
          registry(ref).manifest.digest != e.digest {
        return Failure("public artifact does not resolve to the reviewed digest");
      }
      var hash := ComputeInputHash(t, version, c, p);
      return Success(Some(SnapshotEntry(p.logicalId, p.implementation, p.sourceDir, p.image, version, ref, e.digest,
          hash, source, "",
                                        "public", false, None, CatalogConsumers(c, p))));
    }
    if e.status == Missing {
      if !Stable(version) || e.publicRef != ref || e.digest != "" || !registry(ref).NotFound? {
        return Failure("missing classification is unstable, mismatched or stale");
      }
      return Success(None);
    }
    return Failure("unsupported status");
  }

  method BootstrapSnapshot(repo: Repo, c: Catalog, gatewayVersion: string, source: string,
      evidence: BootstrapEvidence, registry: Registry)
    returns (r: Result<Snapshot>)
    ensures r.ToOption() == BaselineOf(repo, c, gatewayVersion, source, evidence, registry)
  {
    hide ParseSemver, ValidCatalog, SortPlugins, BaselineOne;
    if ParseSemver(gatewayVersion).None? || !ValidCatalog(c) || source !in repo.commits {
      return Failure("gateway version, catalog or source");
    }
    var ps, t := SortPlugins(c.plugins), repo.commits[source];
    var entries := [];
    for i := 0 to |ps|
      invariant forall j :: 0 <= j < i && ps[j].releaseEligible ==>
                BaselineOne(c, t, source, evidence, registry, ps[j]).Some?
      invariant entries == BaselineEntries(c, t, source, evidence, registry, ps[..i])
    {
      assert ps[..i + 1][..i] == ps[..i];
      if ps[i].releaseEligible {
        var e := ImportOne(c, t, source, evidence, registry, ps[i]);
        if e.Failure? {
          return Failure(e.error);
        }
        if e.value.Some? {
          entries := entries + [e.value.value];
        }
      }
    }
    assert ps[..|ps|] == ps;
    return Success(Snapshot(1, gatewayVersion, source, "", Sha256(c), NotSha("bootstrap:" + source), BOOTSTRAP_PUBLIC,
        None, None, entries));
  }

  // ---- Capture and baseline agree -----------------------------------------------

  /** Evidence captured at a commit imports at that commit, against the same registry, exactly
      the plugins it classified public. */
  lemma CaptureImports(c: Catalog, t: Tree, source: string, evidence: BootstrapEvidence, registry: Registry, p: Plugin)
    requires CaptureOne(c, t, registry, p).Some?
    requires p.logicalId in evidence && evidence[p.logicalId] == CaptureOne(c, t, registry, p).value
    ensures BaselineOne(c, t, source, evidence, registry, p) ==
            Some(if evidence[p.logicalId].status == Public
                 then Some(BaselineEntry(c, t, source, p, evidence[p.logicalId].version, evidence[p.logicalId].digest))
                 else None)
  {
    hide ParseSemver, IsAlpha, IsDigest, BaselineEntry;
  }

  /** A bootstrap at one commit: captured evidence, the baseline imported from it. */
  ghost predicate Bootstrap(repo: Repo, c: Catalog, source: string, registry: Registry, evidence: BootstrapEvidence,
      baseline: Snapshot) {
    && CaptureOf(repo, c, source, registry) == Some(evidence)
    && exists gateway :: BaselineOf(repo, c, gateway, source, evidence, registry) == Some(baseline)
  }

  lemma EvidenceOf(repo: Repo, c: Catalog, source: string, registry: Registry, evidence: BootstrapEvidence, p: Plugin)
    requires CaptureOf(repo, c, source, registry) == Some(evidence) && p in c.plugins && p.releaseEligible
    ensures source in repo.commits && ValidCatalog(c)
    ensures CaptureOne(c, repo.commits[source], registry, p).Some?
    ensures p.logicalId in evidence && evidence[p.logicalId] == CaptureOne(c, repo.commits[source], registry, p).value
  {
    hide IsCommit, ValidPlugin, Contains, CaptureOne, SortPlugins, Captured;
    var ps := SortPlugins(c.plugins);
    SortPluginsSorted(c.plugins);
    SortedIdsDistinct(ps);
    var k :| 0 <= k < |ps| && ps[k] == p;
    CapturedAt(c, repo.commits[source], registry, ps, k);
  }

  /** Capturing and then importing at the same commit against the same registry never fails. */
  lemma BaselineAlwaysImports(repo: Repo, c: Catalog, gatewayVersion: string, source: string, registry: Registry,
      evidence: BootstrapEvidence)
    requires CaptureOf(repo, c, source, registry) == Some(evidence) && ParseSemver(gatewayVersion).Some?
    ensures BaselineOf(repo, c, gatewayVersion, source, evidence, registry).Some?
  {
    hide CaptureOne, BaselineOne, SortPlugins, ParseSemver, Captured, Capturable, IsCommit, BaselineEntries,
         ValidCatalog;
    var ps := SortPlugins(c.plugins);
    forall i | 0 <= i < |ps| && ps[i].releaseEligible
      ensures BaselineOne(c, repo.commits[source], source, evidence, registry, ps[i]).Some?
    {
      EvidenceOf(repo, c, source, registry, evidence, ps[i]);
      CaptureImports(c, repo.commits[source], source, evidence, registry, ps[i]);
    }
  }

  lemma {:induction false} BaselineFrom(c: Catalog, t: Tree, source: string, evidence: BootstrapEvidence,
      registry: Registry, ps: seq<Plugin>, i: nat)
    returns (k: nat)
    requires i < |BaselineEntries(c, t, source, evidence, registry, ps)|
    ensures k < |ps| && ps[k].releaseEligible
    ensures BaselineOne(c, t, source, evidence, registry,
              ps[k]) == Some(Some(BaselineEntries(c, t, source, evidence, registry, ps)[i]))
  {
    hide BaselineOne;
    var n := |ps| - 1;
    if i < |BaselineEntries(c, t, source, evidence, registry, ps[..n])| {
      k := BaselineFrom(c, t, source, evidence, registry, ps[..n], i);
    } else {
      k := n;
    }
  }

  lemma {:induction false} BaselineAt(c: Catalog, t: Tree, source: string, evidence: BootstrapEvidence,
      registry: Registry, ps: seq<Plugin>, k: nat)
    returns (i: nat)
    requires k < |ps| && ps[k].releaseEligible
    requires BaselineOne(c, t, source, evidence, registry, ps[k]).Some? &&
              BaselineOne(c, t, source, evidence, registry, ps[k]).value.Some?
    ensures i < |BaselineEntries(c, t, source, evidence, registry, ps)|
    ensures BaselineEntries(c, t, source, evidence, registry, ps)[i] == BaselineOne(c, t, source, evidence, registry,
              ps[k]).value.value
  {
    hide BaselineOne;
    var n := |ps| - 1;
    if k < n {
      i := BaselineAt(c, t, source, evidence, registry, ps[..n], k);
    } else {
      i := |BaselineEntries(c, t, source, evidence, registry, ps[..n])|;
    }
  }

  lemma BaselineId(c: Catalog, t: Tree, source: string, evidence: BootstrapEvidence, registry: Registry, p: Plugin)
    ensures var e := BaselineOne(c, t, source, evidence, registry, p);
            e.Some? && e.value.Some? ==> e.value.value.logicalId == p.logicalId
  {
    hide ParseSemver, IsAlpha, IsDigest, HashOf, CatalogConsumers;
  }

  /** The baseline holds exactly the plugins classified public, at VERSION and the seen digest. */
  lemma BaselineContents(repo: Repo, c: Catalog, source: string, registry: Registry, evidence: BootstrapEvidence,
      baseline: Snapshot, p: Plugin)
    requires Bootstrap(repo, c, source, registry, evidence, baseline) && p in c.plugins && p.releaseEligible
    ensures source in repo.commits && p.logicalId in evidence &&
              evidence[p.logicalId] == CaptureOne(c, repo.commits[source], registry, p).value
    ensures CaptureOne(c, repo.commits[source], registry, p).Some?
    ensures baseline.provenanceMode == BOOTSTRAP_PUBLIC && baseline.sourceCommit == source
    ensures p.logicalId in EntryMap(baseline.plugins) <==> evidence[p.logicalId].status == Public
    ensures p.logicalId in EntryMap(baseline.plugins) ==>
              EntryMap(baseline.plugins)[p.logicalId] ==
              BaselineEntry(c, repo.commits[source], source, p, evidence[p.logicalId].version,
                  evidence[p.logicalId].digest)
  {
    hide CaptureOne, BaselineOne, SortPlugins, ParseSemver, Captured, Capturable, IsCommit, BaselineEntries,
         BaselineEntry, EntryMap, CaptureOf;
    var t, ps := repo.commits[source], SortPlugins(c.plugins);
    EvidenceOf(repo, c, source, registry, evidence, p);
    CaptureImports(c, t, source, evidence, registry, p);
    if evidence[p.logicalId].status == Public {
      var k :| 0 <= k < |ps| && ps[k] == p;
      var i := BaselineAt(c, t, source, evidence, registry, ps, k);
      BaselineId(c, t, source, evidence, registry, p);
      assert baseline.plugins[i] in baseline.plugins;
    }
    if p.logicalId in EntryMap(baseline.plugins) {
      var i :| 0 <= i < |baseline.plugins| && baseline.plugins[i] == EntryMap(baseline.plugins)[p.logicalId];
      var k := BaselineFrom(c, t, source, evidence, registry, ps, i);
      BaselineId(c, t, source, evidence, registry, ps[k]);
      CatalogDistinct(c);
      SameId(c.plugins, p, ps[k]);
    }
  }

  // ---- Closing the bootstrap ----------------------------------------------------

  /** The first managed release planned at the bootstrap commit itself. */
  ghost predicate FirstPlan(repo: Repo, c: Catalog, source: string, baseline: Snapshot, input: PlanInput) {
    && input.repo == repo && input.catalog == c && input.previous == Some(baseline)
    && input.baseRef == source && input.target == source
  }

  /** The candidate build delivered evidence for every planned plugin. */
  ghost predicate EvidenceFor(plan: Plan, evidence: Evidence) {
    forall i :: 0 <= i < |plan.body.plugins| ==>
      && plan.body.plugins[i].logicalId in evidence
      && EvidenceMatches(evidence[plan.body.plugins[i].logicalId], plan.body.sourceCommit,
          plan.body.plugins[i].inputHash)
  }

  /** No override gives a missing plugin another version than its VERSION. */
  ghost predicate MissingKept(evidence: BootstrapEvidence, overrides: map<string, string>) {
    forall id :: id in overrides && id in evidence && evidence[id].status == Missing ==>
        overrides[id] == evidence[id].version
  }

  /** How the first plan treats one plugin, by its classification. */
  lemma FirstDecision(repo: Repo, c: Catalog, source: string, registry: Registry, evidence: BootstrapEvidence,
      baseline: Snapshot,
                      input: PlanInput, p: Plugin)
    requires Bootstrap(repo, c, source, registry, evidence, baseline) &&
              FirstPlan(repo, c, source, baseline, input) && Plannable(input)
    requires p in c.plugins && p.releaseEligible
    ensures p.logicalId in evidence
    ensures var d, record := Decide(InputContext(input), p), evidence[p.logicalId];
            match record.status
            case Deferred => d.Some? && d.value.Defer?
            case Missing =>
              && Stable(record.version)
              && (d.Some? ==> d.value.Select? && d.value.entry.backfill)
              && (d.Some? ==> d.value.entry.version == if p.logicalId in input.overrides
                  then input.overrides[p.logicalId] else record.version)
              && (p.logicalId !in input.overrides ==> d.Some?)
            case Public =>
              && (d.Some? && d.value.Select? ==> !d.value.entry.backfill)
              && (d.Some? ==> !d.value.Defer?)
              && (p.logicalId !in input.overrides ==> d.Some?)
            case Unsupported(_) => false
  {
    hide BaselineOne, EntryMap, ParseSemver, IsAlpha, ValidCatalog, CaptureOne, BaselineEntry, Bootstrap, Decide,
         CurrentVersion, ResolveBase;
    BaselineContents(repo, c, source, registry, evidence, baseline, p);
    CaptureClass(c, repo.commits[source], registry, p);
    var ctx := InputContext(input);
    match evidence[p.logicalId].status
    case Deferred => DecideAlpha(ctx, p);
    case Missing => DecideMissing(ctx, p, evidence[p.logicalId].version);
    case Public =>
      BaselineVersion(c, repo.commits[source], source, p, evidence[p.logicalId].version, evidence[p.logicalId].digest);
      DecidePublic(ctx, p, evidence[p.logicalId].version);
    case Unsupported(_) =>
  }

  lemma CaptureClass(c: Catalog, t: Tree, registry: Registry, p: Plugin)
    requires CaptureOne(c, t, registry, p).Some?
    ensures var record := CaptureOne(c, t, registry, p).value;
            && CurrentVersion(t, p) == Some(record.version) && !record.status.Unsupported?
            && (record.status == Deferred <==> IsAlpha(record.version))
            && (record.status == Missing ==> Stable(record.version))
  {
    hide ParseSemver, IsAlpha, IsDigest, CurrentVersion;
  }

  lemma BaselineVersion(c: Catalog, t: Tree, source: string, p: Plugin, version: string, digest: string)
    ensures BaselineEntry(c, t, source, p, version, digest).version == version
  {
    hide HashOf, CatalogConsumers;
  }

  lemma DecideAlpha(ctx: Context, p: Plugin)
    requires p.releaseEligible && CurrentVersion(ctx.tree, p).Some? && IsAlpha(CurrentVersion(ctx.tree, p).value)
    ensures Decide(ctx, p).Some? && Decide(ctx, p).value.Defer?
  {
    hide ParseSemver, IsAlpha, CurrentVersion;
  }

  lemma DecideMissing(ctx: Context, p: Plugin, version: string)
    requires p.releaseEligible && CurrentVersion(ctx.tree, p) == Some(version) && !IsAlpha(version)
    requires ctx.bootstrap && p.logicalId !in ctx.previous
    ensures var d := Decide(ctx, p);
            && (d.Some? ==> d.value.Select? && d.value.entry.backfill)
            && (d.Some? ==> d.value.entry.version == if p.logicalId in ctx.overrides then ctx.overrides[p.logicalId]
                else version)
            && (p.logicalId !in ctx.overrides ==> d.Some?)
  {
    hide ParseSemver, IsAlpha, CurrentVersion, RelevantPaths, HashOf;
  }

  lemma DecidePublic(ctx: Context, p: Plugin, version: string)
    requires p.releaseEligible && CurrentVersion(ctx.tree, p) == Some(version) && !IsAlpha(version)
    requires ctx.bootstrap && p.logicalId in ctx.previous && ctx.previous[p.logicalId].version == version
    ensures var d := Decide(ctx, p);
            && (d.Some? && d.value.Select? ==> !d.value.entry.backfill)
            && (d.Some? ==> !d.value.Defer?)
            && (p.logicalId !in ctx.overrides ==> d.Some?)
  {
    hide ParseSemver, IsAlpha, CurrentVersion, RelevantPaths, HashOf, Affected, AllowedOverride;
    CurrentParses(ctx.tree, p);
    NextVersionIsLarger(version, version);
    NextBootstrapVersionAdvances(version, version);
    CompareSelf(version);
  }

  lemma CompareSelf(version: string)
    requires ParseSemver(version).Some?
    ensures CompareSemver(ParseSemver(version).value, ParseSemver(version).value) == 0
  {
    hide ParseSemver;
  }

  /** Without overrides the first plan always exists. */
  lemma FirstPlanExists(repo: Repo, c: Catalog, source: string, registry: Registry, evidence: BootstrapEvidence,
      baseline: Snapshot, input: PlanInput)
    requires Bootstrap(repo, c, source, registry, evidence, baseline) &&
              FirstPlan(repo, c, source, baseline, input) && Plannable(input)
    requires input.overrides == map[]
    ensures PlanOf(input).Some?
  {
    hide Decide, Entries, Deferrals, SortPlugins, ParseSemver, ValidCatalog, ResolveBase, Bootstrap, InputContext;
    var ctx, ps := InputContext(input), SortPlugins(c.plugins);
    forall i | 0 <= i < |ps|
      ensures Decide(ctx, ps[i]).Some?
    {
      if ps[i].releaseEligible {
        FirstDecision(repo, c, source, registry, evidence, baseline, input, ps[i]);
      } else {
        IneligibleSkipped(ctx, ps[i]);
      }
    }
  }

  lemma IneligibleSkipped(ctx: Context, p: Plugin)
    requires !p.releaseEligible
    ensures Decide(ctx, p) == Some(Skip)
  {
  }

  ghost function FirstRender(c: Catalog, plan: Plan, baseline: Snapshot, candidates: Evidence,
      evidence: BootstrapEvidence): RenderInput {
    RenderInput(c, plan, Some(baseline), candidates, Some(evidence))
  }

  /** The entry the first render makes of a plugin, by its classification. */
  lemma FirstEntry(repo: Repo, c: Catalog, source: string, registry: Registry, evidence: BootstrapEvidence,
      baseline: Snapshot,
                   input: PlanInput, plan: Plan, candidates: Evidence, p: Plugin)
    requires Bootstrap(repo, c, source, registry, evidence, baseline) && FirstPlan(repo, c, source, baseline, input)
    requires PlanOf(input) == Some(plan) && EvidenceFor(plan, candidates)
    requires p in c.plugins && p.releaseEligible
    ensures p.logicalId in evidence
    ensures var e, record := RenderOne(FirstRender(c, plan, baseline, candidates, evidence), p), evidence[p.logicalId];
            e.Some? &&
            match record.status
            case Deferred => e.value.None?
            case Missing =>
              && e.value.Some? && e.value.value.backfill
              && e.value.value.version == if p.logicalId in input.overrides then input.overrides[p.logicalId]
                  else record.version
            case Public => e.value.Some? && EntryBound(e.value.value, evidence) && !e.value.value.backfill
            case Unsupported(_) => false
  {
    hide Bootstrap, PlanOf, PlanMap, EntryMap, Decide, ParseSemver, EvidenceMatches, CatalogConsumers, HashOf;
    PlanCatalog(input, plan);
    FirstDecision(repo, c, source, registry, evidence, baseline, input, p);
    PlanContents(input, plan, p);
    BaselineContents(repo, c, source, registry, evidence, baseline, p);
    var id := p.logicalId;
    if id in PlanMap(plan.body.plugins) {
      var k :| 0 <= k < |plan.body.plugins| && plan.body.plugins[k] == PlanMap(plan.body.plugins)[id];
    } else if evidence[id].status == Deferred {
      var k :| 0 <= k < |plan.body.deferred| && plan.body.deferred[k] == Decide(InputContext(input), p).value.deferral;
      assert IsDeferred(plan.body.deferred, id);
    }
  }

  lemma FirstPlanSound(repo: Repo, c: Catalog, source: string, registry: Registry, evidence: BootstrapEvidence,
      baseline: Snapshot,
                       input: PlanInput, plan: Plan)
    requires Bootstrap(repo, c, source, registry, evidence, baseline) &&
              FirstPlan(repo, c, source, baseline, input) && PlanOf(input) == Some(plan)
    ensures PlanIsSound(plan.body, true, EntryMap(baseline.plugins))
    ensures DeferredAreEligible(plan.body.deferred, SortPlugins(c.plugins))
  {
    hide Bootstrap, PlanOf, PlanMap, EntryMap, SortPlugins, BackfillAllowed, EligibleId;
    PlanIds(input, plan);
    var es, ds := plan.body.plugins, plan.body.deferred;
    forall i, j | 0 <= i < j < |es|
      ensures es[i].logicalId != es[j].logicalId
    {
      StrLtTotal(es[i].logicalId, es[j].logicalId);
    }
    forall i, j | 0 <= i < j < |ds|
      ensures ds[i].logicalId != ds[j].logicalId
    {
      StrLtTotal(ds[i].logicalId, ds[j].logicalId);
    }
    forall i | 0 <= i < |es|
      ensures BackfillAllowed(es[i], true, EntryMap(baseline.plugins))
    {
      FirstBackfill(repo, c, source, registry, evidence, baseline, input, plan, i);
    }
    forall i | 0 <= i < |ds|
      ensures ds[i].reason == "alpha-prerelease" && ds[i].logicalId !in PlanMap(es) &&
                EligibleId(SortPlugins(c.plugins), ds[i].logicalId)
    {
      FirstDeferral(input, plan, i);
    }
  }

  lemma FirstBackfill(repo: Repo, c: Catalog, source: string, registry: Registry, evidence: BootstrapEvidence,
      baseline: Snapshot,
                      input: PlanInput, plan: Plan, i: nat)
    requires Bootstrap(repo, c, source, registry, evidence, baseline) &&
              FirstPlan(repo, c, source, baseline, input) && PlanOf(input) == Some(plan)
    requires i < |plan.body.plugins|
    ensures BackfillAllowed(plan.body.plugins[i], true, EntryMap(baseline.plugins))
  {
    hide Bootstrap, PlanOf, PlanMap, EntryMap, Decide, ParseSemver, Stable, SortPlugins, CurrentVersion, CaptureOne,
         BaselineEntry, ResolveBase, ValidCatalog;
    var es := plan.body.plugins;
    PlanIds(input, plan);
    PlanCatalog(input, plan);
    assert es[i] in es;
    var p :| p in c.plugins && p.releaseEligible && p.logicalId == es[i].logicalId;
    PlanMapAt(es, i);
    PlanContents(input, plan, p);
    FirstDecision(repo, c, source, registry, evidence, baseline, input, p);
    BaselineContents(repo, c, source, registry, evidence, baseline, p);
    CaptureClass(c, repo.commits[source], registry, p);
    if evidence[p.logicalId].status == Missing {
      BackfillStable(InputContext(input), p);
    }
  }

  lemma FirstDeferral(input: PlanInput, plan: Plan, i: nat)
    requires PlanOf(input) == Some(plan) && i < |plan.body.deferred|
    ensures var d := plan.body.deferred[i];
            && d.reason == "alpha-prerelease" && d.logicalId !in PlanMap(plan.body.plugins)
            && EligibleId(SortPlugins(input.catalog.plugins), d.logicalId)
  {
    hide PlanOf, PlanMap, Decide, SortPlugins;
    var d := plan.body.deferred[i];
    PlanIds(input, plan);
    PlanCatalog(input, plan);
    assert d in plan.body.deferred;
    var p :| p in input.catalog.plugins && p.releaseEligible && p.logicalId == d.logicalId;
    PlanContents(input, plan, p);
    DeferReason(InputContext(input), p);
    assert p in SortPlugins(input.catalog.plugins);
  }

  lemma DeferReason(ctx: Context, p: Plugin)
    ensures Decide(ctx, p).Some? && Decide(ctx, p).value.Defer? ==>
              Decide(ctx, p).value.deferral.reason == "alpha-prerelease"
  {
    hide ParseSemver, IsAlpha, CurrentVersion, RelevantPaths, HashOf, Affected, ChooseVersion;
  }

  /** A backfilled version is stable when VERSION is. */
  lemma BackfillStable(ctx: Context, p: Plugin)
    requires p.releaseEligible && CurrentVersion(ctx.tree, p).Some?
    requires Decide(ctx, p).Some? && Decide(ctx, p).value.Select? && p.logicalId !in ctx.previous
    ensures p.logicalId in ctx.overrides || Stable(CurrentVersion(ctx.tree, p).value) ==>
              Stable(Decide(ctx, p).value.entry.version)
  {
    hide ParseSemver, IsAlpha, CurrentVersion, RelevantPaths, HashOf, Affected, ChooseVersion, Stable;
    CurrentParses(ctx.tree, p);
    ChosenParses(ctx, p.logicalId, CurrentVersion(ctx.tree, p).value);
  }

  /** The bootstrap closes: the first managed release renders, and its bootstrap evidence binds,
      exactly when no override moves a missing plugin off its VERSION; and then the backfilled
      plugins are exactly those classified missing. */
  lemma BootstrapCloses(repo: Repo, c: Catalog, source: string, registry: Registry, evidence: BootstrapEvidence,
      baseline: Snapshot,
                        input: PlanInput, plan: Plan, candidates: Evidence)
    requires Bootstrap(repo, c, source, registry, evidence, baseline) && FirstPlan(repo, c, source, baseline, input)
    requires PlanOf(input) == Some(plan) && EvidenceFor(plan, candidates)
    ensures var rendered := RenderOf(FirstRender(c, plan, baseline, candidates, evidence));
            && (rendered.Some? <==> MissingKept(evidence, input.overrides))
            && (rendered.Some? ==> forall id :: Backfilled(rendered.value.plugins, id) <==>
                id in evidence && evidence[id].status == Missing)
  {
    hide Bootstrap, PlanOf, PlanMap, EntryMap, SortPlugins, RenderEntries, EvidenceBound, PlanIsSound,
         DeferredAreEligible, EvidenceFor, RenderOne,
         SnapshotFrom, ParseSemver, MissingKept;
    var ri := FirstRender(c, plan, baseline, candidates, evidence);
    var ps := SortPlugins(c.plugins);
    FirstHeader(repo, c, source, registry, evidence, baseline, input, plan);
    FirstPlanSound(repo, c, source, registry, evidence, baseline, input, plan);
    forall i | 0 <= i < |ps| && ps[i].releaseEligible
      ensures RenderOne(ri, ps[i]).Some?
    {
      FirstEntry(repo, c, source, registry, evidence, baseline, input, plan, candidates, ps[i]);
    }
    EvidenceBinds(repo, c, source, registry, evidence, baseline, input, plan, candidates);
    SnapshotEntriesOf(ri);
  }

  lemma SnapshotEntriesOf(ri: RenderInput)
    ensures RenderOf(ri).Some? ==> RenderOf(ri).value.plugins == RenderEntries(ri, SortPlugins(ri.catalog.plugins))
  {
    if RenderOf(ri).Some? { SnapshotEntries(ri, RenderOf(ri).value); }
  }

  lemma FirstHeader(repo: Repo, c: Catalog, source: string, registry: Registry, evidence: BootstrapEvidence,
      baseline: Snapshot,
                    input: PlanInput, plan: Plan)
    requires Bootstrap(repo, c, source, registry, evidence, baseline) &&
              FirstPlan(repo, c, source, baseline, input) && PlanOf(input) == Some(plan)
    ensures plan.body.catalog == Sha256(c) && plan.body.schemaVersion == 1 && plan.planId.Sha256?
    ensures IsCommit(plan.body.sourceCommit) && baseline.provenanceMode == BOOTSTRAP_PUBLIC
  {
    hide ParseSemver, ValidCatalog, ResolveBase, Entries, Deferrals, Decidable, SortPlugins, IsCommit, Capturable,
         Captured, Importable, BaselineEntries;
  }

  lemma EvidenceBinds(repo: Repo, c: Catalog, source: string, registry: Registry, evidence: BootstrapEvidence,
      baseline: Snapshot,
                      input: PlanInput, plan: Plan, candidates: Evidence)
    requires Bootstrap(repo, c, source, registry, evidence, baseline) && FirstPlan(repo, c, source, baseline, input)
    requires PlanOf(input) == Some(plan) && EvidenceFor(plan, candidates)
    ensures var entries := RenderEntries(FirstRender(c, plan, baseline, candidates, evidence), SortPlugins(c.plugins));
            && (EvidenceBound(entries, evidence) <==> MissingKept(evidence, input.overrides))
            && (forall id :: Backfilled(entries, id) <==> id in evidence && evidence[id].status == Missing)
  {
    hide Bootstrap, PlanOf, SortPlugins, RenderEntries, EvidenceFor, RenderOne, ParseSemver;
    var ri := FirstRender(c, plan, baseline, candidates, evidence);
    var ps := SortPlugins(c.plugins);
    var entries := RenderEntries(ri, ps);
    forall i | 0 <= i < |entries|
      ensures entries[i].logicalId in evidence
      ensures entries[i].backfill <==> evidence[entries[i].logicalId].status == Missing
      ensures evidence[entries[i].logicalId].status != Deferred
      ensures EntryBound(entries[i], evidence) <==>
              (entries[i].backfill && entries[i].logicalId in input.overrides ==>
                 input.overrides[entries[i].logicalId] == evidence[entries[i].logicalId].version)
    {
      var k := RenderedFrom(ri, ps, i);
      FirstEntry(repo, c, source, registry, evidence, baseline, input, plan, candidates, ps[k]);
    }
    forall id | id in evidence
      ensures evidence[id].status != Deferred ==> HasSnapshotEntry(entries, id)
      ensures evidence[id].status == Missing ==> Backfilled(entries, id)
    {
      EvidenceHasPlugin(repo, c, source, registry, evidence, baseline, id);
      var k :| 0 <= k < |ps| && ps[k].releaseEligible && ps[k].logicalId == id;
      FirstEntry(repo, c, source, registry, evidence, baseline, input, plan, candidates, ps[k]);
      if evidence[id].status != Deferred {
        var i := RenderedAt(ri, ps, k);
        HereId(ri, ps[k]);
      }
    }
    if EvidenceBound(entries, evidence) {
      forall id | id in input.overrides && id in evidence && evidence[id].status == Missing
        ensures input.overrides[id] == evidence[id].version
      {
        var i :| 0 <= i < |entries| && entries[i].backfill && entries[i].logicalId == id;
        assert EntryBound(entries[i], evidence);
      }
    }
  }

  lemma EvidenceHasPlugin(repo: Repo, c: Catalog, source: string, registry: Registry, evidence: BootstrapEvidence,
      baseline: Snapshot, id: string)
    requires Bootstrap(repo, c, source, registry, evidence, baseline) && id in evidence
    ensures EligibleId(SortPlugins(c.plugins), id)
  {
    hide CaptureOne, IsCommit, ValidCatalog, SortPlugins, BaselineOf, Capturable;
    var k := CapturedFrom(c, repo.commits[source], registry, SortPlugins(c.plugins), id);
  }
}
