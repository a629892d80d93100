/** migrationPreflight: the calibrated sweep, and why its report always binds. */
module Preflight {
  import opened Wrappers
  import opened Text
  import opened Semver
  import opened ReleaseModel
  import opened Planning
  import opened Rendering
  import opened Migrating

  datatype SweepInput = SweepInput(
    catalog: Catalog,
    plan: Plan,
    previous: Option<Snapshot>,
    evidence: Option<Evidence>,
    registry: Registry)

  datatype Control = Control(ref: string, digest: string)

  // ---- Calibration --------------------------------------------------------------

  /** Published, not excluded entries of one provenance. */
  function ControlsOf(es: seq<SnapshotEntry>, provenance: string): seq<Control> {
    if es == [] then []
    else
      var e := es[|es| - 1];
      ControlsOf(es[..|es| - 1], provenance) +
      if e.migration.None? && e.ociRef != "" && IsDigest(e.digest) && EntryProvenance(e) == provenance
      then [Control(e.ociRef, e.digest)] else []
  }

  /** migrationControlTags: pipeline-published tags first, then adopted ones. */
  function ControlTags(es: seq<SnapshotEntry>): seq<Control> {
    ControlsOf(es, "candidate") + ControlsOf(es, "public")
  }

  /** The first control tag that is not absent decides; it must serve its recorded digest. */
  function Calibrate(controls: seq<Control>, registry: Registry): Option<Control> {
    if controls == [] then None
    else
      match registry(controls[0].ref)
      case NotFound => Calibrate(controls[1..], registry)
      case Resolved(m) => if m.digest == controls[0].digest then Some(controls[0]) else None
      case Unauthorized => None
      case OtherFailure => None
  }

  lemma {:induction false} ControlsValid(es: seq<SnapshotEntry>, provenance: string)
    ensures forall i :: 0 <= i < |ControlsOf(es, provenance)| ==>
              ControlsOf(es, provenance)[i].ref != "" && IsDigest(ControlsOf(es, provenance)[i].digest)
  {
    hide IsDigest, EntryProvenance;
    if es != [] {
      ControlsValid(es[..|es| - 1], provenance);
    }
  }

  lemma {:induction false} CalibratedFrom(controls: seq<Control>, registry: Registry) returns (i: nat)
    requires Calibrate(controls, registry).Some?
    ensures i < |controls| && Calibrate(controls, registry) == Some(controls[i])
    ensures registry(controls[i].ref).Resolved? && registry(controls[i].ref).manifest.digest == controls[i].digest
    ensures forall j :: 0 <= j < i ==> registry(controls[j].ref).NotFound?
  {
    if registry(controls[0].ref).Resolved? {
      i := 0;
    } else {
      var k := CalibratedFrom(controls[1..], registry);
      i := k + 1;
      assert controls[1..][k] == controls[i];
      forall j | 0 <= j < i
        ensures registry(controls[j].ref).NotFound?
      {
        if j > 0 { assert controls[1..][j - 1] == controls[j]; }
      }
    }
  }

  // ---- One planned tag ----------------------------------------------------------

  /** The candidate digest to compare with; empty in a rehearsal without evidence. */
  function PlannedDigest(input: SweepInput, e: PlanEntry): Option<string> {
    match input.evidence
    case None => Some("")
    case Some(evidence) =>
      if e.logicalId in evidence && IsDigest(evidence[e.logicalId].digest) &&
          evidence[e.logicalId].inputHash == e.inputHash
      then Some(evidence[e.logicalId].digest) else None
  }

  function Finding(input: SweepInput, e: PlanEntry, planned: string, m: Manifest): ReportEntry {
    var commit := input.plan.body.sourceCommit;
    ReportEntry(e.logicalId, e.version, PublicRef(input.catalog, e.image, e.version), m.digest, planned, e.inputHash,
                m.annotations, SourceComparison(m.annotations, commit), if planned == "" then SUSPECTED else BLOCKED,
                if planned == "" then "" else Recommendation(m.annotations, e.inputHash, e.version, commit))
  }

  /** One pass of the sweep: `None` is an error, `Some(None)` a free or already correct tag. */
  function SweepOne(input: SweepInput, e: PlanEntry): Option<Option<ReportEntry>> {
    var planned :- PlannedDigest(input, e);
    match input.registry(PublicRef(input.catalog, e.image, e.version))
    case NotFound => Some(None)
    case Resolved(m) =>
      if !IsDigest(m.digest) then None
      else if planned != "" && m.digest == planned then Some(None)
      else Some(Some(Finding(input, e, planned, m)))
    case Unauthorized => None
    case OtherFailure => None
  }

  predicate Sweepable(input: SweepInput, es: seq<PlanEntry>) {
    forall i :: 0 <= i < |es| ==> SweepOne(input, es[i]).Some?
  }

  function Findings(input: SweepInput, es: seq<PlanEntry>): seq<ReportEntry> {
    if es == [] then []
    else
      var f := SweepOne(input, es[|es| - 1]);
      Findings(input, es[..|es| - 1]) + if f.Some? && f.value.Some? then [f.value.value] else []
  }

  /** validatePlanProvenance */
  predicate PlanProvenance(plan: Plan, c: Catalog) {
    && plan.body.schemaVersion == 1 && IsCommit(plan.body.sourceCommit)
    && plan.body.catalog == Sha256(c)
    && plan.planId == Sha256(plan.body)
    && Stable(plan.body.gatewayVersion)
  }

  function ReportFrom(input: SweepInput, control: Control, entries: seq<ReportEntry>): Report {
    var plan := input.plan.body;
    Report(1, plan.gatewayVersion, plan.sourceCommit, input.plan.planId, input.catalog.registry,
           if input.evidence.Some? then CANDIDATE_DIGEST else EXISTENCE_ONLY, control.ref, control.digest, entries)
  }

  function SweepOf(input: SweepInput): Option<Report> {
    if !PlanProvenance(input.plan, input.catalog) || input.previous.None? then None
    else
      var control :- Calibrate(ControlTags(input.previous.value.plugins), input.registry);
      if !Sweepable(input, input.plan.body.plugins) then None
      else Some(ReportFrom(input, control, Findings(input, input.plan.body.plugins)))
  }

  method MigrationPreflight(input: SweepInput) returns (r: Result<Report>)
    ensures r.ToOption() == SweepOf(input)
  {
    hide PlanProvenance, ReportFrom, SweepOne, ControlsOf;
    if !PlanProvenance(input.plan, input.catalog) || input.previous.None? {
      return Failure("plan provenance, or no previous snapshot to calibrate against");
    }
    var controls := ControlTags(input.previous.value.plugins);
    var control := CalibrateLoop(controls, input.registry);
    if control.Failure? {
      return Failure(control.error);
    }
    var es := input.plan.body.plugins;
    var entries := [];
    for i := 0 to |es|
      invariant forall j :: 0 <= j < i ==> SweepOne(input, es[j]).Some?
      invariant entries == Findings(input, es[..i])
    {
      assert es[..i + 1][..i] == es[..i];
      var f := SweepOne(input, es[i]);
      if f.None? {
        return Failure("missing evidence, failed authorization or unclassified registry failure");
      }
      if f.value.Some? {
        entries := entries + [f.value.value];
      }
    }
    assert es[..|es|] == es;
    return Success(ReportFrom(input, control.value, entries));
  }

  method CalibrateLoop(controls: seq<Control>, registry: Registry) returns (r: Result<Control>)
    ensures r.ToOption() == Calibrate(controls, registry)
  {
    var i := 0;
    while i < |controls|
      invariant 0 <= i <= |controls|
      invariant Calibrate(controls, registry) == Calibrate(controls[i..], registry)
    {
      var resolution := registry(controls[i].ref);
      match resolution {
        case Resolved(m) =>
          if m.digest != controls[i].digest {
            return Failure("control tag does not serve its recorded digest");
          }
          return Success(controls[i]);
        case NotFound =>
          assert controls[i..][1..] == controls[i + 1..];
          i := i + 1;
        case Unauthorized => return Failure("authorization failure is never absence");
        case OtherFailure => return Failure("cannot calibrate");
      }
    }
    return Failure("no calibratable control tag");
  }

  // ---- Producer and consumer agree ----------------------------------------------

  lemma {:induction false} FindingFrom(input: SweepInput, es: seq<PlanEntry>, i: nat) returns (k: nat)
    requires i < |Findings(input, es)|
    ensures k < |es| && SweepOne(input, es[k]) == Some(Some(Findings(input, es)[i]))
    ensures Findings(input, es)[i].logicalId == es[k].logicalId
  {
    hide SweepOne;
    var n := |es| - 1;
    if i < |Findings(input, es[..n])| {
      k := FindingFrom(input, es[..n], i);
    } else {
      k := n;
      SweepId(input, es[n]);
    }
  }

  lemma SweepId(input: SweepInput, e: PlanEntry)
    ensures SweepOne(input, e).Some? && SweepOne(input, e).value.Some? ==>
              SweepOne(input, e).value.value.logicalId == e.logicalId
  {
    hide IsDigest, Recommendation, SourceComparison;
  }

  lemma {:induction false} FindingAt(input: SweepInput, es: seq<PlanEntry>, k: nat) returns (i: nat)
    requires k < |es| && SweepOne(input, es[k]).Some? && SweepOne(input, es[k]).value.Some?
    ensures i < |Findings(input, es)| && Findings(input, es)[i] == SweepOne(input, es[k]).value.value
  {
    hide SweepOne;
    var n := |es| - 1;
    if k < n {
      i := FindingAt(input, es[..n], k);
    } else {
      i := |Findings(input, es[..n])|;
    }
  }

  lemma {:induction false} FindingsSorted(input: SweepInput, es: seq<PlanEntry>)
    requires forall i, j :: 0 <= i < j < |es| ==> StrLt(es[i].logicalId, es[j].logicalId)
    ensures forall i, j :: 0 <= i < j < |Findings(input, es)| ==>
              StrLt(Findings(input, es)[i].logicalId, Findings(input, es)[j].logicalId)
  {
    hide SweepOne;
    if es != [] {
      var n := |es| - 1;
      FindingsSorted(input, es[..n]);
      var fs := Findings(input, es[..n]);
      forall i | 0 <= i < |fs|
        ensures StrLt(fs[i].logicalId, es[n].logicalId)
      {
        var k := FindingFrom(input, es[..n], i);
        assert es[k].logicalId == fs[i].logicalId;
      }
      SweepId(input, es[n]);
    }
  }

  /** The plan, its rendering and its sweep belong together. */
  ghost predicate SameRelease(planned: PlanInput, rendered: RenderInput, swept: SweepInput, s: Snapshot) {
    && PlanOf(planned) == Some(rendered.plan)
    && RenderOf(rendered) == Some(s)
    && rendered.catalog == planned.catalog == swept.catalog
    && rendered.previous == planned.previous == swept.previous
    && swept.plan == rendered.plan
    && swept.evidence == Some(rendered.evidence)
  }

  /** The public tag of a planned entry serves a digest other than the candidate's. */
  ghost predicate Occupied(swept: SweepInput, e: PlanEntry, evidence: Evidence) {
    && e.logicalId in evidence
    && var resolution := swept.registry(PublicRef(swept.catalog, e.image, e.version));
       resolution.Resolved? && resolution.manifest.digest != evidence[e.logicalId].digest
  }

  /** A planned plugin is rendered from its plan entry and candidate evidence. */
  lemma PlannedRendered(planned: PlanInput, rendered: RenderInput, s: Snapshot, k: nat) returns (p: Plugin)
    requires PlanOf(planned) == Some(rendered.plan) && RenderOf(rendered) == Some(s) &&
              rendered.catalog == planned.catalog
    requires k < |rendered.plan.body.plugins|
    ensures var e := rendered.plan.body.plugins[k];
            && p in planned.catalog.plugins && p.releaseEligible && p.logicalId == e.logicalId && e.image == p.image
            && e.logicalId in EntryMap(s.plugins) && e.logicalId in rendered.evidence
            && EvidenceMatches(rendered.evidence[e.logicalId], rendered.plan.body.sourceCommit, e.inputHash)
            && EntryMap(s.plugins)[e.logicalId] ==
               PlannedEntry(rendered.catalog, p, rendered.plan.body.sourceCommit, e, rendered.evidence[e.logicalId])
  {
    hide PlanOf, RenderOf, EvidenceMatches, PlannedEntry, CarriedEntry, EntryMap, Decide;
    var e := rendered.plan.body.plugins[k];
    PlanIds(planned, rendered.plan);
    assert e in rendered.plan.body.plugins;
    p :| p in planned.catalog.plugins && p.releaseEligible && p.logicalId == e.logicalId;
    PlanCatalog(planned, rendered.plan);
    PlanMapAt(rendered.plan.body.plugins, k);
    PlanContents(planned, rendered.plan, p);
    DecidedImage(InputContext(planned), p);
    SnapshotContents(rendered, s, p);
  }

  lemma DecidedImage(ctx: Context, p: Plugin)
    ensures Decide(ctx, p).Some? && Decide(ctx, p).value.Select? ==>
              var e := Decide(ctx, p).value.entry;
              e.image == p.image && e.sourceDir == p.sourceDir && e.implementation == p.implementation
  {
    hide ChooseVersion, Affected, ParseSemver, RelevantPaths;
  }

  lemma PlanCatalog(input: PlanInput, plan: Plan)
    requires PlanOf(input) == Some(plan)
    ensures Plannable(input) && ValidCatalog(input.catalog) && DistinctIds(input.catalog.plugins)
  {
    hide ParseSemver, ResolveBase, ValidPlugin, Contains, Entries, Deferrals, Decidable, SortPlugins;
  }

  lemma {:induction false} PlanMapAt(entries: seq<PlanEntry>, i: nat)
    requires forall j, k :: 0 <= j < k < |entries| ==> StrLt(entries[j].logicalId, entries[k].logicalId)
    requires i < |entries|
    ensures PlanMap(entries)[entries[i].logicalId] == entries[i]
  {
    var n := |entries| - 1;
    if i < n {
      StrLtTotal(entries[i].logicalId, entries[n].logicalId);
      PlanMapAt(entries[..n], i);
    }
  }

  lemma FindingValid(planned: PlanInput, rendered: RenderInput, swept: SweepInput, s: Snapshot, report: Report, k: nat)
    requires SameRelease(planned, rendered, swept, s) && SweepOf(swept) == Some(report)
    requires k < |swept.plan.body.plugins|
    ensures var f := SweepOne(swept, swept.plan.body.plugins[k]);
            && f.Some?
            && (f.value.Some? <==> Occupied(swept, swept.plan.body.plugins[k], rendered.evidence))
            && (f.value.Some? ==> ReportEntryValid(f.value.value, report, EntryMap(s.plugins)))
  {
    hide PlanOf, RenderOf, Calibrate, ControlTags, PlanProvenance, EntryMap, IsDigest, Findings;
    var e := swept.plan.body.plugins[k];
    var p := PlannedRendered(planned, rendered, s, k);
    var f := SweepOne(swept, e);
    assert f.Some?;
    DigestNotEmpty(rendered.evidence[e.logicalId].digest);
    if f.value.Some? {
      var m := swept.registry(PublicRef(swept.catalog, e.image, e.version)).manifest;
      assert f.value.value == Finding(swept, e, rendered.evidence[e.logicalId].digest, m);
    }
  }

  lemma DigestNotEmpty(d: string)
    ensures IsDigest(d) ==> d != ""
  {
  }

  /** Every candidate-digest report the sweep produces is accepted for the snapshot rendered from
      the same plan, evidence and previous snapshot; it names exactly the planned plugins whose
      public tag serves another digest; and binding it succeeds whenever the previous snapshot
      passes its own migration check, leaving a valid snapshot. */
  lemma SweepReportBinds(planned: PlanInput, rendered: RenderInput, swept: SweepInput, s: Snapshot, report: Report)
    requires SameRelease(planned, rendered, swept, s) && SweepOf(swept) == Some(report)
    ensures ReportValid(report, s)
    ensures forall id :: id in ReportMap(report.entries) <==>
              exists k :: 0 <= k < |swept.plan.body.plugins| && swept.plan.body.plugins[k].logicalId == id &&
                          Occupied(swept, swept.plan.body.plugins[k], rendered.evidence)
    ensures swept.previous.Some? && MigrationValid(swept.previous.value) ==>
              ApplyReport(s, report).Some? && MigrationValid(ApplyReport(s, report).value)
  {
    hide PlanOf, RenderOf, SweepOne, EntryMap, ReportEntryValid, PlanProvenance, Calibrate, ReportMap, Contains,
         ControlsOf, IsDigest,
         Occupied, MarkerValid, ApplyReport, MigrationValid;
    var es := swept.plan.body.plugins;
    PlanIds(planned, rendered.plan);
    PlanCatalog(planned, rendered.plan);
    ControlIsValid(swept, report);
    FindingsSorted(swept, es);
    forall i | 0 <= i < |report.entries|
      ensures ReportEntryValid(report.entries[i], report, EntryMap(s.plugins))
    {
      var k := FindingFrom(swept, es, i);
      FindingValid(planned, rendered, swept, s, report, k);
    }
    HeaderOf(rendered, s);
    ReportNames(planned, rendered, swept, s, report);
    if swept.previous.Some? && MigrationValid(swept.previous.value) {
      CarriedMarkersValid(rendered, s);
      SweepHasNoConflict(planned, rendered, swept, s, report);
      SnapshotSorted(rendered, s);
      ClosingValidationNeverFails(s, report);
    }
  }

  lemma MarkersOf(s: Snapshot)
    requires MigrationValid(s)
    ensures AllMarkersValid(s.plugins)
  {
    hide AllMarkersValid, MarkedIds, SortStrings;
  }

  /** Rendering starts no marker and hands on valid ones. */
  lemma CarriedMarkersValid(rendered: RenderInput, s: Snapshot)
    requires RenderOf(rendered) == Some(s) && rendered.previous.Some? && MigrationValid(rendered.previous.value)
    ensures AllMarkersValid(s.plugins)
  {
    hide RenderOf, MigrationValid, EntryMap, PlanMap, EvidenceMatches, CatalogConsumers, ValidFields, Recommendation,
         SourceComparison;
    var previous := rendered.previous.value;
    MarkersOf(previous);
    forall i | 0 <= i < |s.plugins|
      ensures MarkerValid(s.plugins[i])
    {
      var p := SnapshotSource(rendered, s, i);
      if p.logicalId !in PlanMap(rendered.plan.body.plugins) {
        var k :| 0 <= k < |previous.plugins| && previous.plugins[k] == EntryMap(previous.plugins)[p.logicalId];
        assert MarkerValid(previous.plugins[k]);
      }
    }
  }

  lemma ControlIsValid(swept: SweepInput, report: Report)
    requires SweepOf(swept) == Some(report)
    ensures report.controlRef != "" && IsDigest(report.controlDigest)
  {
    hide Findings, SweepOne, IsDigest, ControlsOf, PlanProvenance;
    var es := swept.previous.value.plugins;
    ControlsValid(es, "candidate");
    ControlsValid(es, "public");
    var i := CalibratedFrom(ControlTags(es), swept.registry);
    assert ControlTags(es)[i].ref != "" && IsDigest(ControlTags(es)[i].digest);
  }

  lemma HeaderOf(rendered: RenderInput, s: Snapshot)
    requires RenderOf(rendered) == Some(s)
    ensures s.gatewayVersion == rendered.plan.body.gatewayVersion && s.sourceCommit == rendered.plan.body.sourceCommit
    ensures s.planId == rendered.plan.planId && s.migrationPreflight.None? && IsCommit(s.sourceCommit)
  {
    hide Renderable, RenderEntries, EvidenceBound, DeferredAreEligible, SortPlugins, PlanIsSound, IsCommit;
  }

  lemma ReportNames(planned: PlanInput, rendered: RenderInput, swept: SweepInput, s: Snapshot, report: Report)
    requires SameRelease(planned, rendered, swept, s) && SweepOf(swept) == Some(report)
    ensures forall id :: id in ReportMap(report.entries) <==>
              exists k :: 0 <= k < |swept.plan.body.plugins| && swept.plan.body.plugins[k].logicalId == id &&
                          Occupied(swept, swept.plan.body.plugins[k], rendered.evidence)
  {
    hide PlanOf, RenderOf, SweepOne, EntryMap, ReportEntryValid, PlanProvenance, Calibrate, ReportMap, ControlsOf,
         Occupied;
    var es := swept.plan.body.plugins;
    forall id | id in ReportMap(report.entries)
      ensures exists k :: 0 <= k < |es| && es[k].logicalId == id && Occupied(swept, es[k], rendered.evidence)
    {
      var i := ReportMapIn(report.entries, id);
      var k := FindingFrom(swept, es, i);
      FindingValid(planned, rendered, swept, s, report, k);
      assert es[k].logicalId == id && Occupied(swept, es[k], rendered.evidence);
    }
    forall k | 0 <= k < |es| && Occupied(swept, es[k], rendered.evidence)
      ensures es[k].logicalId in ReportMap(report.entries)
    {
      FindingValid(planned, rendered, swept, s, report, k);
      var i := FindingAt(swept, es, k);
      SweepId(swept, es[k]);
      assert report.entries[i].logicalId == es[k].logicalId;
    }
  }

  lemma SweepHasNoConflict(planned: PlanInput, rendered: RenderInput, swept: SweepInput, s: Snapshot, report: Report)
    requires SameRelease(planned, rendered, swept, s) && SweepOf(swept) == Some(report)
    ensures NoConflict(s.plugins, ReportMap(report.entries))
  {
    hide PlanOf, RenderOf, SweepOne, ReportEntryValid, PlanProvenance, Calibrate, ReportMap, ControlTags, EntryMap,
         EvidenceMatches, CatalogConsumers, Findings, ValidCatalog, Sweepable;
    forall i | 0 <= i < |s.plugins| && s.plugins[i].logicalId in ReportMap(report.entries)
      ensures s.plugins[i].migration.None?
    {
      var j := ReportMapIn(report.entries, s.plugins[i].logicalId);
      var k := FindingFrom(swept, swept.plan.body.plugins, j);
      var p := PlannedRendered(planned, rendered, s, k);
      PlanCatalog(planned, rendered.plan);
      SnapshotSorted(rendered, s);
      EntryMapAt(s.plugins, i);
    }
  }

  /** A rehearsal without candidate digests can never be bound into a snapshot. */
  lemma RehearsalNeverBinds(swept: SweepInput, report: Report, s: Snapshot)
    requires SweepOf(swept) == Some(report) && swept.evidence.None?
    ensures ApplyReport(s, report).None?
  {
    hide PlanProvenance, Calibrate, ControlTags, Sweepable, Findings, Contains, IsDigest;
  }
}
