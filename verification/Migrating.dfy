/** The sweep of the public registry before a release, and the exclusion markers it leaves in a
    snapshot (migration.go). */
module Migrating {
  import opened Wrappers
  import opened Text
  import opened ReleaseModel
  import opened Planning
  import opened Rendering

  const BLOCKED := "blocked"
  const SUSPECTED := "suspected"
  const CANDIDATE_DIGEST := "candidate-digest"
  const EXISTENCE_ONLY := "existence-only"

  datatype ReportEntry = ReportEntry(
    logicalId: string,
    version: string,
    ociRef: string,
    existingDigest: string,
    plannedDigest: string,
    inputHash: InputHash,
    existing: Annotations,
    sourceComparison: string,
    state: string,
    recommendation: string)

  datatype Report = Report(
    schemaVersion: int,
    gatewayVersion: string,
    sourceCommit: string,
    planId: PlanId,
    registry: string,
    probeMode: string,
    controlRef: string,
    controlDigest: string,
    entries: seq<ReportEntry>)

  // ---- Dispositions -------------------------------------------------------------

  predicate Unannotated(a: Annotations) {
    a.version == "" && a.revision == "" && a.inputHash == NotSha("")
  }

  function SourceComparison(a: Annotations, sourceCommit: string): string {
    if Unannotated(a) then "unannotated"
    else if a.revision == sourceCommit then "match"
    else "mismatch"
  }

  function Recommendation(a: Annotations, hash: InputHash, version: string, sourceCommit: string): string {
    if Unannotated(a) then "delete-legacy"
    else if a.inputHash == hash && a.revision == sourceCommit && a.version == version then "adopt-public"
    else "bump-version"
  }

  /** validateMigrationFields */
  predicate ValidFields(existingDigest: string, plannedDigest: string, comparison: string, recommendation: string) {
    && IsDigest(existingDigest) && IsDigest(plannedDigest) && existingDigest != plannedDigest
    && (comparison == "match" || comparison == "mismatch" || comparison == "unannotated")
    && (recommendation == "delete-legacy" || recommendation == "bump-version" || recommendation == "adopt-public")
  }

  // ---- Markers in a snapshot ----------------------------------------------------

  /** A marker is a blocked exclusion whose disposition re-derives from what it records. */
  predicate MarkerValid(e: SnapshotEntry) {
    match e.migration
    case None => true
    case Some(m) =>
      && m.state == BLOCKED
      && ValidFields(m.existingDigest, m.plannedDigest, m.sourceComparison, m.recommendation)
      && m.plannedDigest == e.digest
      && IsCommit(m.sourceCommit)
      && m.recommendation == Recommendation(m.existing, e.inputHash, e.version, m.sourceCommit)
      && m.sourceComparison == SourceComparison(m.existing, m.sourceCommit)
  }

  function MarkedIds(es: seq<SnapshotEntry>): seq<string> {
    if es == [] then []
    else MarkedIds(es[..|es| - 1]) + if es[|es| - 1].migration.Some? then [es[|es| - 1].logicalId] else []
  }

  predicate AllMarkersValid(es: seq<SnapshotEntry>) {
    forall i :: 0 <= i < |es| ==> MarkerValid(es[i])
  }

  /** validateSnapshotMigration */
  predicate MigrationValid(s: Snapshot) {
    && AllMarkersValid(s.plugins)
    && match s.migrationPreflight
       case None => MarkedIds(s.plugins) == []
       case Some(p) =>
         && MarkedIds(s.plugins) != []
         && p.controlRef != "" && IsDigest(p.controlDigest)
         && p.excluded == SortStrings(MarkedIds(s.plugins))
  }

  method ValidateSnapshotMigration(s: Snapshot) returns (ok: bool)
    ensures ok <==> MigrationValid(s)
  {
    hide MarkerValid, IsDigest;
    var excluded := [];
    for i := 0 to |s.plugins|
      invariant excluded == MarkedIds(s.plugins[..i])
      invariant forall j :: 0 <= j < i ==> MarkerValid(s.plugins[j])
    {
      assert s.plugins[..i + 1][..i] == s.plugins[..i];
      if !MarkerValid(s.plugins[i]) {
        return false;
      }
      if s.plugins[i].migration.Some? {
        excluded := excluded + [s.plugins[i].logicalId];
      }
    }
    assert s.plugins[..|s.plugins|] == s.plugins;
    match s.migrationPreflight
    case None => return excluded == [];
    case Some(p) =>
      return excluded != [] && p.controlRef != "" && IsDigest(p.controlDigest) && p.excluded == SortStrings(excluded);
  }

  // ---- Binding a report into a snapshot -----------------------------------------

  predicate ReportEntryValid(r: ReportEntry, report: Report, entries: map<string, SnapshotEntry>) {
    && r.state == BLOCKED
    && ValidFields(r.existingDigest, r.plannedDigest, r.sourceComparison, r.recommendation)
    && r.logicalId in entries
    && var e := entries[r.logicalId];
       && r.ociRef == e.ociRef && r.ociRef == report.registry + "/" + e.image + ":" + r.version
       && r.version == e.version && r.inputHash == e.inputHash && r.plannedDigest == e.digest
       && r.recommendation == Recommendation(r.existing, r.inputHash, r.version, report.sourceCommit)
       && r.sourceComparison == SourceComparison(r.existing, report.sourceCommit)
  }

  /** Ascending by logicalId; the check is skipped after an empty id. */
  predicate ReportSorted(entries: seq<ReportEntry>) {
    forall i :: 0 < i < |entries| && entries[i - 1].logicalId != "" ==>
        StrLt(entries[i - 1].logicalId, entries[i].logicalId)
  }

  /** validateMigrationReport */
  predicate ReportValid(report: Report, s: Snapshot) {
    && report.schemaVersion == 1 && report.probeMode == CANDIDATE_DIGEST
    && report.gatewayVersion == s.gatewayVersion && report.sourceCommit == s.sourceCommit && report.planId == s.planId
    && report.controlRef != "" && IsDigest(report.controlDigest)
    && report.registry != "" && !Contains(report.registry, "://")
    && ReportSorted(report.entries)
    && forall i :: 0 <= i < |report.entries| ==> ReportEntryValid(report.entries[i], report, EntryMap(s.plugins))
  }

  method ValidateMigrationReport(report: Report, s: Snapshot) returns (ok: bool)
    ensures ok <==> ReportValid(report, s)
  {
    hide IsDigest, ReportEntryValid, Contains;
    if report.schemaVersion != 1 || report.probeMode != CANDIDATE_DIGEST ||
       report.gatewayVersion != s.gatewayVersion || report.sourceCommit != s.sourceCommit ||
           report.planId != s.planId ||
       report.controlRef == "" || !IsDigest(report.controlDigest) ||
       report.registry == "" || Contains(report.registry, "://") {
      return false;
    }
    var entries := EntryMap(s.plugins);
    var last := "";
    for i := 0 to |report.entries|
      invariant last == if i == 0 then "" else report.entries[i - 1].logicalId
      invariant forall j :: 0 < j < i && report.entries[j - 1].logicalId != "" ==>
                StrLt(report.entries[j - 1].logicalId, report.entries[j].logicalId)
      invariant forall j :: 0 <= j < i ==> ReportEntryValid(report.entries[j], report, entries)
    {
      StrLtTotal(last, report.entries[i].logicalId);
      if last != "" && (report.entries[i].logicalId == last || StrLt(report.entries[i].logicalId, last)) {
        return false;
      }
      last := report.entries[i].logicalId;
      if !ReportEntryValid(report.entries[i], report, entries) {
        return false;
      }
    }
    return true;
  }

  function MarkerOf(r: ReportEntry, sourceCommit: string): Migration {
    Migration(r.state, sourceCommit, r.existingDigest, r.plannedDigest, r.existing, r.sourceComparison,
        r.recommendation)
  }

  function ReportMap(entries: seq<ReportEntry>): (m: map<string, ReportEntry>)
    ensures forall id :: id in m <==> exists i :: 0 <= i < |entries| && entries[i].logicalId == id
  {
    if entries == [] then map[]
    else ReportMap(entries[..|entries| - 1])[entries[|entries| - 1].logicalId := entries[|entries| - 1]]
  }

  /** The marking loop of applyMigrationReport: entries so far, reports not yet used, new ids. */
  datatype Marking = Marking(marked: seq<SnapshotEntry>, unused: map<string, ReportEntry>, newIds: seq<string>)

  function MarkEntries(es: seq<SnapshotEntry>, reported: map<string, ReportEntry>,
      sourceCommit: string): Option<Marking> {
    if es == [] then Some(Marking([], reported, []))
    else
      var m :- MarkEntries(es[..|es| - 1], reported, sourceCommit);
      var e := es[|es| - 1];
      if e.logicalId !in m.unused then Some(m.(marked := m.marked + [e]))
      else if e.migration.Some? then None
      else Some(Marking(m.marked + [e.(migration := Some(MarkerOf(m.unused[e.logicalId], sourceCommit)))],
                        m.unused - {e.logicalId}, m.newIds + [e.logicalId]))
  }

  predicate CarriedBlocked(es: seq<SnapshotEntry>) {
    forall i :: 0 <= i < |es| && es[i].migration.Some? ==> es[i].migration.value.state == BLOCKED
  }

  function Rebound(s: Snapshot, report: Report, m: Marking): Snapshot {
    s.(plugins := m.marked,
       migrationPreflight := Some(Preflight(report.controlRef, report.controlDigest,
           SortStrings(MarkedIds(s.plugins) + m.newIds))))
  }

  /** applyMigrationReport */
  function ApplyReport(s: Snapshot, report: Report): Option<Snapshot> {
    if !ReportValid(report, s) || !CarriedBlocked(s.plugins) then None
    else if report.entries == [] && MarkedIds(s.plugins) == [] then Some(s)
    else
      var m :- MarkEntries(s.plugins, ReportMap(report.entries), report.sourceCommit);
      if m.unused != map[] || !MigrationValid(Rebound(s, report, m)) then None
      else Some(Rebound(s, report, m))
  }

  method ApplyMigrationReport(s: Snapshot, report: Report) returns (r: Result<Snapshot>)
    ensures r.ToOption() == ApplyReport(s, report)
  {
    hide ReportValid, MigrationValid, ReportMap, EntryMap;
    var valid := ValidateMigrationReport(report, s);
    if !valid {
      return Failure("migration report does not qualify this snapshot");
    }
    var carried := [];
    for i := 0 to |s.plugins|
      invariant carried == MarkedIds(s.plugins[..i])
      invariant forall j :: 0 <= j < i && s.plugins[j].migration.Some? ==> s.plugins[j].migration.value.state == BLOCKED
    {
      assert s.plugins[..i + 1][..i] == s.plugins[..i];
      if s.plugins[i].migration.Some? {
        if s.plugins[i].migration.value.state != BLOCKED {
          return Failure("only blocked exclusions are carried forward");
        }
        carried := carried + [s.plugins[i].logicalId];
      }
    }
    assert s.plugins[..|s.plugins|] == s.plugins;
    if report.entries == [] && carried == [] {
      return Success(s);
    }
    var marking := MarkLoop(s.plugins, ReportMap(report.entries), report.sourceCommit);
    if marking.Failure? {
      return Failure(marking.error);
    }
    if marking.value.unused != map[] {
      return Failure("migration report names a plugin the snapshot does not carry");
    }
    var bound := Rebound(s, report, marking.value);
    var ok := ValidateSnapshotMigration(bound);
    if !ok {
      return Failure("snapshot migration");
    }
    return Success(bound);
  }

  method MarkLoop(es: seq<SnapshotEntry>, reported: map<string, ReportEntry>, sourceCommit: string)
      returns (r: Result<Marking>)
    ensures r.ToOption() == MarkEntries(es, reported, sourceCommit)
  {
    var m := Marking([], reported, []);
    for i := 0 to |es|
      invariant MarkEntries(es[..i], reported, sourceCommit) == Some(m)
    {
      assert es[..i + 1][..i] == es[..i];
      var e := es[i];
      if e.logicalId in m.unused {
        if e.migration.Some? {
          MarkFails(es, i + 1, reported, sourceCommit);
          return Failure("carried exclusion cannot be blocked again");
        }
        m := Marking(m.marked + [e.(migration := Some(MarkerOf(m.unused[e.logicalId], sourceCommit)))],
                     m.unused - {e.logicalId}, m.newIds + [e.logicalId]);
      } else {
        m := m.(marked := m.marked + [e]);
      }
    }
    assert es[..|es|] == es;
    return Success(m);
  }

  lemma {:induction false} MarkFails(es: seq<SnapshotEntry>, i: nat, reported: map<string, ReportEntry>,
      sourceCommit: string)
    requires i <= |es| && MarkEntries(es[..i], reported, sourceCommit).None?
    ensures MarkEntries(es, reported, sourceCommit).None?
    decreases |es|
  {
    if i == |es| {
      assert es[..i] == es;
    } else {
      assert es[..|es| - 1][..i] == es[..i];
      MarkFails(es[..|es| - 1], i, reported, sourceCommit);
    }
  }

  // ---- Binding keeps every marker and always validates --------------------------

  ghost function Marked(e: SnapshotEntry, reported: map<string, ReportEntry>, sourceCommit: string): SnapshotEntry {
    if e.logicalId in reported then e.(migration := Some(MarkerOf(reported[e.logicalId], sourceCommit))) else e
  }

  /** No report names an entry that already carries a marker. */
  ghost predicate NoConflict(es: seq<SnapshotEntry>, reported: map<string, ReportEntry>) {
    forall i :: 0 <= i < |es| && es[i].migration.Some? ==> es[i].logicalId !in reported
  }

  /** The reports whose plugin does not occur among the entries. */
  ghost predicate Unmatched(es: seq<SnapshotEntry>, id: string) {
    forall i :: 0 <= i < |es| ==> es[i].logicalId != id
  }

  lemma {:induction false} MarkUnused(es: seq<SnapshotEntry>, reported: map<string, ReportEntry>, sourceCommit: string)
    requires MarkEntries(es, reported, sourceCommit).Some?
    ensures var m := MarkEntries(es, reported, sourceCommit).value;
            && (forall id :: id in m.unused <==> id in reported && Unmatched(es, id))
            && (forall id :: id in m.unused ==> m.unused[id] == reported[id])
  {
    hide MarkerOf;
    if es != [] {
      var n := |es| - 1;
      MarkUnused(es[..n], reported, sourceCommit);
      forall id
        ensures Unmatched(es, id) <==> Unmatched(es[..n], id) && es[n].logicalId != id
      {
        assert forall i :: 0 <= i < n ==> es[..n][i] == es[i];
      }
    }
  }

  lemma MarkLast(es: seq<SnapshotEntry>, reported: map<string, ReportEntry>, sourceCommit: string)
    requires DistinctEntries(es) && es != []
    ensures var e, init := es[|es| - 1], MarkEntries(es[..|es| - 1], reported, sourceCommit);
            var all := MarkEntries(es, reported, sourceCommit);
            && (all.Some? <==> init.Some? && (e.migration.Some? ==> e.logicalId !in reported))
            && (all.Some? ==> all.value.marked == init.value.marked + [Marked(e, reported, sourceCommit)])
  {
    hide MarkerOf;
    var init, e := es[..|es| - 1], es[|es| - 1];
    if MarkEntries(init, reported, sourceCommit).Some? {
      MarkUnused(init, reported, sourceCommit);
      assert Unmatched(init, e.logicalId);
    }
  }

  lemma {:induction false} MarkShape(es: seq<SnapshotEntry>, reported: map<string, ReportEntry>, sourceCommit: string)
    requires DistinctEntries(es)
    ensures MarkEntries(es, reported, sourceCommit).Some? <==> NoConflict(es, reported)
    ensures MarkEntries(es, reported, sourceCommit).Some? ==>
              var m := MarkEntries(es, reported, sourceCommit).value;
              && |m.marked| == |es|
              && forall i :: 0 <= i < |es| ==> m.marked[i] == Marked(es[i], reported, sourceCommit)
  {
    if es != [] {
      var n := |es| - 1;
      MarkShape(es[..n], reported, sourceCommit);
      MarkLast(es, reported, sourceCommit);
      hide Marked, MarkEntries;
      assert forall i :: 0 <= i < n ==> es[..n][i] == es[i];
    }
  }

  lemma {:induction false} MarkCounts(es: seq<SnapshotEntry>, reported: map<string, ReportEntry>, sourceCommit: string)
    requires MarkEntries(es, reported, sourceCommit).Some?
    ensures var m := MarkEntries(es, reported, sourceCommit).value;
            |m.marked| == |es| && multiset(MarkedIds(m.marked)) == multiset(MarkedIds(es)) + multiset(m.newIds)
  {
    hide MarkerOf;
    if es != [] {
      var n := |es| - 1;
      MarkCounts(es[..n], reported, sourceCommit);
      var m := MarkEntries(es, reported, sourceCommit).value;
      assert m.marked[..n] == MarkEntries(es[..n], reported, sourceCommit).value.marked;
    }
  }

  lemma {:induction false} MarkedIdsMember(es: seq<SnapshotEntry>, id: string)
    ensures id in MarkedIds(es) <==> exists i :: 0 <= i < |es| && es[i].migration.Some? && es[i].logicalId == id
  {
    if es != [] {
      MarkedIdsMember(es[..|es| - 1], id);
    }
  }

  lemma ReportedMarkerValid(e: SnapshotEntry, r: ReportEntry, report: Report, entries: map<string, SnapshotEntry>)
    requires ReportEntryValid(r, report, entries) && e.logicalId == r.logicalId && entries[r.logicalId] == e
    requires IsCommit(report.sourceCommit)
    ensures MarkerValid(e.(migration := Some(MarkerOf(r, report.sourceCommit))))
  {
  }

  lemma {:induction false} ReportMapIn(entries: seq<ReportEntry>, id: string) returns (i: nat)
    requires id in ReportMap(entries)
    ensures i < |entries| && ReportMap(entries)[id] == entries[i] && entries[i].logicalId == id
  {
    var n := |entries| - 1;
    if entries[n].logicalId == id { i := n; } else { i := ReportMapIn(entries[..n], id); }
  }

  /** With a valid report, valid carried markers and one entry per plugin, applyMigrationReport
      fails only on a report that names an already excluded plugin; its closing validation never
      fails. The result marks exactly the reported entries, keeps every other entry verbatim,
      and is a valid snapshot. */
  lemma ClosingValidationNeverFails(s: Snapshot, report: Report)
    requires ReportValid(report, s) && AllMarkersValid(s.plugins) && DistinctEntries(s.plugins) &&
              IsCommit(s.sourceCommit)
    requires s.migrationPreflight.None?
    ensures ApplyReport(s, report).Some? <==> NoConflict(s.plugins, ReportMap(report.entries))
    ensures ApplyReport(s, report).Some? ==>
              var s' := ApplyReport(s, report).value;
              && MigrationValid(s')
              && s' == s.(plugins := s'.plugins, migrationPreflight := s'.migrationPreflight)
              && |s'.plugins| == |s.plugins|
              && forall i :: 0 <= i < |s.plugins| ==>
                  s'.plugins[i] == Marked(s.plugins[i], ReportMap(report.entries), s.sourceCommit)
  {
    hide ReportMap, IsCommit, IsDigest, EntryMap, ReportEntryValid, Recommendation, SourceComparison, ValidFields,
         SortStrings, MarkedIds;
    var reported := ReportMap(report.entries);
    BlockedCarried(s.plugins);
    MarkShape(s.plugins, reported, s.sourceCommit);
    if report.entries == [] {
      EmptyReport(report.entries);
    }
    if NoConflict(s.plugins, reported) {
      var m := MarkEntries(s.plugins, reported, s.sourceCommit).value;
      AllUsed(s, report, m);
      MarkedAllValid(s, report, m);
      if !(report.entries == [] && MarkedIds(s.plugins) == []) {
        MarkCounts(s.plugins, reported, s.sourceCommit);
        SortedUnique(SortStrings(MarkedIds(s.plugins) + m.newIds), SortStrings(MarkedIds(m.marked)));
        SomethingMarked(s, report, m);
      }
    }
  }

  lemma EmptyReport(entries: seq<ReportEntry>)
    requires entries == []
    ensures ReportMap(entries) == map[]
  {
  }

  lemma BlockedCarried(es: seq<SnapshotEntry>)
    requires AllMarkersValid(es)
    ensures CarriedBlocked(es)
  {
    forall i | 0 <= i < |es| && es[i].migration.Some?
      ensures es[i].migration.value.state == BLOCKED
    {
      assert MarkerValid(es[i]);
    }
  }

  lemma AllUsed(s: Snapshot, report: Report, m: Marking)
    requires ReportValid(report, s) && DistinctEntries(s.plugins)
    requires MarkEntries(s.plugins, ReportMap(report.entries), s.sourceCommit) == Some(m)
    ensures m.unused == map[]
  {
    hide ReportMap, MarkEntries, IsDigest, Contains, ReportSorted;
    MarkUnused(s.plugins, ReportMap(report.entries), s.sourceCommit);
    forall id | id in ReportMap(report.entries)
      ensures !Unmatched(s.plugins, id)
    {
      var i := ReportMapIn(report.entries, id);
      assert ReportEntryValid(report.entries[i], report, EntryMap(s.plugins));
      assert EntryMap(s.plugins)[id] in s.plugins;
    }
  }

  lemma MarkedAllValid(s: Snapshot, report: Report, m: Marking)
    requires ReportValid(report, s) && DistinctEntries(s.plugins) && AllMarkersValid(s.plugins) &&
              IsCommit(s.sourceCommit)
    requires MarkEntries(s.plugins, ReportMap(report.entries), s.sourceCommit) == Some(m)
    ensures AllMarkersValid(m.marked)
  {
    hide ReportMap, MarkEntries, MarkerValid, ReportEntryValid, IsCommit, IsDigest, Contains, ReportSorted;
    var reported := ReportMap(report.entries);
    MarkShape(s.plugins, reported, s.sourceCommit);
    forall i | 0 <= i < |m.marked|
      ensures MarkerValid(m.marked[i])
    {
      var e := s.plugins[i];
      if e.logicalId in reported {
        var k := ReportMapIn(report.entries, e.logicalId);
        EntryMapAt(s.plugins, i);
        ReportedMarkerValid(e, report.entries[k], report, EntryMap(s.plugins));
      }
    }
  }

  lemma SomethingMarked(s: Snapshot, report: Report, m: Marking)
    requires ReportValid(report, s) && DistinctEntries(s.plugins)
    requires MarkEntries(s.plugins, ReportMap(report.entries), s.sourceCommit) == Some(m)
    requires report.entries != [] || MarkedIds(s.plugins) != []
    ensures MarkedIds(m.marked) != []
  {
    hide ReportMap, MarkEntries, MarkedIds, IsDigest, Contains, ReportSorted;
    MarkShape(s.plugins, ReportMap(report.entries), s.sourceCommit);
    MarkCounts(s.plugins, ReportMap(report.entries), s.sourceCommit);
    if report.entries != [] {
      var id := report.entries[0].logicalId;
      assert id in ReportMap(report.entries);
      assert ReportEntryValid(report.entries[0], report, EntryMap(s.plugins));
      var i :| 0 <= i < |s.plugins| && s.plugins[i] == EntryMap(s.plugins)[id];
      MarkedIdsMember(m.marked, id);
      assert m.marked[i].migration.Some? && m.marked[i].logicalId == id;
    } else {
      assert MarkedIds(s.plugins)[0] in multiset(MarkedIds(s.plugins));
      assert MarkedIds(s.plugins)[0] in multiset(MarkedIds(m.marked));
    }
  }

  /** A report that marks one entry, saying that its tag serves `served`. */
  function OneFinding(s: Snapshot, e: SnapshotEntry, registry: string, served: string, control: string): Report {
    var none := Annotations("", "", NotSha(""));
    var entry := ReportEntry(e.logicalId, e.version, e.ociRef, served, e.digest, e.inputHash, none, "unannotated",
        BLOCKED, "delete-legacy");
    Report(1, s.gatewayVersion, s.sourceCommit, s.planId, registry, CANDIDATE_DIGEST, control, served, [entry])
  }

  /** validateMigrationReport does not ask whether an entry was planned: any entry without a marker
      can be reported and is then marked. */
  lemma AnyEntryReportable(s: Snapshot, i: nat, registry: string, served: string, control: string)
    requires i < |s.plugins| && s.plugins[i].migration.None? && IsDigest(s.plugins[i].digest)
    requires s.plugins[i].ociRef == registry + "/" + s.plugins[i].image + ":" + s.plugins[i].version
    requires AllMarkersValid(s.plugins) && DistinctEntries(s.plugins) && IsCommit(s.sourceCommit) &&
              s.migrationPreflight.None?
    requires IsDigest(served) && served != s.plugins[i].digest && control != "" && registry != "" &&
              !Contains(registry, "://")
    ensures var report := OneFinding(s, s.plugins[i], registry, served, control);
            && ReportValid(report, s) && s.plugins[i].logicalId in ReportMap(report.entries)
            && ApplyReport(s, report).Some?
  {
    hide IsDigest, IsCommit, Contains, MarkEntries, MigrationValid, MarkedIds, SortStrings, AllMarkersValid, EntryMap,
         ReportMap, ApplyReport;
    var e, report := s.plugins[i], OneFinding(s, s.plugins[i], registry, served, control);
    EntryMapAt(s.plugins, i);
    assert report.entries[0].logicalId == e.logicalId;
    assert ReportEntryValid(report.entries[0], report, EntryMap(s.plugins));
    forall k | 0 <= k < |s.plugins| && s.plugins[k].migration.Some?
      ensures s.plugins[k].logicalId !in ReportMap(report.entries)
    {
    }
    ClosingValidationNeverFails(s, report);
  }
}
