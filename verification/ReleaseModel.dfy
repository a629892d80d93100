/** The files of the plugin-release tool: catalog, plan, snapshot, evidence, sweep report. */
module ReleaseModel {
  import opened Wrappers
  import opened Text

  /** SHA-256 without collisions: a well-formed digest is identified with what was hashed;
      any other text is `NotSha`. */
  datatype Sha256<+T> = Sha256(of: T) | NotSha(raw: string)

  type InputHash = Sha256<string>

  predicate LowerHex(s: string) {
    forall i :: 0 <= i < |s| ==> IsDigit(s[i]) || 'a' <= s[i] <= 'f'
  }

  /** digestPattern */
  predicate IsDigest(s: string) {
    HasPrefix(s, "sha256:") && |s| == 71 && LowerHex(s[7..])
  }

  /** commitPattern */
  predicate IsCommit(s: string) {
    |s| == 40 && LowerHex(s)
  }

  /** safeIDPattern */
  predicate IsSafeId(s: string) {
    && s != [] && SafeEnd(s[0]) && SafeEnd(s[|s| - 1])
    && forall i :: 0 <= i < |s| ==> SafeEnd(s[i]) || s[i] == '.' || s[i] == '_' || s[i] == '-'
  }

  predicate SafeEnd(c: char) {
    IsDigit(c) || 'a' <= c <= 'z'
  }

  // ---- Repository ---------------------------------------------------------------

  /** A commit's files. */
  type Tree = map<string, string>

  /** Commits by full id, and the ancestor pairs Git reports. */
  datatype Repo = Repo(commits: map<string, Tree>, ancestors: set<(string, string)>)

  /** Git: ids are 40 lowercase hex digits and paths carry no NUL. */
  ghost predicate ValidRepo(repo: Repo) {
    forall id :: id in repo.commits ==> IsCommit(id) && NulFreePaths(repo.commits[id])
  }

  ghost predicate NulFreePaths(t: Tree) {
    forall path :: path in t ==> '\0' !in path
  }

  // ---- Catalog ------------------------------------------------------------------

  datatype BundleFile = BundleFile(sourcePath: string, targetPath: string, sha256: string)

  datatype Bundle = Bundle(repository: string, sourceCommit: string, files: seq<BundleFile>)

  datatype Console = Console(propertyKey: string, resourceDir: string, urlForm: string, marketplace: Option<Bundle>)

  datatype PluginServer = PluginServer(inventoryKey: string, httpPath: string, aliases: seq<string>)

  datatype Consumers = Consumers(console: Option<Console>, pluginServer: Option<PluginServer>)

  datatype Plugin = Plugin(
    logicalId: string,
    implementation: string,
    sourceDir: string,
    image: string,
    releaseEligible: bool,
    unmanagedReason: string,
    artifactInputs: seq<string>,
    sharedInputGroups: seq<string>,
    consumers: Consumers)

  datatype Catalog = Catalog(
    schemaVersion: int,
    registry: string,
    marketplace: Option<map<string, Bundle>>,
    sharedInputGroups: map<string, seq<string>>,
    plugins: seq<Plugin>)

  /** catalogConsumers: a console mapping without its own bundle takes the catalog's. */
  function CatalogConsumers(c: Catalog, p: Plugin): Consumers {
    match p.consumers.console
    case Some(console) =>
      if console.marketplace.None? && c.marketplace.Some? && p.logicalId in c.marketplace.value then
        p.consumers.(console := Some(console.(marketplace := Some(c.marketplace.value[p.logicalId]))))
      else p.consumers
    case None => p.consumers
  }

  predicate ValidPlugin(c: Catalog, p: Plugin) {
    && IsSafeId(p.logicalId)
    && (p.implementation == "go" || p.implementation == "rust")
    && HasPrefix(p.sourceDir, "plugins/wasm-" + p.implementation + "/extensions/")
    && HasPrefix(p.image, "plugins/")
    && (if p.releaseEligible then p.unmanagedReason == "" else TrimSpace(p.unmanagedReason) != "")
    && p.artifactInputs != []
    && forall i :: 0 <= i < |p.sharedInputGroups| ==> p.sharedInputGroups[i] in c.sharedInputGroups
  }

  /** validateCatalog without its file-system and consumer-inventory checks. */
  predicate ValidCatalog(c: Catalog) {
    && c.schemaVersion == 1
    && c.registry != "" && !Contains(c.registry, "://")
    && (forall i :: 0 <= i < |c.plugins| ==> ValidPlugin(c, c.plugins[i]))
    && (forall i, j :: 0 <= i < j < |c.plugins| ==>
          && c.plugins[i].logicalId != c.plugins[j].logicalId
          && c.plugins[i].sourceDir != c.plugins[j].sourceDir
          && c.plugins[i].image != c.plugins[j].image)
  }

  // ---- Plan ---------------------------------------------------------------------

  datatype PlanEntry = PlanEntry(
    logicalId: string,
    implementation: string,
    sourceDir: string,
    image: string,
    previousVersion: string,
    version: string,
    inputHash: InputHash,
    changedPaths: seq<string>,
    backfill: bool)

  datatype DeferredPlugin = DeferredPlugin(logicalId: string, version: string, reason: string)

  /** A plan without its id: what canonicalObjectHash hashes. */
  datatype PlanBody = PlanBody(
    schemaVersion: int,
    gatewayVersion: string,
    sourceCommit: string,
    baseCommit: string,
    previousRelease: string,
    catalog: Sha256<Catalog>,
    plugins: seq<PlanEntry>,
    deferred: seq<DeferredPlugin>)

  type PlanId = Sha256<PlanBody>

  datatype Plan = Plan(body: PlanBody, planId: PlanId)

  // ---- Evidence -----------------------------------------------------------------

  datatype CandidateEvidence = CandidateEvidence(
    candidateRef: string, digest: string, sourceCommit: string, inputHash: InputHash)

  type Evidence = map<string, CandidateEvidence>

  datatype BootstrapStatus = Public | Missing | Deferred | Unsupported(raw: string)

  datatype BootstrapRecord = BootstrapRecord(status: BootstrapStatus, version: string, publicRef: string,
      digest: string)

  type BootstrapEvidence = map<string, BootstrapRecord>

  // ---- Registry -----------------------------------------------------------------

  /** Pipeline annotations of a manifest; an absent one reads as empty text. */
  datatype Annotations = Annotations(version: string, revision: string, inputHash: InputHash)

  datatype Manifest = Manifest(digest: string, annotations: Annotations)

  /** What resolving a reference yields, with errors as classifyOCIFailure sorts them. */
  datatype Resolution = Resolved(manifest: Manifest) | NotFound | Unauthorized | OtherFailure

  type Registry = string -> Resolution

  // ---- Snapshot -----------------------------------------------------------------

  datatype Migration = Migration(
    state: string,
    sourceCommit: string,
    existingDigest: string,
    plannedDigest: string,
    existing: Annotations,
    sourceComparison: string,
    recommendation: string)

  datatype SnapshotEntry = SnapshotEntry(
    logicalId: string,
    implementation: string,
    sourceDir: string,
    image: string,
    version: string,
    ociRef: string,
    digest: string,
    inputHash: InputHash,
    sourceCommit: string,
    candidateRef: string,
    provenanceMode: string,
    backfill: bool,
    migration: Option<Migration>,
    consumers: Consumers)

  datatype EvidenceMarker = EvidenceMarker(path: string, sha256: Sha256<BootstrapEvidence>)

  datatype Preflight = Preflight(controlRef: string, controlDigest: string, excluded: seq<string>)

  datatype Snapshot = Snapshot(
    schemaVersion: int,
    gatewayVersion: string,
    sourceCommit: string,
    previousRelease: string,
    catalog: Sha256<Catalog>,
    planId: PlanId,
    provenanceMode: string,
    bootstrapEvidence: Option<EvidenceMarker>,
    migrationPreflight: Option<Preflight>,
    plugins: seq<SnapshotEntry>)

  function EntryProvenance(e: SnapshotEntry): string {
    if e.provenanceMode != "" then e.provenanceMode
    else if e.candidateRef != "" then "candidate"
    else "public"
  }

  /** The lookup table Go builds from a snapshot: a later entry of the same plugin wins. */
  function EntryMap(entries: seq<SnapshotEntry>): (m: map<string, SnapshotEntry>)
    ensures forall id :: id in m ==> m[id] in entries && m[id].logicalId == id
    ensures forall e :: e in entries ==> e.logicalId in m
  {
    if entries == [] then map[]
    else
      var last := entries[|entries| - 1];
      assert entries == entries[..|entries| - 1] + [last];
      EntryMap(entries[..|entries| - 1])[last.logicalId := last]
  }

  ghost predicate DistinctEntries(entries: seq<SnapshotEntry>) {
    forall i, j :: 0 <= i < j < |entries| ==> entries[i].logicalId != entries[j].logicalId
  }

  lemma {:induction false} EntryMapAt(entries: seq<SnapshotEntry>, i: nat)
    requires DistinctEntries(entries) && i < |entries|
    ensures EntryMap(entries)[entries[i].logicalId] == entries[i]
  {
    var n := |entries| - 1;
    if i < n {
      assert entries[i].logicalId != entries[n].logicalId;
      EntryMapAt(entries[..n], i);
    }
  }

  const BOOTSTRAP_PUBLIC := "bootstrap-public"

  function PublicRef(c: Catalog, image: string, version: string): string {
    c.registry + "/" + image + ":" + version
  }

  function VersionPath(p: Plugin): string {
    p.sourceDir + "/VERSION"
  }

  function EvidencePath(gatewayVersion: string): string {
    "plugins/release/bootstrap-evidence/" + gatewayVersion + ".json"
  }

  lemma VersionPathInjective(p: Plugin, q: Plugin)
    requires VersionPath(p) == VersionPath(q)
    ensures p.sourceDir == q.sourceDir
  {
    var a, b := VersionPath(p), VersionPath(q);
    assert p.sourceDir == a[..|a| - 8] && q.sourceDir == b[..|b| - 8];
  }
}
