# Higress: release pipeline, registry reconciliation and Helm recovery, verified

This project models three parts of Higress in Dafny and proves what they promise.

**The plugin-release pipeline** (`tools/plugin-release`). A release plans the plugins whose inputs
changed, picks their next versions, writes VERSION files, renders a snapshot from planned and
carried entries, marks occupied tags, and is then checked again by an independent verifier. A commit
is a map from path to content, the registry is a function from reference to answer, and an input hash
is its preimage. Main results: producer and verifier agree
over chains of any length, a managed release always goes through, re-preparation is a fixpoint, selection is exact, versions are monotone,
exclusion markers survive, the migration sweep binds, the bootstrap closes and starts a chain.
Files: `Semver`, `ReleaseModel`, `Inputs`, `Planning`, `Selection`, `Rendering`, `Migrating`,
`Preflight`, `Verifying`, `Exactness`, `Releasing`, `Agreement`, `Chains`, `Replanning`,
`Committing`, `Bootstrapping`, `Genesis`, `Progress`.

**Registry reconciliation** (`registry`). Reconcile stops and starts watchers that publish into a
shared cache with deferred deletion. The call, the Runs and the Stops are one machine of atomic
steps, and the results hold for every interleaving: exactly when a served host can be lost, which
steps keep the live set that of the tracked registries, and that a purge leaves exactly the desired
hosts. The cache, the endpoint query,
the port allocator, the zookeeper map and the proxy reconciliation are modelled as the loops and
objects they are.
Files: `ServiceCache`, `Endpoints`, `ListenerPorts`, `Protocols`, `Direct`, `Reconciling`,
`Availability`, `Exposure`, `LiveSet`, `LiveLaw`, `Scenarios`, `Reconcilers`, `Zookeeper`.

**Recovered Helm values** (`hgctl/pkg/helm`). Owned leaves move from nested raw values into typed
settings, empty maps are pruned, the rest is reported, and a profile renders as three merged layers.
Main results: normalisation is idempotent, removes exactly the owned leaves and keeps the rendered
values; the report and the overlay difference are exact.
Files: `HelmValues`, `Recovering`, `Normalising`, `InstallModes`, `Reporting`, `HelmRendering`,
`FlagRendering`, `OverlayDiff`.

`Wrappers` and `Text` hold optional values, string order, trimming, splitting and decimals.

Errors are `Result` or `Option` values. Loops of the source are methods proved equal to a
specification function or predicate; the laws are lemmas about those.

## Promises that fail, and exactly when they hold

- Re-preparation selects a plugin again when its override was given with surrounding space:
  `parseSemver` trims, the plan keeps the text (`Replanning.PaddedOverride`,
  `Replanning.PaddedReplans`). `Replanning.ReplanFixpoint` gives the exact condition.
- A previous entry with an empty provenance mode verifies alone, but not once carried
  (`Agreement.ImplicitProvenanceRejected`); `Agreement.RenderedIsAcceptedExactly` is the condition.
- compareSemver is not transitive on identifiers such as `01` (`Semver.NonCanonicalCounterexample`).
- The bootstrap does not close when an override moves a missing plugin off its VERSION; the
  condition is part of `Bootstrapping.BootstrapCloses`.
- A migration report that marks a carried entry is bound by the producer and rejected by the verifier
  (`Migrating.AnyEntryReportable`, `Agreement.ReportOnCarriedRejected`); the sweep never produces one,
  and `Agreement.RenderedIsAcceptedExactly` has the condition.
- A retried Reconcile can purge a host whose new watcher has not run yet
  (`Scenarios.RetryLosesHostFromStart`); `Exposure.GapIffExposed` is the exact condition.
- A watcher stopped before its Run began publishes afterwards. It revives a deleted registry
  (`Scenarios.OrphanResurrectsFromStart`) or overwrites an updated one (`Scenarios.OrphanOverwrites`);
  `LiveLaw.LawStepExactly` says which steps keep the live-set law.
- Outside a cluster, normalisation changes what is rendered at a null leaf above a flag
  (`FlagRendering.NullsDiffer`); `FlagRendering.NullsKept` is the exact condition.
- UpdateProxyWrapper clears the tombstone of a service instead of a proxy
  (`ServiceCache.ProxyUpdateCancelsTheWrongDelete`); the log line there names the proxy tombstones,
  and the model follows the code.
- A key spelled like an owned path is neither consumed nor reported
  (`Reporting.DottedKeyUnreported`); `Reporting.ReportExact` is the condition.

## Model

| member | source | states |
|---|---|---|
| Replanning.ReplanFixpoint | tools/plugin-release/commands.go:488-586 | Preparing the same release again, on top of the snapshot just rendered and at a commit that adds only the VERSION files applyPlan wrote, always produces a plan, and that plan is empty if and only if every planned version is restated by its VERSION file, given that no shared input group matches one of those files |
| Replanning.PaddedOverride | tools/plugin-release/commands.go:547-572 | Every accepted override is accepted again with one more trailing space character, and the padded text is then not a trimmed version |
| Replanning.PaddedReplans | tools/plugin-release/commands.go:547-586 | A planned version with surrounding space that VERSION did not already hold makes the second plan non-empty: the failing side of the fixpoint |
| Replanning.SecondDecision | tools/plugin-release/commands.go:504-572 | The second planning pass never errs on a plugin and selects it exactly when it was planned with a version its VERSION file does not restate |
| Replanning.InputsAfter | tools/plugin-release/commands.go:616-624 | applyPlan changes the selected inputs of no plugin, when no shared group matches a written VERSION file |
| Replanning.VersionAfter | tools/plugin-release/commands.go:616-624 | After applyPlan the VERSION file of a planned plugin is its planned version and a newline, and the file of any other eligible plugin is untouched |
| Replanning.WorkTree.ApplyPlan | tools/plugin-release/commands.go:616-624 | The checked-out files become exactly the tree with one VERSION line per planned plugin, later entries last |
| Agreement.RenderedIsAcceptedExactly | tools/plugin-release/commands.go:813-1143 | The independent verifier, with plan and previous snapshot bound, accepts a rendered release if and only if the gateway versions are stable, the previous snapshot has the supported schema and distinct entries, every carried entry records its provenance, is still sound under the new catalog and is stable if now deferred, and the bound migration report names planned plugins only |
| Agreement.EntryVerdict | tools/plugin-release/commands.go:879-1106 | Every planned entry passes all entry and binding checks; a carried entry passes exactly when the carry condition holds and the report does not name it |
| Agreement.ThreeWays | tools/plugin-release/commands.go:713-752 | Each eligible plugin is planned, carried from the previous snapshot, or alpha-deferred without ever having been released; nothing else is possible |
| Agreement.CarriedEntryOf | tools/plugin-release/commands.go:736-752 | A carried entry reappears in the finished snapshot as the previous entry with consumers refreshed from the catalog and provenance spelled out; it gains a marker exactly when the report names it, and then it had none |
| Agreement.ReportOnCarriedRejected | tools/plugin-release/commands.go:1066-1092 | Producer and verifier disagree on a report that marks an entry the release merely carries: whenever such a report binds, the bound verifier rejects the snapshot |
| Migrating.AnyEntryReportable | tools/plugin-release/migration.go:376-429 | Such reports do bind: any unmarked entry of a rendered snapshot, planned or carried, can be reported as occupied by another digest and is then marked |
| Agreement.ImplicitProvenanceRejected | tools/plugin-release/commands.go:1034-1117 | A release that carries an entry whose provenance was left implicit is rejected by the bound verifier, because rendering spells the mode out |
| Exactness.ImplicitProvenanceVerifies | tools/plugin-release/commands.go:879-941 | Unbound, an accepted snapshot stays accepted when an entry leaves its provenance mode out |
| Chains.ChainAccepted | tools/plugin-release/commands.go:626-765 | For chains of any length that start from a sound snapshot and keep the catalog records of what they carry, every snapshot is sound again, and it is accepted with its plan and its predecessor bound exactly when its migration report names planned plugins only |
| Chains.StepAccepted | tools/plugin-release/commands.go:813-1143 | One release from a sound previous snapshot leaves a sound snapshot, accepted exactly when its report names planned plugins only; only carried plugins need unchanged catalog records |
| Chains.CarriedVerbatim | tools/plugin-release/commands.go:736-752 | Along any stretch of a chain in which a plugin is not planned, its entry appears unchanged except for catalog consumers, an implicit provenance made explicit, and a marker if it had none and a report names it |
| Chains.MarkersSurvive | tools/plugin-release/migration.go:281-356 | An exclusion marker stays verbatim in every later snapshot until its plugin is planned again, and every snapshot of the chain satisfies the snapshot migration check although source commits differ |
| Chains.VersionMoves | tools/plugin-release/commands.go:547-572 | Between consecutive snapshots a plugin moves to a strictly higher stable version exactly when it is planned, on the stable, prerelease, bootstrap and override paths |
| Chains.VersionsMonotone | tools/plugin-release/semver.go:100-145 | Over any stretch of a chain a plugin version never decreases, and it is strictly higher at the end exactly when some release in the stretch planned the plugin |
| Chains.FreshnessKept | tools/plugin-release/commands.go:508-546 | A managed release leaves no stale entry: an entry whose recorded input hash matched its source commit matches the new source commit afterwards, planned or carried, unless the plugin is deferred or a shared group matches its VERSION file |
| Progress.ReleaseGoesThrough | tools/plugin-release/commands.go:626-765 | From a sound previous snapshot with valid markers, a plan, candidates for it and a successful sweep, a managed release exists, is accepted by the verifier, and is again sound with valid markers |
| Progress.ManagedRenders | tools/plugin-release/commands.go:626-771 | Every plan of a managed release renders, whatever matching candidates were built: no eligible plugin is left neither planned, carried nor deferred |
| Progress.AcceptedIsSound | tools/plugin-release/commands.go:813-960 | A snapshot that the verifier accepts, with stable versions and explicit provenance, is sound, so that a chain can start from it |
| Committing.CommittedExactly | tools/plugin-release/commands.go:932-943 | With the commit that merges what applyPlan wrote as committed source, a release is accepted exactly when it is accepted without it, every planned version survives its VERSION file, and every carried, undeferred entry still records VERSION and inputs of the target |
| Exactness.AcceptedPlugins | tools/plugin-release/commands.go:857-970 | The plugins of an accepted, fully bound snapshot are exactly the eligible ones that are not alpha-deferred plus the deferred ones the previous snapshot already held |
| Exactness.AcceptedSnapshotsAgree | tools/plugin-release/commands.go:1034-1117 | Two snapshots accepted for the same plan, previous snapshot, catalog and repository list the same plugins in the same order, and can differ only in a planned plugin digest, candidate reference, provenance mode or migration marker |
| Exactness.DeferredNotPlanned | tools/plugin-release/commands.go:980-1033 | A plan that the verifier binds never plans an alpha-deferred plugin |
| Selection.SelectionOnContents | tools/plugin-release/commands.go:508-546 | In a managed release an eligible, non-alpha, previously released plugin without override is planned exactly when one of its inputs other than VERSION differs between base and target, or VERSION was edited to something other than the recorded version |
| Selection.SelectionOnHashes | tools/plugin-release/commands.go:508-546 | The same selection stated on input hashes: planned exactly when the input hash differs between the two commits or VERSION was edited, for plugins no shared group hands a VERSION file |
| Inputs.EncodeInjective | tools/plugin-release/io.go:158-180 | The NUL-terminated chunk encoding that is hashed is injective on lists of NUL-free chunks |
| Inputs.PreimageInjective | tools/plugin-release/io.go:158-180 | Equal hash preimages come from equal versions and equal selected path and blob pairs |
| Inputs.HashExact | tools/plugin-release/io.go:158-180 | Two input hashes are equal exactly when the versions and the selected files agree |
| Inputs.ComputeInputHash | tools/plugin-release/io.go:158-180 | Selecting, sorting and writing in loops yields the input hash of the tree, whatever order the files were listed in |
| Inputs.PluginInputMatches | tools/plugin-release/io.go:142-156 | A path is an input exactly when a non-documentation artifact pattern or any pattern of a named shared group matches it |
| Inputs.ChangedPaths | tools/plugin-release/io.go:90-104 | The changed paths are, in ascending order, exactly the paths whose blobs differ or exist on one side only |
| Inputs.VersionIsDocumentation | tools/plugin-release/io.go:135-156 | A VERSION file counts as documentation, so that only a shared group can make it an input |
| Planning.BuildPlan | tools/plugin-release/commands.go:417-603 | The planning loops return the plan that the declarative per-plugin decisions determine, and fail exactly when one of them or a precondition fails |
| Planning.DecidePlugin | tools/plugin-release/commands.go:492-586 | One pass of the planning loop agrees with the decision function on skip, defer, select and error |
| Planning.PlanContents | tools/plugin-release/commands.go:488-603 | A plan holds an entry for exactly the selected plugins and a deferral for exactly the deferred ones, each as decided |
| Planning.PlanIds | tools/plugin-release/commands.go:488-603 | Plan entries and deferrals are sorted strictly by plugin and all name eligible catalog plugins |
| Rendering.RenderSnapshot | tools/plugin-release/commands.go:626-771 | The rendering loops return the snapshot that the per-plugin renderings determine, and fail exactly when a header, plan, evidence or entry check fails |
| Rendering.SnapshotContents | tools/plugin-release/commands.go:702-765 | A rendered snapshot holds, for every eligible plugin, exactly that plugin rendering and nothing for the others |
| Rendering.SnapshotSource | tools/plugin-release/commands.go:702-765 | Every entry of a rendered snapshot is the rendering of one eligible catalog plugin |
| Rendering.SnapshotSorted | tools/plugin-release/commands.go:702-765 | Snapshot entries are in strictly ascending plugin order |
| Rendering.BindBootstrapEvidence | tools/plugin-release/commands.go:773-807 | Bootstrap evidence binds exactly when every entry matches its classification, every plugin classified missing is backfilled and no plugin classified deferred has an entry |
| Releasing.CommandRender | tools/plugin-release/commands.go:1585-1612 | Rendering ends by binding the migration report, or without a report succeeds only if nothing is marked excluded |
| Releasing.FinishedShape | tools/plugin-release/migration.go:281-356 | Binding a report changes nothing but migration markers: exactly the named entries, none of which had a marker, get one |
| Releasing.Decided | tools/plugin-release/commands.go:492-586 | An eligible plugin is deferred exactly when its VERSION at the target is alpha, is then never planned, and a planned one carries its catalog identity, a parsable version and the input hash at the target |
| Verifying.VerifySnapshot | tools/plugin-release/commands.go:813-1143 | The verifier loops accept exactly the snapshots that satisfy the declarative acceptance predicate over header, source, entries, plan binding, previous binding and markers |
| Verifying.CheckEntrySound | tools/plugin-release/commands.go:879-941 | The entry check succeeds exactly on sound entries: identity, reference, consumers, provenance, version and recomputed input hash |
| Verifying.CheckPlanBound | tools/plugin-release/commands.go:980-1040 | The plan binding check succeeds exactly when hash, commits, gateway versions, deferrals and distinctness all agree |
| Verifying.CheckPreviousBound | tools/plugin-release/commands.go:1041-1064 | The previous binding check succeeds exactly when the previous snapshot has the schema, is the stable previous release, has distinct entries, and is the bootstrap baseline if evidence is marked |
| Migrating.ValidateSnapshotMigration | tools/plugin-release/migration.go:455-504 | The marker check accepts exactly the snapshots whose exclusion list names the marked entries and whose markers are each valid |
| Migrating.ValidateMigrationReport | tools/plugin-release/migration.go:376-429 | The report check accepts exactly the reports that match the snapshot header, the sorted planned entries and their digests |
| Migrating.ApplyMigrationReport | tools/plugin-release/migration.go:281-356 | Binding a report yields the declaratively marked snapshot or an error, in agreement with the specification of every failure |
| Migrating.ClosingValidationNeverFails | tools/plugin-release/migration.go:281-356 | With a valid report, valid carried markers and one entry per plugin, binding fails only for a report naming an already excluded plugin; the closing validation never fails, exactly the reported entries are marked and all others stay verbatim |
| Preflight.MigrationPreflight | tools/plugin-release/migration.go:28-138 | The sweep loops return the specified report, with its calibration controls, or fail exactly when the specification does |
| Preflight.SweepReportBinds | tools/plugin-release/migration.go:28-138 | Every candidate-digest report of the sweep is valid for the snapshot rendered from the same plan, evidence and previous snapshot, names exactly the planned plugins whose public tag serves another digest, and binds to a valid snapshot whenever the previous snapshot passes its own migration check |
| Preflight.RehearsalNeverBinds | tools/plugin-release/migration.go:140-172 | A rehearsal report made without candidate digests can never be bound to a snapshot |
| Preflight.PlannedRendered | tools/plugin-release/commands.go:717-732 | A planned plugin is rendered from its plan entry and its candidate evidence |
| Bootstrapping.CaptureBootstrapEvidence | tools/plugin-release/commands.go:1391-1448 | Capture classifies every eligible plugin as deferred, public or missing from VERSION and the registry answer, and fails exactly when the registry answer is neither |
| Bootstrapping.BootstrapSnapshot | tools/plugin-release/commands.go:1503-1564 | The baseline import loop returns the specified baseline or fails exactly when one plugin evidence is incomplete, mismatched or stale |
| Bootstrapping.ImportOne | tools/plugin-release/commands.go:1503-1564 | One plugin is imported with the reviewed digest, skipped as missing or deferred, or refused, as its evidence and the registry say |
| Bootstrapping.CaptureImports | tools/plugin-release/commands.go:1391-1448 | Evidence captured at a commit imports at that commit, against the same registry, exactly the plugins it classified public |
| Bootstrapping.BaselineAlwaysImports | tools/plugin-release/commands.go:1503-1564 | Capturing and then importing at one commit against a stable registry never fails |
| Bootstrapping.BaselineContents | tools/plugin-release/commands.go:1503-1564 | The baseline holds exactly the plugins classified public, at their VERSION and the digest the registry served |
| Bootstrapping.FirstPlanExists | tools/plugin-release/commands.go:577-585 | Without overrides the first plan over a captured baseline always exists |
| Bootstrapping.BootstrapCloses | tools/plugin-release/commands.go:773-807 | The first managed release renders, with its bootstrap evidence bound, if and only if no override moves a missing plugin off its VERSION, and then the backfilled plugins are exactly those classified missing |
| Genesis.BootstrapReleases | tools/plugin-release/commands.go:1391-1564 | Wherever evidence can be captured at a commit whose VERSIONs are stable or alphas, the baseline imports, the first plan without overrides exists, and for whatever candidates are built the rendered snapshot is a release step that the verifier accepts and from which a chain can go on |
| Genesis.FirstReleaseAccepted | tools/plugin-release/commands.go:626-807 | With overrides that keep missing plugins at VERSION too, the first release on top of the baseline is accepted with plan and baseline bound, and leaves a sound snapshot |
| Genesis.BaselineIsSound | tools/plugin-release/commands.go:1503-1564 | Where every VERSION is stable or an alpha, the imported baseline is sound: distinct, stable, recomputable entries with recorded provenance and no markers |
| Semver.CompareIsTotalOrder | tools/plugin-release/semver.go:35-89 | compareSemver is antisymmetric, zero only between equal versions and transitive on versions whose integer-like identifiers are canonically spelled |
| Semver.TiesExactly | tools/plugin-release/semver.go:67-89 | Two prereleases tie exactly when they are equal or first differ in two spellings of one integer |
| Semver.NonCanonicalCounterexample | tools/plugin-release/semver.go:67-89 | Outside canonical spellings transitivity fails: three prereleases tie in a row although the first is above the last |
| Semver.CompareIsSectionEleven | tools/plugin-release/semver.go:35-89 | On prereleases well formed under section 9 of Semantic Versioning 2.0.0, without leading-hyphen integer spellings, comparison is the precedence of section 11 |
| Semver.ComparePrerelease | tools/plugin-release/semver.go:67-89 | The index loop computes the identifier-wise comparison, the shorter prefix first |
| Semver.StableRoundTrip | tools/plugin-release/semver.go:20-33 | Printing a version without prerelease and parsing it back is the identity, and the printed text has no surrounding space |
| Semver.ParseTrimmed | tools/plugin-release/semver.go:20-29 | Surrounding space never changes what parseSemver returns |
| Semver.NextVersionIsLarger | tools/plugin-release/semver.go:100-125 | nextVersion succeeds exactly for a stable previous version and a parsable current one, and returns a strictly larger stable version, the larger of the current core and the patch bump |
| Semver.NextBootstrapVersionAdvances | tools/plugin-release/semver.go:127-145 | nextBootstrapVersion promotes a prerelease baseline to the core of the current version, refuses it exactly when the current version does not parse or is older, treats a stable baseline like nextVersion, and always ends strictly above the baseline |
| Availability.AlwaysServing | registry/reconcile/reconcile.go:108-184 | In every interleaving of Reconcile, Run and Stop the watcher and registry maps have equal keys, each tracked watcher runs its registry configuration, and every tracked well-formed registry that has published is in the cache without a tombstone |
| Availability.NoGap | registry/reconcile/reconcile.go:136-183 | A cached host that the new specification wants well formed and that is not exposed when Reconcile begins is in the cache at every later step up to the next Reconcile, through every stop, restart, failure, timeout and purge; exposed means that its registry is unchanged, its Run has not begun and its predecessor left a tombstone |
| Exposure.GapIffExposed | registry/reconcile/reconcile.go:101-183 | The exact condition before the call: some interleaving of the call loses a desired, well-formed, cached host if and only if the host is exposed and the watcher factory accepts every changed configuration |
| Exposure.ExposedIsLost | registry/reconcile/reconcile.go:136-183 | An exposed host is lost by letting the call stop, restart and create everything else, run all new watchers and purge before the pending Run begins |
| Exposure.RefusedKeeps | registry/reconcile/reconcile.go:149-172 | A call in which the factory refuses a changed configuration never purges, so it loses no host |
| Availability.HostLeaves | registry/reconcile/reconcile.go:101-104 | A host leaves the cache only in a purge and only when tombstoned; if a tracked well-formed registry owns it, that registry Run is pending, was started by an earlier Reconcile, and some tracked Run was pending when this one began |
| Availability.GapExactly | registry/reconcile/reconcile.go:101-104 | A purge drops the host of a tracked well-formed registry exactly when its Run has not begun and the tombstone of its predecessor is still there |
| Availability.RetryLosesHost | registry/reconcile/reconcile.go:176-181 | The gap is real: any registry given a new well-formed configuration loses its cached host when the wait times out and a retry, which finds the registry unchanged, purges before the Run begins |
| Scenarios.RetryLosesHostFromStart | registry/reconcile/reconcile.go:176-181 | The same as a run from the empty reconciler, for every two well-formed configurations of a registry |
| Availability.LiveGrows | registry/memory/cache.go:197-283 | No step except Stop takes a host out of the untombstoned set |
| Availability.OnlyPurgeRemoves | registry/memory/cache.go:260-283 | No step except the purge removes a service from the cache |
| LiveSet.LiveHosts | registry/reconcile/reconcile.go:108-184 | In every run in which no stopped watcher has published afterwards and no proxy took the name of a tombstoned host, failed and timed-out Reconciles included, the untombstoned hosts are exactly those published for tracked well-formed registries, each holding its registry wrapper |
| LiveLaw.LawStepExactly | registry/reconcile/reconcile.go:108-184 | From a state that obeys the live-set law, a step keeps the law if and only if it is neither a late Run that publishes another wrapper than the tracked registry has published, nor a proxy update under the name of a tombstoned host |
| LiveLaw.LateRunExactly | registry/direct/watcher.go:103-138 | The Run of a watcher that was stopped before it began keeps the law if and only if the registry now tracked under its key has published the very same wrapper |
| LiveLaw.LawfulRuns | registry/reconcile/reconcile.go:108-184 | Along every run the law holds as long as no step breaks it, and the first step that does ends it |
| LiveSet.ExactRuns | registry/reconcile/reconcile.go:108-184 | In every run with clean proxy names an untombstoned host either is published for a tracked registry and holds its entry, or was published by a watcher stopped before its Run began |
| LiveSet.PurgedExactly | registry/reconcile/reconcile.go:90-106 | When every Reconcile begins with the tracked Runs returned, the cache after a successful purge holds exactly the desired well-formed hosts with the desired entries |
| LiveSet.DisciplinedRuns | registry/reconcile/reconcile.go:136-183 | When every Reconcile begins with the tracked Runs returned, no watcher is ever stopped before its Run began |
| LiveSet.OrphanResurrects | registry/direct/watcher.go:103-138 | A registry deleted before its Run began comes back live after the purge, with nothing tracking it |
| Scenarios.OrphanResurrectsFromStart | registry/direct/watcher.go:103-138 | The same as a run from the empty reconciler, for every well-formed configuration |
| Scenarios.OrphanOverwrites | registry/direct/watcher.go:103-138 | A run from the empty reconciler in which a registry is updated before its old Run began: the old Run comes last and the tracked registry serves the old configuration, for every two configurations that publish differently |
| Reconciling.PcStep | registry/reconcile/reconcile.go:108-184 | Every step keeps the relation between the three work lists, the tracked registries, the desired specification and the ages of the watchers |
| Reconciling.Complete | registry/reconcile/reconcile.go:168-184 | When the work lists are empty and nothing failed, the tracked registries are exactly the desired ones |
| Reconcilers.Reconciler.DiffRegistries | registry/reconcile/reconcile.go:108-135 | The two passes yield the specification keyed by type and name, later duplicates winning, and exactly the keys to create, update and delete |
| Reconcilers.Reconciler.ReconcileProxies | registry/reconcile/reconcile.go:334-385 | Starting from agreement, the tracked proxies become the buildable new settings with unbuildable ones keeping their old settings, the purge that follows restores agreement between tracked and cached proxies, only proxy operations on wanted names touch the cache, and the handler is notified exactly when the tracked settings change |
| Reconcilers.AgreeAfter | registry/reconcile/reconcile.go:334-385 | Dropping unwanted proxies and pushing changed buildable ones, then purging, leaves the cache holding exactly the wrappers of the tracked proxies |
| Reconcilers.NotifyExact | registry/reconcile/reconcile.go:362-382 | The tracked settings change exactly when some proxy is deleted or some changed proxy can be built |
| Direct.EntryExact | registry/direct/watcher.go:142-223 | A service entry exists exactly when every comma-separated endpoint is well formed, and then holds one workload per endpoint in order |
| Direct.GenerateServiceEntry | registry/direct/watcher.go:142-223 | The endpoint loop returns the entry of the configuration, and none at the first malformed endpoint |
| Direct.AddressRoundTrip | registry/direct/watcher.go:149-176 | Static endpoints written as [address]:port or address:port are cut back into that address and port |
| Direct.HostInjective | registry/direct/watcher.go:106-106 | Distinct static and dns registries own distinct hosts |
| Direct.HandOver | registry/direct/watcher.go:103-138 | Stopping a watcher and running its replacement on the same host without a purge between keeps the host throughout, with the new entry and the original creation time |
| Direct.AutomaticSni | registry/direct/watcher.go:259-266 | The server name that a dns registry with one endpoint gets automatically is the address of that endpoint |
| Direct.Watcher.Run | registry/direct/watcher.go:103-130 | Run publishes the entry of a well-formed configuration under its host, with its TLS destination rule and upstream proxy, leaves the cache alone for a malformed one, and signals ready |
| Direct.Watcher.Stop | registry/direct/watcher.go:132-138 | Stop tombstones the host if it is cached and changes nothing else |
| ServiceCache.Store.UpdateServiceWrapper | registry/memory/cache.go:197-217 | An update stores the wrapper, keeps the creation time of what it replaces, cancels a pending delete and records the push |
| ServiceCache.Store.DeleteServiceWrapper | registry/memory/cache.go:219-227 | A delete of a present service only tombstones it; a missing service is ignored |
| ServiceCache.Store.UpdateProxyWrapper | registry/memory/cache.go:229-248 | A proxy update stores the wrapper and clears the service tombstone of the same name |
| ServiceCache.Store.DeleteProxyWrapper | registry/memory/cache.go:250-258 | A delete of a present proxy only tombstones it |
| ServiceCache.Store.PurgeStaleItems | registry/memory/cache.go:260-283 | The purge removes exactly the tombstoned services and proxies, clears both tombstone sets and reports whether there was any |
| ServiceCache.UpdateCancelsDelete | registry/memory/cache.go:197-283 | A delete followed by an update before the purge deletes nothing, whatever other operations come between |
| ServiceCache.NothingLeavesBeforePurge | registry/memory/cache.go:197-258 | Up to the next purge no service leaves the cache and no creation time changes, over any run of operations |
| ServiceCache.TombstonesStayPresent | registry/memory/cache.go:197-283 | Over any run of operations tombstones stand only on cached items |
| ServiceCache.ProxyUpdateCancelsTheWrongDelete | registry/memory/cache.go:242-246 | Proxies lack that guarantee: a deleted and updated proxy is still purged, while the update revives a deleted service of the same name |
| Endpoints.GetServiceByEndpoints | registry/memory/cache.go:289-327 | The answer maps exactly the service keys with a matching workload, each to the strictly ascending list of exactly the requested versions such workloads carry |
| Endpoints.AnswerUnique | registry/memory/cache.go:289-327 | That contract determines the answer, so it does not depend on map iteration order |
| Endpoints.Dedup | registry/memory/cache.go:314-325 | The two-index loop leaves in the prefix of a sorted array each distinct value once, in order |
| ListenerPorts.FillProxyListenerPorts | registry/proxy/factory.go:117-142 | Filling in place keeps existing ports and gives the lowest free port in 50001 to 50999 to the first proxy that lacks one, until proxies or ports run out; the result says whether anything was assigned |
| ListenerPorts.NeedToFillProxyListenerPorts | registry/proxy/factory.go:105-115 | A fill is needed exactly when some proxy has no port |
| ListenerPorts.SecondFillChangesNothing | registry/reconcile/reconcile.go:76-88 | A second fill of a filled list changes nothing, so the save-and-return step happens at most once per specification |
| ListenerPorts.AllocationUnique | registry/proxy/factory.go:117-142 | The allocation is determined by the input ports |
| ListenerPorts.AssignedCount | registry/proxy/factory.go:117-142 | The number of ports assigned is the smaller of the number of proxies without a port and the number of free ports in range |
| ListenerPorts.Conserved | registry/proxy/factory.go:117-142 | Each assignment turns one missing port into one used port of the range |
| ListenerPorts.FreeBefore | registry/proxy/factory.go:117-142 | A newly assigned port is in range, was used by no proxy before and goes to no earlier proxy |
| Zookeeper.RunAgrees | registry/zookeeper/watcher.go:307-376 | After any run of data changes, child listings and purges, every tracked host whose configuration generates an endpoint is in the cache, not tombstoned, holding exactly the generated entry |
| Zookeeper.Watcher.DataChange | registry/zookeeper/watcher.go:307-376 | An add or update leaves the host tracked with the endpoint appended if its address is new and served from the cache; a delete drops that address and then serves the rest, tombstones the host, or keeps it when stale entries are kept; other hosts are untouched |
| Zookeeper.Watcher.ChildToServiceEntry | registry/zookeeper/watcher.go:546-587 | The tracked map takes over all listed configurations, every new or changed one is served from the cache, and unchanged or unlisted hosts are untouched |
| Zookeeper.GenerateServiceEntry | registry/zookeeper/watcher.go:628-666 | The entry holds one workload per endpoint with a port in 1 to 65535, in order, and the service port of the first of them |
| Zookeeper.WorkloadsAre | registry/zookeeper/watcher.go:632-657 | A workload is generated exactly for each endpoint with a port in 1 to 65535, with its address, labels and protocol |
| Zookeeper.PortOfFirst | registry/zookeeper/watcher.go:632-657 | A service port is published exactly when some endpoint is usable, and it is the port of the first usable one |
| Zookeeper.AddThenDelete | registry/zookeeper/watcher.go:315-357 | Adding a new address to a tracked host and deleting it again restores the tracked configuration |
| Normalising.Idempotent | hgctl/pkg/helm/recover.go:160-176 | Normalising an already normalised profile succeeds and changes nothing |
| Normalising.SucceedsExactly | hgctl/pkg/helm/recover.go:183-312 | Normalisation succeeds exactly when every owned path is absent or holds a value of its type |
| Normalising.NormalisedLeaves | hgctl/pkg/helm/recover.go:160-176 | Exactly the owned leaves leave the raw values; every other leaf stays as it was |
| Normalising.NormalisedUnique | hgctl/pkg/helm/recover.go:160-176 | The normalised values are the only tree without empty maps that holds the unowned leaves |
| Normalising.ConsumedOwners | hgctl/pkg/helm/recover.go:164-173 | Whatever earlier owners consumed, an owner still to come sees what the input held at its path, and a consumed path stays absent |
| InstallModes.ModeRecovered | hgctl/pkg/helm/recover.go:314-336 | When the install signals name a profile and the baseline is that profile, normalisation ends in the same profile and install mode |
| InstallModes.KindWins | hgctl/pkg/helm/recover.go:314-336 | Conflicting install signals are refused before recovery; normalisation alone would follow global.kind |
| InstallModes.NamespaceRecovered | hgctl/pkg/helm/recover.go:192-199 | The release namespace among the raw values is consumed into the profile, and otherwise the profile keeps its own |
| Recovering.PrefixFree | hgctl/pkg/helm/recover.go:183-312 | No owned path lies at or below another |
| Recovering.Profile.NormalizeRecoveredProfileValues | hgctl/pkg/helm/recover.go:160-176 | On success the profile is the normalised one; on failure it is left as some first owners had made it, and failure happens exactly when normalisation is undefined |
| Recovering.SetTypedExact | hgctl/pkg/helm/recover.go:183-312 | A setter accepts exactly the values of its type, never a map |
| Recovering.SplitJoin | hgctl/pkg/helm/recover.go:377-403 | Paths of non-empty dot-free keys are recovered by splitting their joined names |
| Reporting.ReportExact | hgctl/pkg/helm/recover.go:338-363 | The names of the leaves left after normalisation are exactly those reported beforehand, if and only if no unowned leaf is joined to an owned name or to the empty name |
| Reporting.PlainNeverCollides | hgctl/pkg/helm/recover.go:348-363 | Values with non-empty dot-free keys meet that condition |
| Reporting.DottedKeyUnreported | hgctl/pkg/helm/recover.go:348-363 | A top-level key that spells out an owned path is neither consumed nor reported, for every owner |
| Reporting.CollectLeafPaths | hgctl/pkg/helm/recover.go:348-363 | The report names each unowned leaf once, and nothing else, whatever order the maps are walked in |
| Reporting.UnsupportedRetainedValuePaths | hgctl/pkg/helm/recover.go:338-346 | The report over the whole values, with the owned names of all typed settings |
| HelmRendering.ResourcesKept | hgctl/pkg/helm/profile.go:286-371 | Normalisation leaves the rendered value at each of the twelve resource paths unchanged, whether raw, typed, blocked by a leaf above or removed by a null |
| HelmRendering.LeavesKept | hgctl/pkg/helm/profile.go:286-371 | Every unowned leaf that is not null is rendered as it stands, before and after normalisation |
| HelmRendering.BlockedKept | hgctl/pkg/helm/recover.go:160-176 | Normalisation neither adds nor removes a leaf above an owned path |
| FlagRendering.NullsKept | hgctl/pkg/helm/profile.go:286-371 | At an unowned null leaf the rendered values agree before and after normalisation if and only if the profile was in a cluster already, or no install signal is among the raw values, or the leaf lies above no flag |
| FlagRendering.NullsDiffer | hgctl/pkg/helm/profile.go:286-371 | Outside a cluster they do differ: higress-console set to null beside global.local renders no console settings before and the typed ones after |
| FlagRendering.FlagsKept | hgctl/pkg/helm/profile.go:57-68 | A consumed flag is rendered raw before normalisation; afterwards it is rendered as its typed field writes it if the profile ends up in a cluster, and not at all otherwise |
| FlagRendering.EndExactly | hgctl/pkg/helm/recover.go:215-244 | Normalisation ends in an in-cluster install mode exactly when it started in one or an install signal is among the raw values |
| FlagRendering.RetypedSame | hgctl/pkg/helm/recover.go:433-461 | The two renderings write the same value exactly for booleans, replica counts given as a float or as an integer below 2^32, and ingress classes that parse as themselves |
| HelmValues.GetNested | hgctl/pkg/helm/recover.go:377-390 | Walking the dotted path in a loop finds the node at the split path, or nothing |
| HelmValues.RemoveLeaves | hgctl/pkg/helm/recover.go:392-403 | Removal takes away the leaves at and below the path and no other leaf |
| HelmValues.RemoveGone | hgctl/pkg/helm/recover.go:392-403 | After removal there is no node at the path |
| HelmValues.DeleteEmptyMaps | hgctl/pkg/helm/recover.go:405-412 | The recursive loop returns the pruned tree and says whether nothing is left |
| HelmValues.PruneLeaves | hgctl/pkg/helm/recover.go:405-412 | Pruning empty maps keeps every leaf |
| HelmValues.PrunedUnique | hgctl/pkg/helm/recover.go:405-412 | Two trees without empty maps that have the same leaves are equal |
| HelmValues.PruneTwice | hgctl/pkg/helm/recover.go:405-412 | Pruning twice is pruning once |
| HelmValues.LeafWins | hgctl/pkg/util/yaml.go:162-196 | Under the merge of RFC 7386 a leaf of the overlay decides its path: null removes the node, any other leaf is the result |
| HelmValues.ShowsThrough | hgctl/pkg/util/yaml.go:162-196 | Where the overlay has no node the base shows through, unless a leaf of the overlay lies above |
| OverlayDiff.CollectOverlayDiffPaths | hgctl/pkg/helm/common.go:230-252 | The list names each overlay leaf that differs from the baseline once, and nothing else |
| OverlayDiff.UnsupportedLocalDockerUpgradeOverlayPaths | hgctl/pkg/helm/common.go:200-228 | The result is the sorted list of those names without the two that a local-docker upgrade consumes |
| OverlayDiff.EmptyIffUnchanged | hgctl/pkg/helm/common.go:230-252 | For overlays without empty maps or null leaves, no name is listed if and only if merging the overlay leaves the baseline unchanged |
| OverlayDiff.UnreportedChanges | hgctl/pkg/helm/common.go:230-252 | Both restrictions are needed: an empty map adds a key and a null drops one without a name being listed |

## Left out

- Git processes: changedPaths is every path whose content differs or exists on one side only, while `git diff --name-only` may list only the new name of a detected rename; references are full commit ids.
- OCI and ORAS calls, their retries and the classification of their errors: the registry is a function with the four answers resolved, absent, unauthorized and other, and the verifier runs with OCI resolution off.
- SHA-256 and JSON or YAML encoding: hashes are compared by what was hashed, which assumes no collisions.
- Catalog checks that read the file system, consumer inventories and Console bundles: the model checks identifiers, paths, images and groups.
- Overflow of version components and of 64-bit integers in Go: numbers are unbounded, except the 32-bit replica fields and the port ranges, which are written out.
- Emergency overwrites, workflow contracts, Markdown reports and command-line parsing of the release tool.
- Chains.VersionsMonotone: covers stretches in which the plugin stays in every snapshot; a plugin that leaves the catalog and comes back starts anew.
- Chains.FreshnessKept: excludes deferred plugins, because deferral skips change detection in the source.
- ListenerPorts.FillProxyListenerPorts: takes the proxies of one decoded specification, which are distinct objects.
- Registry keys: the key of a registry is its type and name as a pair; the cleaning that `path.Join` applies to odd names is not modelled.
- Direct.GenerateServiceEntry: which texts are IP addresses is a parameter.
- Reconcile calls are serial, as the controller issues them; two concurrent calls are not modelled.
- Reconcilers.Reconciler.ReconcileProxies: the envoy filter inside a proxy wrapper is not modelled, so an error while building it, which the source also skips, does not occur.
- Nacos, consul and eureka clients, timers, connection handling and fetching in the zookeeper watcher; events and child listings arrive parsed, each event with at least one endpoint.
- Zookeeper.RunAgrees: runs without Stop and without other writers to the tracked hosts.
- RemoveEndpointByIp, the address index and the incremental push readers of the cache: they would only add easy members.
- HelmValues.RemoveLeaves: nested Go maps are values here, so aliasing between nested maps and update in place below the top are not captured.
- HelmRendering.LeavesKept: speaks of leaves that are not null; null leaves are FlagRendering.NullsKept.
- FlagRendering.FlagsKept: leaves out `global.local`, `global.kind` and `global.namespace`, whose rendered form changes on purpose; the text parser behind the ingress class is a parameter.
- Decoding profiles from YAML, profile validation, source version classification and loading the baseline profile: easy members or file access.
- Lists inside Helm values are opaque leaves, as every modelled operation treats them.
- Certificates, bootstrap, controllers, the other hgctl commands and generated code of the repository.
