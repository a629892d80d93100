/** buildPlan and applyPlan: which plugins a release rebuilds, and under which version. */
module Planning {
  import opened Wrappers
  import opened Text
  import opened Semver
  import opened ReleaseModel
  import opened Inputs

  datatype PlanInput = PlanInput(
    repo: Repo,
    catalog: Catalog,
    previous: Option<Snapshot>,
    baseRef: string,
    target: string,
    gatewayVersion: string,
    overrides: map<string, string>)

  /** What every pass of the plugin loop reads. */
  datatype Context = Context(
    catalog: Catalog,
    bootstrap: bool,
    previous: map<string, SnapshotEntry>,
    based: bool,
    tree: Tree,
    paths: seq<string>,
    overrides: map<string, string>)

  datatype Decision = Skip | Defer(deferral: DeferredPlugin) | Select(entry: PlanEntry)

  // ---- One plugin ---------------------------------------------------------------

  predicate Relevant(ctx: Context, p: Plugin, path: string) {
    InputMatches(ctx.catalog, p, path) || path == VersionPath(p)
  }

  function RelevantPaths(ctx: Context, p: Plugin, paths: seq<string>): (r: seq<string>)
    ensures forall path :: path in r <==> path in paths && Relevant(ctx, p, path)
  {
    if paths == [] then []
    else
      var last := paths[|paths| - 1];
      assert paths == paths[..|paths| - 1] + [last];
      RelevantPaths(ctx, p, paths[..|paths| - 1]) + if Relevant(ctx, p, last) then [last] else []
  }

  /** The VERSION edit a managed preparation wrote itself. */
  predicate Restates(ctx: Context, p: Plugin, current: string) {
    p.logicalId in ctx.previous && !ctx.bootstrap && current == ctx.previous[p.logicalId].version
  }

  predicate Affected(ctx: Context, p: Plugin, current: string) {
    || !ctx.based
    || p.logicalId in ctx.overrides
    || p.logicalId !in ctx.previous
    || (ctx.bootstrap && !Stable(ctx.previous[p.logicalId].version))
    || Signals(RelevantPaths(ctx, p, ctx.paths), Restates(ctx, p, current), VersionPath(p))
  }

  /** Some changed path is more than the preparation's own VERSION edit. */
  predicate Signals(changed: seq<string>, restates: bool, versionPath: string) {
    exists i :: 0 <= i < |changed| && IsSignal(changed[i], restates, versionPath)
  }

  predicate IsSignal(path: string, restates: bool, versionPath: string) {
    !(restates && path == versionPath)
  }

  method AnySignal(changed: seq<string>, restates: bool, versionPath: string) returns (affected: bool)
    ensures affected <==> Signals(changed, restates, versionPath)
  {
    affected := false;
    for i := 0 to |changed|
      invariant affected <==> exists j :: 0 <= j < i && IsSignal(changed[j], restates, versionPath)
    {
      if IsSignal(changed[i], restates, versionPath) {
        affected := true;
      }
    }
  }

  function ChooseVersion(ctx: Context, id: string, current: string): Option<string> {
    var chosen :-
      if id !in ctx.previous then Some(current)
      else if ctx.bootstrap then NextBootstrapVersion(ctx.previous[id].version, current)
      else NextVersion(ctx.previous[id].version, current);
    if id !in ctx.overrides then Some(chosen)
    else if AllowedOverride(ctx, id) then Some(ctx.overrides[id])
    else None
  }

  predicate AllowedOverride(ctx: Context, id: string)
    requires id in ctx.overrides
  {
    && Stable(ctx.overrides[id])
    && (id in ctx.previous && ParseSemver(ctx.previous[id].version).Some? ==>
          CompareSemver(ParseSemver(ctx.overrides[id]).value, ParseSemver(ctx.previous[id].version).value) > 0)
  }

  /** VERSION at the target, if it is there and parses. */
  function CurrentVersion(t: Tree, p: Plugin): Option<string> {
    if VersionPath(p) in t && ParseSemver(TrimSpace(t[VersionPath(p)])).Some? then Some(TrimSpace(t[VersionPath(p)]))
        else None
  }

  predicate IsAlpha(version: string) {
    ParseSemver(version).Some? && IsAlphaPrerelease(ParseSemver(version).value.prerelease)
  }

  function NewEntry(ctx: Context, p: Plugin, version: string, hash: InputHash): PlanEntry {
    PlanEntry(p.logicalId, p.implementation, p.sourceDir, p.image,
              if p.logicalId in ctx.previous then ctx.previous[p.logicalId].version else "",
              version, hash, RelevantPaths(ctx, p, ctx.paths),
              ctx.bootstrap && p.logicalId !in ctx.previous)
  }

  /** One pass of buildPlan's loop; `None` is an error return. */
  ghost function Decide(ctx: Context, p: Plugin): (d: Option<Decision>)
    ensures d.Some? && !d.value.Skip? ==> p.releaseEligible
    ensures d.Some? && d.value.Select? ==> d.value.entry.logicalId == p.logicalId
    ensures d.Some? && d.value.Defer? ==> d.value.deferral.logicalId == p.logicalId
  {
    if !p.releaseEligible then Some(Skip)
    else
      var current :- CurrentVersion(ctx.tree, p);
      if IsAlpha(current) then Some(Defer(DeferredPlugin(p.logicalId, current, "alpha-prerelease")))
      else if ctx.bootstrap && p.logicalId in ctx.previous && ParseSemver(ctx.previous[p.logicalId].version).None?
          then None
      else if !Affected(ctx, p, current) then Some(Skip)
      else
        var version :- ChooseVersion(ctx, p.logicalId, current);
        Some(Select(NewEntry(ctx, p, version, HashOf(ctx.tree, version, ctx.catalog, p))))
  }

  method DecidePlugin(ctx: Context, p: Plugin) returns (r: Result<Decision>)
    ensures r.ToOption() == Decide(ctx, p)
  {
    hide ParseSemver, Relevant, ChooseVersion, RelevantPaths, HashOf;
    if !p.releaseEligible {
      return Success(Skip);
    }
    if CurrentVersion(ctx.tree, p).None? {
      return Failure("VERSION is missing or not a semantic version");
    }
    var current := CurrentVersion(ctx.tree, p).value;
    if IsAlpha(current) {
      return Success(Defer(DeferredPlugin(p.logicalId, current, "alpha-prerelease")));
    }
    var changed := CollectRelevant(ctx, p);
    var hasPrevious := p.logicalId in ctx.previous;
    var signalled := AnySignal(changed, Restates(ctx, p, current), VersionPath(p));
    var affected := !ctx.based || p.logicalId in ctx.overrides || signalled;
    if ctx.bootstrap && hasPrevious {
      if ParseSemver(ctx.previous[p.logicalId].version).None? {
        return Failure("previous bootstrap version");
      }
      affected := affected || !Stable(ctx.previous[p.logicalId].version);
    }
    if !hasPrevious {
      affected := true;
    }
    if !affected {
      return Success(Skip);
    }
    if ChooseVersion(ctx, p.logicalId, current).None? {
      return Failure("no version can be chosen");
    }
    var version := ChooseVersion(ctx, p.logicalId, current).value;
    var hash := ComputeInputHash(ctx.tree, version, ctx.catalog, p);
    return Success(Select(NewEntry(ctx, p, version, hash)));
  }

  method CollectRelevant(ctx: Context, p: Plugin) returns (changed: seq<string>)
    ensures changed == RelevantPaths(ctx, p, ctx.paths)
  {
    hide InputMatches, VersionPath;
    changed := [];
    for i := 0 to |ctx.paths|
      invariant changed == RelevantPaths(ctx, p, ctx.paths[..i])
    {
      assert ctx.paths[..i + 1][..i] == ctx.paths[..i];
      var matches := PluginInputMatches(ctx.catalog, p, ctx.paths[i]);
      if matches || ctx.paths[i] == VersionPath(p) {
        changed := changed + [ctx.paths[i]];
      }
    }
    assert ctx.paths[..|ctx.paths|] == ctx.paths;
  }

  // ---- The loop over the catalog ------------------------------------------------

  ghost predicate SortedIds(ps: seq<Plugin>) {
    forall i, j :: 0 <= i < j < |ps| ==> StrLt(ps[i].logicalId, ps[j].logicalId)
  }

  ghost predicate DistinctIds(ps: seq<Plugin>) {
    forall i, j :: 0 <= i < j < |ps| ==> ps[i].logicalId != ps[j].logicalId
  }

  function InsertPlugin(p: Plugin, ps: seq<Plugin>): (r: seq<Plugin>)
    ensures forall q :: q in r <==> q == p || q in ps
  {
    if ps == [] || StrLt(p.logicalId, ps[0].logicalId) then [p] + ps
    else
      assert ps == [ps[0]] + ps[1..];
      [ps[0]] + InsertPlugin(p, ps[1..])
  }

  /** `sort.Slice` by logicalId. */
  function SortPlugins(ps: seq<Plugin>): (r: seq<Plugin>)
    ensures forall q :: q in r <==> q in ps
  {
    if ps == [] then [] else
      assert ps == [ps[0]] + ps[1..];
      InsertPlugin(ps[0], SortPlugins(ps[1..]))
  }

  lemma {:induction false} InsertPluginSorted(p: Plugin, ps: seq<Plugin>)
    requires SortedIds(ps) && forall q :: q in ps ==> q.logicalId != p.logicalId
    ensures SortedIds(InsertPlugin(p, ps))
  {
    if ps != [] && StrLt(p.logicalId, ps[0].logicalId) {
      forall i | 0 <= i < |ps|
        ensures StrLt(p.logicalId, ps[i].logicalId)
      {
        if i > 0 { StrLtTrans(p.logicalId, ps[0].logicalId, ps[i].logicalId); }
      }
    } else if ps != [] {
      StrLtTotal(p.logicalId, ps[0].logicalId);
      InsertPluginSorted(p, ps[1..]);
      assert forall q :: q in ps[1..] ==> StrLt(ps[0].logicalId, q.logicalId);
      assert forall q :: q in InsertPlugin(p, ps[1..]) ==> StrLt(ps[0].logicalId, q.logicalId);
    }
  }

  lemma {:induction false} SortPluginsSorted(ps: seq<Plugin>)
    requires DistinctIds(ps)
    ensures SortedIds(SortPlugins(ps))
  {
    if ps != [] {
      SortPluginsSorted(ps[1..]);
      forall q | q in SortPlugins(ps[1..])
        ensures q.logicalId != ps[0].logicalId
      {
        var i :| 0 <= i < |ps[1..]| && ps[1..][i] == q;
        assert ps[i + 1] == q;
      }
      InsertPluginSorted(ps[0], SortPlugins(ps[1..]));
    }
  }

  lemma SortedIdsDistinct(ps: seq<Plugin>)
    requires SortedIds(ps)
    ensures DistinctIds(ps)
  {
    forall i, j | 0 <= i < j < |ps|
      ensures ps[i].logicalId != ps[j].logicalId
    {
      StrLtTotal(ps[i].logicalId, ps[j].logicalId);
    }
  }

  ghost predicate Decidable(ctx: Context, ps: seq<Plugin>) {
    forall i :: 0 <= i < |ps| ==> Decide(ctx, ps[i]).Some?
  }

  ghost function Entries(ctx: Context, ps: seq<Plugin>): seq<PlanEntry> {
    if ps == [] then []
    else
      var d := Decide(ctx, ps[|ps| - 1]);
      Entries(ctx, ps[..|ps| - 1]) + if d.Some? && d.value.Select? then [d.value.entry] else []
  }

  ghost function Deferrals(ctx: Context, ps: seq<Plugin>): seq<DeferredPlugin> {
    if ps == [] then []
    else
      var d := Decide(ctx, ps[|ps| - 1]);
      Deferrals(ctx, ps[..|ps| - 1]) + if d.Some? && d.value.Defer? then [d.value.deferral] else []
  }

  /** The comparison base: the previous release, or the explicit base a bootstrap demands. */
  function ResolveBase(input: PlanInput, previous: Snapshot): Option<string> {
    var explicit := input.baseRef != "";
    var ref := if explicit then input.baseRef else previous.sourceCommit;
    if (previous.provenanceMode == BOOTSTRAP_PUBLIC) != explicit then None
    else if ref == "" then Some("")
    else if ref !in input.repo.commits then None
    else if explicit && (!IsCommit(ref) || (ref, input.target) !in input.repo.ancestors) then None
    else Some(ref)
  }

  ghost function ContextOf(input: PlanInput, previous: Snapshot, base: string): Context
    requires input.target in input.repo.commits
    requires base == "" || base in input.repo.commits
  {
    var t := input.repo.commits[input.target];
    Context(input.catalog, previous.provenanceMode == BOOTSTRAP_PUBLIC, EntryMap(previous.plugins), base != "", t,
            if base == "" then [] else Ascending(Diff(input.repo.commits[base], t)), input.overrides)
  }

  ghost predicate HasEntry(entries: seq<PlanEntry>, id: string) {
    exists i :: 0 <= i < |entries| && entries[i].logicalId == id
  }

  ghost predicate OverridesPlanned(overrides: map<string, string>, entries: seq<PlanEntry>) {
    forall id :: id in overrides ==> HasEntry(entries, id)
  }

  ghost predicate Plannable(input: PlanInput) {
    && ParseSemver(input.gatewayVersion).Some?
    && ValidCatalog(input.catalog)
    && input.previous.Some?
    && input.target in input.repo.commits
    && ResolveBase(input, input.previous.value).Some?
  }

  ghost function InputContext(input: PlanInput): Context
    requires Plannable(input)
  {
    ContextOf(input, input.previous.value, ResolveBase(input, input.previous.value).value)
  }

  ghost function PlanOf(input: PlanInput): Option<Plan> {
    if !Plannable(input) then None
    else
      var ctx, ps := InputContext(input), SortPlugins(input.catalog.plugins);
      if !Decidable(ctx, ps) || !OverridesPlanned(input.overrides, Entries(ctx, ps)) then None
      else
        var body := PlanBody(1, input.gatewayVersion, input.target, ResolveBase(input, input.previous.value).value,
                             input.previous.value.gatewayVersion, Sha256(input.catalog), Entries(ctx, ps),
                                 Deferrals(ctx, ps));
        Some(Plan(body, Sha256(body)))
  }

  method PlanLoop(ctx: Context, plugins: seq<Plugin>) returns (r: Result<(seq<PlanEntry>, seq<DeferredPlugin>)>)
    ensures r.Success? <==> Decidable(ctx, plugins)
    ensures r.Success? ==> r.value == (Entries(ctx, plugins), Deferrals(ctx, plugins))
  {
    hide Decide;
    var entries, deferred := [], [];
    for i := 0 to |plugins|
      invariant Decidable(ctx, plugins[..i])
      invariant entries == Entries(ctx, plugins[..i])
      invariant deferred == Deferrals(ctx, plugins[..i])
    {
      assert plugins[..i + 1][..i] == plugins[..i];
      var d := DecidePlugin(ctx, plugins[i]);
      if d.Failure? {
        return Failure(d.error);
      }
      match d.value
      case Skip =>
      case Defer(deferral) => deferred := deferred + [deferral];
      case Select(entry) => entries := entries + [entry];
    }
    assert plugins[..|plugins|] == plugins;
    return Success((entries, deferred));
  }

  method BuildPlan(input: PlanInput) returns (r: Result<Plan>)
    ensures r.ToOption() == PlanOf(input)
  {
    hide Decide, Entries, Deferrals, Decidable, ParseSemver, ValidCatalog, SortPlugins;
    if ParseSemver(input.gatewayVersion).None? || !ValidCatalog(input.catalog) {
      return Failure("gateway version or catalog");
    }
    if input.previous.None? {
      return Failure("no previous snapshot");
    }
    var previous := input.previous.value;
    if input.target !in input.repo.commits || ResolveBase(input, previous).None? {
      return Failure("unresolved commit");
    }
    var base := ResolveBase(input, previous).value;
    var t := input.repo.commits[input.target];
    var paths: seq<string> := [];
    if base != "" {
      paths := ChangedPaths(input.repo.commits[base], t);
    }
    var ctx := Context(input.catalog, previous.provenanceMode == BOOTSTRAP_PUBLIC, EntryMap(previous.plugins),
        base != "", t,
                       paths, input.overrides);
    var r' := PlanLoop(ctx, SortPlugins(input.catalog.plugins));
    if r'.Failure? {
      return Failure(r'.error);
    }
    var (entries, deferred) := r'.value;
    var known := OverridesKnown(input.overrides, entries);
    if !known {
      return Failure("override references a deferred, unknown or release-ineligible plugin");
    }
    var body := PlanBody(1, input.gatewayVersion, input.target, base, previous.gatewayVersion, Sha256(input.catalog),
        entries, deferred);
    return Success(Plan(body, Sha256(body)));
  }

  method OverridesKnown(overrides: map<string, string>, entries: seq<PlanEntry>) returns (known: bool)
    ensures known <==> OverridesPlanned(overrides, entries)
  {
    var rest := overrides.Keys;
    while rest != {}
      invariant rest <= overrides.Keys
      invariant forall id :: id in overrides && id !in rest ==> HasEntry(entries, id)
      decreases |rest|
    {
      var id :| id in rest;
      var found := false;
      for i := 0 to |entries|
        invariant found <==> exists j :: 0 <= j < i && entries[j].logicalId == id
      {
        found := found || entries[i].logicalId == id;
      }
      if !found {
        return false;
      }
      rest := rest - {id};
    }
    return true;
  }

  // ---- What a plan contains -----------------------------------------------------

  function PlanMap(entries: seq<PlanEntry>): (m: map<string, PlanEntry>)
    ensures forall id :: id in m ==> m[id] in entries && m[id].logicalId == id
    ensures forall e :: e in entries ==> e.logicalId in m
  {
    if entries == [] then map[]
    else
      var last := entries[|entries| - 1];
      assert entries == entries[..|entries| - 1] + [last];
      PlanMap(entries[..|entries| - 1])[last.logicalId := last]
  }

  lemma {:induction false} EntriesSorted(ctx: Context, ps: seq<Plugin>)
    requires SortedIds(ps)
    ensures forall i, j :: 0 <= i < j < |Entries(ctx, ps)| ==>
              StrLt(Entries(ctx, ps)[i].logicalId, Entries(ctx, ps)[j].logicalId)
    ensures forall e :: e in Entries(ctx, ps) ==>
              exists p :: p in ps && Decide(ctx, p) == Some(Select(e)) && p.logicalId == e.logicalId
  {
    hide Decide;
    if ps != [] {
      var init, last := ps[..|ps| - 1], ps[|ps| - 1];
      assert ps == init + [last];
      EntriesSorted(ctx, init);
      var es := Entries(ctx, init);
      forall i | 0 <= i < |es|
        ensures StrLt(es[i].logicalId, last.logicalId)
      {
        assert es[i] in es;
        var p :| p in init && Decide(ctx, p) == Some(Select(es[i])) && p.logicalId == es[i].logicalId;
        var k :| 0 <= k < |init| && init[k] == p;
        assert ps[k] == p && ps[|ps| - 1] == last;
      }
    }
  }

  lemma {:induction false} EntriesComplete(ctx: Context, ps: seq<Plugin>, p: Plugin)
    requires p in ps && Decide(ctx, p).Some? && Decide(ctx, p).value.Select?
    ensures Decide(ctx, p).value.entry in Entries(ctx, ps)
  {
    hide Decide;
    var init, last := ps[..|ps| - 1], ps[|ps| - 1];
    assert ps == init + [last];
    if p != last { EntriesComplete(ctx, init, p); }
  }

  lemma {:induction false} DeferralsSorted(ctx: Context, ps: seq<Plugin>)
    requires SortedIds(ps)
    ensures forall i, j :: 0 <= i < j < |Deferrals(ctx, ps)| ==>
              StrLt(Deferrals(ctx, ps)[i].logicalId, Deferrals(ctx, ps)[j].logicalId)
    ensures forall d :: d in Deferrals(ctx, ps) ==>
              exists p :: p in ps && Decide(ctx, p) == Some(Defer(d)) && p.logicalId == d.logicalId
  {
    hide Decide;
    if ps != [] {
      var init, last := ps[..|ps| - 1], ps[|ps| - 1];
      assert ps == init + [last];
      DeferralsSorted(ctx, init);
      var ds := Deferrals(ctx, init);
      forall i | 0 <= i < |ds|
        ensures StrLt(ds[i].logicalId, last.logicalId)
      {
        assert ds[i] in ds;
        var p :| p in init && Decide(ctx, p) == Some(Defer(ds[i])) && p.logicalId == ds[i].logicalId;
        var k :| 0 <= k < |init| && init[k] == p;
        assert ps[k] == p && ps[|ps| - 1] == last;
      }
    }
  }

  lemma {:induction false} DeferralsComplete(ctx: Context, ps: seq<Plugin>, p: Plugin)
    requires p in ps && Decide(ctx, p).Some? && Decide(ctx, p).value.Defer?
    ensures Decide(ctx, p).value.deferral in Deferrals(ctx, ps)
  {
    hide Decide;
    var init, last := ps[..|ps| - 1], ps[|ps| - 1];
    assert ps == init + [last];
    if p != last { DeferralsComplete(ctx, init, p); }
  }

  /** A plan decides every catalog plugin, and holds exactly the selected and deferred ones. */
  lemma PlanContents(input: PlanInput, plan: Plan, p: Plugin)
    requires PlanOf(input) == Some(plan) && p in input.catalog.plugins
    ensures Decide(InputContext(input), p).Some?
    ensures p.logicalId in PlanMap(plan.body.plugins) <==> Decide(InputContext(input), p).value.Select?
    ensures p.logicalId in PlanMap(plan.body.plugins) ==>
              Decide(InputContext(input), p) == Some(Select(PlanMap(plan.body.plugins)[p.logicalId]))
    ensures forall d :: d in plan.body.deferred && d.logicalId == p.logicalId ==>
              Decide(InputContext(input), p) == Some(Defer(d))
    ensures Decide(InputContext(input), p).value.Defer? ==>
              Decide(InputContext(input), p).value.deferral in plan.body.deferred
  {
    hide Decide, Entries, Deferrals, ParseSemver, ResolveBase, SortPlugins;
    var ctx, ps := InputContext(input), SortPlugins(input.catalog.plugins);
    SortPluginsSorted(input.catalog.plugins);
    SortedIdsDistinct(ps);
    EntriesSorted(ctx, ps);
    DeferralsSorted(ctx, ps);
    var k :| 0 <= k < |ps| && ps[k] == p;
    assert Decide(ctx, ps[k]).Some?;
    assert forall q :: q in ps && q.logicalId == p.logicalId ==> q == p;
    if Decide(ctx, p).value.Select? { EntriesComplete(ctx, ps, p); }
    if Decide(ctx, p).value.Defer? { DeferralsComplete(ctx, ps, p); }
  }

  lemma PlanIds(input: PlanInput, plan: Plan)
    requires PlanOf(input) == Some(plan)
    ensures forall i, j :: 0 <= i < j < |plan.body.plugins| ==>
              StrLt(plan.body.plugins[i].logicalId, plan.body.plugins[j].logicalId)
    ensures forall i, j :: 0 <= i < j < |plan.body.deferred| ==>
              StrLt(plan.body.deferred[i].logicalId, plan.body.deferred[j].logicalId)
    ensures forall e :: e in plan.body.plugins ==>
              exists p :: p in input.catalog.plugins && p.releaseEligible && p.logicalId == e.logicalId
    ensures forall d :: d in plan.body.deferred ==>
              exists p :: p in input.catalog.plugins && p.releaseEligible && p.logicalId == d.logicalId
  {
    hide Decide, Entries, Deferrals, ParseSemver, ResolveBase, SortPlugins;
    var ctx, ps := InputContext(input), SortPlugins(input.catalog.plugins);
    SortPluginsSorted(input.catalog.plugins);
    EntriesSorted(ctx, ps);
    DeferralsSorted(ctx, ps);
  }
}
