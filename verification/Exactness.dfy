/** With plan and previous snapshot bound, acceptance leaves almost no freedom. */
module Exactness {
  import opened Wrappers
  import opened Text
  import opened Semver
  import opened ReleaseModel
  import opened Inputs
  import opened Planning
  import opened Rendering
  import opened Migrating
  import opened Verifying

  lemma {:induction false} DeferredMapIn(t: Tree, ps: seq<Plugin>, id: string)
    ensures id in DeferredMap(t, ps) <==> exists i :: 0 <= i < |ps| && DeferredHere(t, ps[i]) && ps[i].logicalId == id
  {
    hide DeferredHere;
    if ps != [] {
      DeferredMapIn(t, ps[..|ps| - 1], id);
      assert forall i :: 0 <= i < |ps| - 1 ==> ps[..|ps| - 1][i] == ps[i];
    }
  }

  lemma {:induction false} DeferredMapValue(t: Tree, ps: seq<Plugin>, k: nat)
    requires DistinctIds(ps) && k < |ps| && DeferredHere(t, ps[k])
    ensures ps[k].logicalId in DeferredMap(t, ps) &&
              DeferredMap(t, ps)[ps[k].logicalId] == CurrentVersion(t, ps[k]).value
  {
    hide IsAlpha, CurrentVersion;
    if k < |ps| - 1 {
      DeferredMapValue(t, ps[..|ps| - 1], k);
    }
  }

  lemma PluginMapOf(ps: seq<Plugin>, p: Plugin)
    requires DistinctIds(ps) && p in ps
    ensures PluginMap(ps)[p.logicalId] == p
  {
    hide PluginMap;
    SameId(ps, PluginMap(ps)[p.logicalId], p);
  }

  lemma CatalogDistinct(c: Catalog)
    requires ValidCatalog(c)
    ensures DistinctIds(c.plugins)
  {
    hide ValidPlugin, Contains;
  }

  /** Bound to a plan, no deferred plugin is planned. */
  lemma DeferredNotPlanned(input: VerifyInput, id: string)
    requires Accepts(input) && input.plan.Some?
    requires id in DeferredMap(SourceTree(input), input.catalog.plugins)
    ensures id !in Planned(input)
  {
    hide HeaderOk, EntryOk, EntriesBound, MarkerBound, DeferredMap, PlanMap, IsCommit, ParseSemver, Complete,
         PreviousBound;
    var here := DeferredMap(SourceTree(input), input.catalog.plugins);
    assert IsDeferred(input.plan.value.body.deferred, id);
  }

  /** The entries of an accepted snapshot are exactly the eligible plugins that are not deferred,
      and the deferred ones the previous snapshot already held. */
  lemma AcceptedPlugins(input: VerifyInput, p: Plugin)
    requires Accepts(input) && input.plan.Some? && input.previous.Some? && p in input.catalog.plugins
    ensures p.logicalId in EntryMap(input.snapshot.plugins) <==>
            p.releaseEligible &&
            (DeferredHere(SourceTree(input), p) ==> p.logicalId in EntryMap(input.previous.value.plugins))
  {
    hide HeaderOk, EntryOk, PlanBound, PreviousBound, MarkerBound, DeferredMap, EntryMap, PlanMap, DeferredHere,
         CarriedMatches, PlannedMatches;
    var t, ps, s := SourceTree(input), input.catalog.plugins, input.snapshot;
    AcceptedCatalog(input);
    var k :| 0 <= k < |ps| && ps[k] == p;
    DeferredMapIn(t, ps, p.logicalId);
    if p.logicalId in EntryMap(s.plugins) {
      var i :| 0 <= i < |s.plugins| && s.plugins[i] == EntryMap(s.plugins)[p.logicalId];
      AcceptedEntry(input, i);
      PluginMapOf(ps, p);
      if DeferredHere(t, p) {
        DeferredNotPlanned(input, p.logicalId);
        assert EntryBinds(input, s.plugins[i]);
      }
    }
  }

  lemma AcceptedCatalog(input: VerifyInput)
    requires Accepts(input)
    ensures ValidCatalog(input.catalog) && DistinctIds(input.catalog.plugins)
  {
    hide EntryOk, PlanBound, PreviousBound, MarkerBound, EntriesBound, DeferredMap, ValidCatalog, ParseSemver,
         IsCommit, Complete;
    CatalogDistinct(input.catalog);
  }

  lemma AcceptedEntry(input: VerifyInput, i: nat)
    requires Accepts(input) && i < |input.snapshot.plugins|
    ensures var e := input.snapshot.plugins[i];
            && e.logicalId in PluginMap(input.catalog.plugins)
            && PluginMap(input.catalog.plugins)[e.logicalId].releaseEligible
            && EntrySound(input.repo, input.catalog, PluginMap(input.catalog.plugins)[e.logicalId], e)
  {
    hide HeaderOk, PlanBound, PreviousBound, MarkerBound, EntriesBound, DeferredMap, EntrySound, DeferredHere,
         Complete, CommittedOk;
    assert EntryOk(input, input.snapshot.plugins[i]);
  }

  /** Equal except for what only the build of a planned candidate decides. */
  ghost predicate SameUpToCandidate(e: SnapshotEntry, f: SnapshotEntry) {
    f == e.(digest := f.digest, candidateRef := f.candidateRef, provenanceMode := f.provenanceMode,
        migration := f.migration)
  }

  ghost function Ids(es: seq<SnapshotEntry>): seq<string> {
    seq(|es|, i requires 0 <= i < |es| => es[i].logicalId)
  }

  lemma IdsMember(es: seq<SnapshotEntry>, id: string)
    ensures id in Ids(es) <==> id in EntryMap(es)
  {
    hide EntryMap;
    if id in EntryMap(es) {
      var i :| 0 <= i < |es| && es[i] == EntryMap(es)[id];
      assert Ids(es)[i] == id;
    }
    if id in Ids(es) {
      var i :| 0 <= i < |es| && Ids(es)[i] == id;
      assert es[i] in es;
    }
  }

  lemma SamePlugins(a: VerifyInput, b: VerifyInput)
    requires Accepts(a) && Accepts(b) && b == a.(snapshot := b.snapshot) && a.plan.Some? && a.previous.Some?
    ensures Ids(a.snapshot.plugins) == Ids(b.snapshot.plugins)
  {
    hide Accepts, EntryMap, DeferredHere;
    SortedIdsOf(a);
    SortedIdsOf(b);
    SameSource(a, b);
    AcceptedCatalog(a);
    forall id
      ensures id in Ids(a.snapshot.plugins) <==> id in Ids(b.snapshot.plugins)
    {
      IdsMember(a.snapshot.plugins, id);
      IdsMember(b.snapshot.plugins, id);
      if id in Ids(a.snapshot.plugins) { CatalogHolds(a, id); }
      if id in Ids(b.snapshot.plugins) { CatalogHolds(b, id); }
      if p :| p in a.catalog.plugins && p.logicalId == id {
        AcceptedPlugins(a, p);
        AcceptedPlugins(b, p);
      }
    }
    StrictlySortedUnique(Ids(a.snapshot.plugins), Ids(b.snapshot.plugins));
  }

  lemma CatalogHolds(input: VerifyInput, id: string)
    requires Accepts(input) && id in Ids(input.snapshot.plugins)
    ensures exists p :: p in input.catalog.plugins && p.logicalId == id
  {
    hide Accepts, EntrySound;
    var i :| 0 <= i < |input.snapshot.plugins| && Ids(input.snapshot.plugins)[i] == id;
    AcceptedEntry(input, i);
  }

  lemma SortedIdsOf(input: VerifyInput)
    requires Accepts(input)
    ensures StrictlySorted(Ids(input.snapshot.plugins))
  {
    hide HeaderOk, EntryOk, PlanBound, PreviousBound, MarkerBound, EntriesBound, DeferredMap, SourceOk, Complete;
  }

  lemma SameSource(a: VerifyInput, b: VerifyInput)
    requires Accepts(a) && Accepts(b) && b == a.(snapshot := b.snapshot) && a.plan.Some?
    ensures a.snapshot.sourceCommit == b.snapshot.sourceCommit == a.plan.value.body.sourceCommit
    ensures a.snapshot.sourceCommit in a.repo.commits
  {
    hide HeaderOk, EntryOk, PreviousBound, MarkerBound, EntriesBound, DeferredMap, ParseSemver, IsCommit,
         DistinctPlanned, DistinctDeferred,
         DeferralsMatch, Complete;
  }

  lemma AcceptedBinding(input: VerifyInput, i: nat)
    requires Accepts(input) && input.plan.Some? && i < |input.snapshot.plugins|
    ensures EntryBinds(input, input.snapshot.plugins[i])
  {
    hide HeaderOk, EntryOk, PlanBound, PreviousBound, MarkerBound, DeferredMap, EntryBinds, SourceOk, Complete;
  }

  /** Two snapshots accepted for the same plan, previous snapshot, catalog and repository list the
      same plugins in the same order; carried entries are identical, and a planned entry can
      differ only in digest, candidate reference, provenance mode and migration marker. */
  lemma AcceptedSnapshotsAgree(a: VerifyInput, b: VerifyInput, i: nat)
    requires Accepts(a) && Accepts(b) && b == a.(snapshot := b.snapshot) && a.plan.Some? && a.previous.Some?
    ensures |a.snapshot.plugins| == |b.snapshot.plugins|
    ensures i < |a.snapshot.plugins| ==>
              var e, f := a.snapshot.plugins[i], b.snapshot.plugins[i];
              SameUpToCandidate(e, f) && (e.logicalId !in Planned(a) ==> e == f)
  {
    hide Accepts, EntryMap, PlanMap, ParseSemver, IsDigest, CatalogConsumers, ProvenanceOk;
    SamePlugins(a, b);
    var x, y := Ids(a.snapshot.plugins), Ids(b.snapshot.plugins);
    assert |x| == |a.snapshot.plugins| && |y| == |b.snapshot.plugins|;
    if i < |a.snapshot.plugins| {
      assert x[i] == y[i];
      AcceptedEntry(a, i);
      AcceptedEntry(b, i);
      AcceptedBinding(a, i);
      AcceptedBinding(b, i);
      SameSource(a, b);
    }
  }

  // ---- Implicit provenance ------------------------------------------------------

  function Implicit(e: SnapshotEntry): SnapshotEntry {
    e.(provenanceMode := "")
  }

  /** What the verifier asks of the candidate reference tells the mode. */
  lemma ImplicitSound(repo: Repo, c: Catalog, p: Plugin, e: SnapshotEntry)
    requires EntrySound(repo, c, p, e)
    ensures EntryProvenance(Implicit(e)) == EntryProvenance(e) && EntrySound(repo, c, p, Implicit(e))
  {
    hide ParseSemver, IsDigest, HashOf, CatalogConsumers;
    assert EntryProvenance(e) == "candidate" ==> |e.candidateRef| >= 1;
  }

  lemma {:induction false} SameMarked(es: seq<SnapshotEntry>, es': seq<SnapshotEntry>)
    requires |es| == |es'|
    requires forall i :: 0 <= i < |es| ==> es'[i].logicalId == es[i].logicalId && es'[i].migration == es[i].migration
    ensures MarkedIds(es') == MarkedIds(es)
  {
    if es != [] { SameMarked(es[..|es| - 1], es'[..|es| - 1]); }
  }

  /** Without a plan or a previous snapshot to bind, an accepted snapshot stays accepted when an
      entry leaves its provenance mode out. */
  lemma ImplicitProvenanceVerifies(input: VerifyInput, i: nat)
    requires Accepts(input) && input.plan.None? && input.previous.None? && i < |input.snapshot.plugins|
    ensures var es := input.snapshot.plugins;
            Accepts(input.(snapshot := input.snapshot.(plugins := es[i := Implicit(es[i])])))
  {
    hide HeaderOk, EntryOk, Complete, PlanBound, PreviousBound, MarkerBound, DeferredMap, EntryMap, EntryBinds,
         CurrentVersion;
    var es := input.snapshot.plugins;
    var es' := es[i := Implicit(es[i])];
    var input' := input.(snapshot := input.snapshot.(plugins := es'));
    ImplicitHeader(input, input', i);
    SameSourceTree(input, input');
    forall k | 0 <= k < |es'|
      ensures EntryOk(input', es'[k])
    {
      ImplicitEntry(input, input', i, k);
    }
    ImplicitComplete(input, input', i);
    ImplicitMarker(input, input', i);
  }

  ghost predicate MadeImplicit(input: VerifyInput, input': VerifyInput, i: nat) {
    && i < |input.snapshot.plugins|
    && var es := input.snapshot.plugins;
       input' == input.(snapshot := input.snapshot.(plugins := es[i := Implicit(es[i])]))
  }

  lemma SameSourceTree(input: VerifyInput, input': VerifyInput)
    requires input' == input.(snapshot := input.snapshot.(plugins := input'.snapshot.plugins))
    ensures SourceOk(input') <==> SourceOk(input)
  {
    hide CurrentVersion;
  }

  lemma ImplicitHeader(input: VerifyInput, input': VerifyInput, i: nat)
    requires HeaderOk(input) && MadeImplicit(input, input', i)
    ensures HeaderOk(input')
  {
    hide ParseSemver, IsCommit, ValidCatalog, MarkedIds, SortStrings, ValidFields, Recommendation, SourceComparison,
         IsDigest;
    var es, es' := input.snapshot.plugins, input'.snapshot.plugins;
    SameMarked(es, es');
    forall k | 0 <= k < |es'|
      ensures MarkerValid(es'[k])
    {
      assert MarkerValid(es[k]);
    }
  }

  lemma ImplicitEntry(input: VerifyInput, input': VerifyInput, i: nat, k: nat)
    requires MadeImplicit(input, input', i) && k < |input.snapshot.plugins| &&
              input.snapshot.sourceCommit in input.repo.commits
    requires EntryOk(input, input.snapshot.plugins[k])
    ensures EntryOk(input', input'.snapshot.plugins[k])
  {
    hide EntrySound, DeferredHere, PluginMap, Stable, HashOf;
    var e := input.snapshot.plugins[k];
    ImplicitSound(input.repo, input.catalog, PluginMap(input.catalog.plugins)[e.logicalId], e);
  }

  lemma ImplicitComplete(input: VerifyInput, input': VerifyInput, i: nat)
    requires MadeImplicit(input, input', i) && input.snapshot.sourceCommit in input.repo.commits && Complete(input)
    ensures Complete(input')
  {
    hide EntryMap, DeferredHere;
    var es, es' := input.snapshot.plugins, input'.snapshot.plugins;
    assert Ids(es) == Ids(es');
    forall id
      ensures id in EntryMap(es) <==> id in EntryMap(es')
    {
      IdsMember(es, id);
      IdsMember(es', id);
    }
  }

  lemma ImplicitMarker(input: VerifyInput, input': VerifyInput, i: nat)
    requires MadeImplicit(input, input', i) && Accepts(input)
    ensures MarkerBound(input')
  {
    hide HeaderOk, SourceOk, EntryOk, Complete, PlanBound, PreviousBound, DeferredMap, EntryMap, EntryBinds,
         EvidenceBound, PluginMap, EntrySound;
    var es := input.snapshot.plugins;
    AcceptedEntry(input, i);
    ImplicitSound(input.repo, input.catalog, PluginMap(input.catalog.plugins)[es[i].logicalId], es[i]);
    if input.snapshot.bootstrapEvidence.Some? {
      ImplicitBound(es, input'.snapshot.plugins, i, input.files[input.snapshot.bootstrapEvidence.value.path]);
    }
  }

  lemma ImplicitBound(es: seq<SnapshotEntry>, es': seq<SnapshotEntry>, i: nat, evidence: BootstrapEvidence)
    requires i < |es| && es' == es[i := Implicit(es[i])] && EvidenceBound(es, evidence)
    requires EntryProvenance(Implicit(es[i])) == EntryProvenance(es[i])
    ensures EvidenceBound(es', evidence)
  {
    forall k | 0 <= k < |es'|
      ensures EntryBound(es'[k], evidence)
    {
      assert EntryBound(es[k], evidence);
    }
    hide EntryBound;
    forall id | Backfilled(es, id)
      ensures Backfilled(es', id)
    {
      var k :| 0 <= k < |es| && es[k].backfill && es[k].logicalId == id;
      assert es'[k].backfill && es'[k].logicalId == id;
    }
    forall id | HasSnapshotEntry(es', id)
      ensures HasSnapshotEntry(es, id)
    {
      var k :| 0 <= k < |es'| && es'[k].logicalId == id;
      assert es[k].logicalId == id;
    }
  }
}
