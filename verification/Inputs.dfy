/** Which files a plugin is built from, and the input hash over them (io.go). */
module Inputs {
  import opened Wrappers
  import opened Text
  import opened Semver
  import opened ReleaseModel

  // ---- Pattern matching ---------------------------------------------------------

  predicate PatternMatches(pattern: string, path: string) {
    var pat := TrimSpace(pattern);
    if HasSuffix(pat, "/**") then HasPrefix(path, pat[..|pat| - 2]) else path == pat
  }

  function StripSlashes(s: string): string {
    if s != [] && s[|s| - 1] == '/' then StripSlashes(s[..|s| - 1]) else s
  }

  function LastElement(s: string): string {
    if s == [] || s[|s| - 1] == '/' then [] else LastElement(s[..|s| - 1]) + [s[|s| - 1]]
  }

  /** `filepath.Base`. */
  function Base(path: string): string {
    if path == [] then "."
    else if StripSlashes(path) == [] then "/"
    else LastElement(StripSlashes(path))
  }

  predicate IsDocumentationPath(path: string) {
    var base := Base(path);
    var lower := LowerCase(base);
    HasSuffix(lower, ".md") || HasPrefix(lower, "readme") || base == "VERSION" || Contains(path, "/design/")
  }

  predicate ArtifactMatches(p: Plugin, path: string) {
    GroupMatches(p.artifactInputs, path) && !IsDocumentationPath(path)
  }

  predicate GroupMatches(patterns: seq<string>, path: string) {
    exists i :: 0 <= i < |patterns| && PatternMatches(patterns[i], path)
  }

  predicate SharedMatches(c: Catalog, p: Plugin, path: string) {
    exists i :: 0 <= i < |p.sharedInputGroups| && p.sharedInputGroups[i] in c.sharedInputGroups &&
                GroupMatches(c.sharedInputGroups[p.sharedInputGroups[i]], path)
  }

  predicate InputMatches(c: Catalog, p: Plugin, path: string) {
    ArtifactMatches(p, path) || SharedMatches(c, p, path)
  }

  /** pluginInputMatches */
  method PluginInputMatches(c: Catalog, p: Plugin, path: string) returns (matches: bool)
    ensures matches <==> InputMatches(c, p, path)
  {
    hide PatternMatches, IsDocumentationPath;
    matches := AnyMatches(p.artifactInputs, path, !IsDocumentationPath(path));
    if !matches {
      matches := AnyGroupMatches(c, p.sharedInputGroups, path);
    }
  }

  method AnyGroupMatches(c: Catalog, groups: seq<string>, path: string) returns (matches: bool)
    ensures matches <==> exists i :: 0 <= i < |groups| && groups[i] in c.sharedInputGroups &&
                                     GroupMatches(c.sharedInputGroups[groups[i]], path)
  {
    hide PatternMatches;
    for g := 0 to |groups|
      invariant forall h :: 0 <= h < g && groups[h] in c.sharedInputGroups ==>
                  !GroupMatches(c.sharedInputGroups[groups[h]], path)
    {
      matches := AnyMatches(if groups[g] in c.sharedInputGroups then c.sharedInputGroups[groups[g]]
          else [], path, true);
      if matches {
        return;
      }
    }
    return false;
  }

  method AnyMatches(patterns: seq<string>, path: string, allowed: bool) returns (matches: bool)
    ensures matches <==> GroupMatches(patterns, path) && allowed
  {
    hide PatternMatches;
    for i := 0 to |patterns|
      invariant allowed ==> forall j :: 0 <= j < i ==> !PatternMatches(patterns[j], path)
    {
      if PatternMatches(patterns[i], path) && allowed {
        return true;
      }
    }
    return false;
  }

  lemma {:induction false} LastElementOf(dir: string, name: string)
    requires '/' !in name
    ensures LastElement(dir + "/" + name) == name
  {
    var s := dir + "/" + name;
    if name != [] {
      var init := name[..|name| - 1];
      assert s[|s| - 1] == name[|name| - 1] && s[..|s| - 1] == dir + "/" + init;
      LastElementOf(dir, init);
      assert name == init + [name[|name| - 1]];
    } else {
      assert s[|s| - 1] == '/';
    }
  }

  /** A VERSION file is never an artifact input; only a shared group can name one. */
  lemma VersionIsDocumentation(c: Catalog, p: Plugin, dir: string)
    ensures IsDocumentationPath(dir + "/VERSION")
    ensures InputMatches(c, p, dir + "/VERSION") <==> SharedMatches(c, p, dir + "/VERSION")
  {
    var s := dir + "/VERSION";
    assert s == dir + "/" + "VERSION";
    LastElementOf(dir, "VERSION");
    assert s[|s| - 1] == 'N' && StripSlashes(s) == s;
  }

  // ---- Listings -----------------------------------------------------------------

  /** The paths whose blobs differ between two commits. */
  function Diff(a: Tree, b: Tree): set<string> {
    set path | path in a.Keys + b.Keys && Lookup(a, path) != Lookup(b, path)
  }

  /** changedPaths: the differing paths in ascending order. */
  method ChangedPaths(a: Tree, b: Tree) returns (paths: seq<string>)
    ensures paths == Ascending(Diff(a, b))
  {
    var listing := ListFiles(Diff(a, b));
    paths := SortStrings(listing);
    SortedListing(listing, Diff(a, b));
  }

  /** filesAtCommit: every path once, in an order nothing depends on. */
  method ListFiles(paths: set<string>) returns (listing: seq<string>)
    ensures forall path :: path in listing <==> path in paths
    ensures Distinct(listing)
  {
    listing := [];
    var rest := paths;
    while rest != {}
      invariant rest <= paths
      invariant forall path :: path in listing <==> path in paths - rest
      invariant Distinct(listing)
      decreases |rest|
    {
      var path :| path in rest;
      assert path !in listing;
      DistinctAppend(listing, path);
      listing := listing + [path];
      rest := rest - {path};
    }
  }

  ghost predicate Distinct(xs: seq<string>) {
    forall i, j :: 0 <= i < j < |xs| ==> xs[i] != xs[j]
  }

  lemma DistinctAppend(xs: seq<string>, x: string)
    requires Distinct(xs) && x !in xs
    ensures Distinct(xs + [x])
  {
    forall i, j | 0 <= i < j < |xs + [x]|
      ensures (xs + [x])[i] != (xs + [x])[j]
    {
      assert xs[i] in xs;
    }
  }

  lemma {:induction false} SortDistinct(xs: seq<string>)
    requires Distinct(xs)
    ensures StrictlySorted(SortStrings(xs))
    ensures forall x :: x in SortStrings(xs) <==> x in xs
  {
    if xs != [] {
      SortDistinct(xs[1..]);
      InsertStrictlySorted(xs[0], SortStrings(xs[1..]));
      assert xs == [xs[0]] + xs[1..];
    }
  }

  lemma SortedListing(listing: seq<string>, paths: set<string>)
    requires Distinct(listing) && forall path :: path in listing <==> path in paths
    ensures SortStrings(listing) == Ascending(paths)
  {
    SortDistinct(listing);
    StrictlySortedUnique(SortStrings(listing), Ascending(paths));
  }

  // ---- The input hash -----------------------------------------------------------

  /** The plugin's inputs in a tree. */
  function Selected(t: Tree, c: Catalog, p: Plugin): Tree {
    map path | path in t && InputMatches(c, p, path) :: t[path]
  }

  /** A Git object id: an injective, NUL-free name of the content. */
  function ObjectId(content: string): (id: string)
    ensures '\0' !in id
  {
    if content == [] then []
    else
      var head := if content[0] == '\0' then "~0" else if content[0] == '~' then "~~" else [content[0]];
      head + ObjectId(content[1..])
  }

  lemma {:induction false} ObjectIdInjective(a: string, b: string)
    requires ObjectId(a) == ObjectId(b)
    ensures a == b
  {
    if a != [] && b != [] {
      var x, y := ObjectId(a), ObjectId(b);
      assert a[0] == b[0] by {
        assert x[0] == (if a[0] == '\0' then '~' else a[0]);
        assert y[0] == (if b[0] == '\0' then '~' else b[0]);
        if x[0] == '~' { assert x[1] == y[1]; }
      }
      var k := if a[0] == '\0' || a[0] == '~' then 2 else 1;
      assert x[k..] == ObjectId(a[1..]) && y[k..] == ObjectId(b[1..]);
      ObjectIdInjective(a[1..], b[1..]);
      assert a == [a[0]] + a[1..] && b == [b[0]] + b[1..];
    } else {
      assert a != [] ==> |ObjectId(a)| > 0;
      assert b != [] ==> |ObjectId(b)| > 0;
    }
  }

  /** What inputHash writes for one name and value. */
  function Chunk(pair: (string, string)): string {
    pair.0 + ['\0'] + pair.1 + ['\0']
  }

  function Encode(pairs: seq<(string, string)>): string {
    if pairs == [] then [] else Chunk(pairs[0]) + Encode(pairs[1..])
  }

  ghost predicate NulFree(pairs: seq<(string, string)>) {
    forall i :: 0 <= i < |pairs| ==> '\0' !in pairs[i].0 && '\0' !in pairs[i].1
  }

  lemma NulSplit(x: string, r: string, y: string, t: string)
    requires '\0' !in x && '\0' !in y && x + ['\0'] + r == y + ['\0'] + t
    ensures x == y && r == t
  {
    var s := x + ['\0'] + r;
    CutAt(x, '\0', r);
    CutAt(y, '\0', t);
    assert Cut(s, '\0') == (x, Some(r)) && Cut(s, '\0') == (y, Some(t));
  }

  /** The NUL-terminated encoding is injective. */
  lemma {:induction false} EncodeInjective(ps: seq<(string, string)>, qs: seq<(string, string)>)
    requires NulFree(ps) && NulFree(qs) && Encode(ps) == Encode(qs)
    ensures ps == qs
  {
    if ps != [] && qs != [] {
      var p, q := ps[0], qs[0];
      var pr, qr := Encode(ps[1..]), Encode(qs[1..]);
      assert Encode(ps) == p.0 + ['\0'] + (p.1 + ['\0'] + pr);
      assert Encode(qs) == q.0 + ['\0'] + (q.1 + ['\0'] + qr);
      NulSplit(p.0, p.1 + ['\0'] + pr, q.0, q.1 + ['\0'] + qr);
      NulSplit(p.1, pr, q.1, qr);
      EncodeInjective(ps[1..], qs[1..]);
      assert ps == [p] + ps[1..] && qs == [q] + qs[1..];
    }
  }

  lemma {:induction false} EncodeAppend(ps: seq<(string, string)>, q: (string, string))
    ensures Encode(ps + [q]) == Encode(ps) + Chunk(q)
  {
    if ps == [] {
      assert Encode([q]) == Chunk(q) + Encode([q][1..]);
    } else {
      assert (ps + [q])[1..] == ps[1..] + [q];
      EncodeAppend(ps[1..], q);
    }
  }

  function FilePairs(t: Tree, names: seq<string>): (r: seq<(string, string)>)
    requires forall name :: name in names ==> name in t
  {
    seq(|names|, i requires 0 <= i < |names| => assert names[i] in names; (names[i], ObjectId(t[names[i]])))
  }

  /** The text inputHash digests: the selected files in ascending order, then the version. */
  ghost function Preimage(selected: Tree, version: string): string {
    Encode(FilePairs(selected, Ascending(selected.Keys)) + [("VERSION", version)])
  }

  ghost function HashOf(t: Tree, version: string, c: Catalog, p: Plugin): InputHash {
    Sha256(Preimage(Selected(t, c, p), version))
  }

  /** inputHash: select, sort, write. The result does not depend on the listing order. */
  method ComputeInputHash(t: Tree, version: string, c: Catalog, p: Plugin) returns (hash: InputHash)
    ensures hash == HashOf(t, version, c, p)
  {
    var files := ListFiles(t.Keys);
    var selected := [];
    for i := 0 to |files|
      invariant forall path :: path in selected <==> path in files[..i] && InputMatches(c, p, path)
      invariant Distinct(selected)
    {
      var matches := PluginInputMatches(c, p, files[i]);
      assert files[i] !in files[..i];
      if matches {
        DistinctAppend(selected, files[i]);
        selected := selected + [files[i]];
      }
    }
    assert files[..|files|] == files;
    SortedListing(selected, Selected(t, c, p).Keys);
    selected := SortStrings(selected);
    var text := WriteChunks(Selected(t, c, p), selected, version);
    return Sha256(text);
  }

  method WriteChunks(files: Tree, names: seq<string>, version: string) returns (text: string)
    requires forall name :: name in names ==> name in files
    ensures text == Encode(FilePairs(files, names) + [("VERSION", version)])
  {
    hide ObjectId;
    text := "";
    ghost var pairs := FilePairs(files, names);
    for i := 0 to |names|
      invariant text == Encode(pairs[..i])
    {
      text := text + Chunk((names[i], ObjectId(files[names[i]])));
      assert pairs[..i + 1] == pairs[..i] + [pairs[i]];
      EncodeAppend(pairs[..i], pairs[i]);
    }
    assert pairs[..|names|] == pairs;
    text := text + Chunk(("VERSION", version));
    EncodeAppend(pairs, ("VERSION", version));
  }

  lemma PreimageInjective(s: Tree, v: string, s': Tree, v': string)
    requires NulFreePaths(s) && NulFreePaths(s') && '\0' !in v && '\0' !in v'
    requires Preimage(s, v) == Preimage(s', v')
    ensures s == s' && v == v'
  {
    hide Encode, Ascending, ObjectId;
    var n, n' := Ascending(s.Keys), Ascending(s'.Keys);
    var f, f' := FilePairs(s, n), FilePairs(s', n');
    var a, a' := f + [("VERSION", v)], f' + [("VERSION", v')];
    EncodeInjective(a, a');
    assert a[|a| - 1] == a'[|a'| - 1];
    assert a[..|a| - 1] == f && a'[..|a'| - 1] == f';
    SamePairs(s, n, s', n');
  }

  /** Two input hashes agree exactly when the versions and the selected files agree. */
  lemma HashExact(t: Tree, v: string, c: Catalog, p: Plugin, t': Tree, v': string, c': Catalog, p': Plugin)
    requires NulFreePaths(t) && NulFreePaths(t') && '\0' !in v && '\0' !in v'
    ensures HashOf(t, v, c, p) == HashOf(t', v', c', p') <==> v == v' && Selected(t, c, p) == Selected(t', c', p')
  {
    var s, s' := Selected(t, c, p), Selected(t', c', p');
    if Preimage(s, v) == Preimage(s', v') {
      PreimageInjective(s, v, s', v');
    }
  }

  lemma SamePairs(s: Tree, n: seq<string>, s': Tree, n': seq<string>)
    requires forall x :: x in n <==> x in s
    requires forall x :: x in n' <==> x in s'
    requires FilePairs(s, n) == FilePairs(s', n')
    ensures s == s'
  {
    var a, a' := FilePairs(s, n), FilePairs(s', n');
    assert |n| == |a| == |a'| == |n'|;
    forall i | 0 <= i < |n|
      ensures n[i] == n'[i] && s[n[i]] == s'[n[i]]
    {
      assert a[i] == a'[i];
      ObjectIdInjective(s[n[i]], s'[n'[i]]);
    }
    assert n == n';
    assert s.Keys == s'.Keys;
  }

  /** A version text carries no NUL. */
  lemma VersionNulFree(raw: string)
    requires ParseSemver(raw).Some?
    ensures '\0' !in raw
  {
    var (main, build) := Cut(TrimSpace(raw), '+');
    var (core, pre) := Cut(main, '-');
    CoreNulFree(core, if pre.Some? then pre.value else "");
    if build.Some? { IdentifiersNulFree(build.value); }
    if pre.Some? { IdentifiersNulFree(pre.value); }
    assert '\0' !in main;
    if '\0' in raw { NulSurvivesTrim(raw); }
  }

  lemma IdentifiersNulFree(s: string)
    requires Identifiers(s)
    ensures '\0' !in s
  {
    if '\0' in s { NulInSplit(s); }
  }

  lemma CoreNulFree(core: string, pre: string)
    requires ParseCore(core, pre).Some?
    ensures '\0' !in core
  {
    if '\0' in core {
      NulInSplit(core);
    }
  }

  lemma NulSurvivesTrim(s: string)
    requires '\0' in s
    ensures '\0' in TrimSpace(s)
  {
    NulLeft(s);
    NulRight(TrimLeft(s));
  }

  lemma {:induction false} NulLeft(s: string)
    requires '\0' in s
    ensures '\0' in TrimLeft(s)
  {
    if IsSpace(s[0]) {
      assert s == [s[0]] + s[1..];
      NulLeft(s[1..]);
    }
  }

  lemma {:induction false} NulRight(s: string)
    requires '\0' in s
    ensures '\0' in TrimRight(s)
  {
    if IsSpace(s[|s| - 1]) {
      assert s == s[..|s| - 1] + [s[|s| - 1]];
      NulRight(s[..|s| - 1]);
    }
  }

  lemma {:induction false} NulInSplit(s: string)
    requires '\0' in s
    ensures exists i :: 0 <= i < |Split(s, '.')| && '\0' in Split(s, '.')[i]
    decreases |s|
  {
    var (before, after) := Cut(s, '.');
    var parts := Split(s, '.');
    if '\0' in before {
      assert '\0' in parts[0];
    } else {
      NulInSplit(after.value);
      var i :| 0 <= i < |Split(after.value, '.')| && '\0' in Split(after.value, '.')[i];
      assert parts[i + 1] == Split(after.value, '.')[i];
    }
  }
}
