/** Versions of the plugin-release tool: parsing, the order, and the choice of the next version. */
module Semver {
  import opened Wrappers
  import opened Text

  datatype Semver = Semver(major: nat, minor: nat, patch: nat, prerelease: string)

  // ---- Parsing ----------------------------------------------------------------

  predicate IdentifierChar(c: char) {
    IsDigit(c) || 'a' <= c <= 'z' || 'A' <= c <= 'Z' || c == '-'
  }

  predicate Identifier(s: string) {
    s != [] && forall i :: 0 <= i < |s| ==> IdentifierChar(s[i])
  }

  predicate Identifiers(s: string) {
    var ids := Split(s, '.');
    forall i :: 0 <= i < |ids| ==> Identifier(ids[i])
  }

  predicate CoreNumber(s: string) {
    s != [] && Digits(s) && (s == "0" || s[0] != '0')
  }

  /** `major.minor.patch`; numbers are unbounded. */
  function ParseCore(core: string, prerelease: string): Option<Semver> {
    var parts := Split(core, '.');
    if |parts| == 3 && CoreNumber(parts[0]) && CoreNumber(parts[1]) && CoreNumber(parts[2]) then
      Some(Semver(DecimalValue(parts[0]), DecimalValue(parts[1]), DecimalValue(parts[2]), prerelease))
    else None
  }

  /** The semverPattern match on trimmed text. `+` occurs only before build metadata, and the
      first `-` left of it starts the prerelease. */
  function ParseSemver(raw: string): Option<Semver> {
    var (main, build) := Cut(TrimSpace(raw), '+');
    var (core, pre) := Cut(main, '-');
    if build.Some? && !Identifiers(build.value) then None
    else if pre.Some? && !Identifiers(pre.value) then None
    else ParseCore(core, if pre.Some? then pre.value else "")
  }

  predicate Stable(raw: string) {
    ParseSemver(raw).Some? && ParseSemver(raw).value.prerelease == ""
  }

  function StableString(v: Semver): string {
    Decimal(v.major) + "." + Decimal(v.minor) + "." + Decimal(v.patch)
  }

  function Core(v: Semver): Semver {
    v.(prerelease := "")
  }

  lemma NoChar(s: string, c: char)
    requires Digits(s) && !IsDigit(c)
    ensures c !in s
  {
  }

  lemma SplitThree(a: string, b: string, c: string)
    requires '.' !in a && '.' !in b && '.' !in c
    ensures Split(a + "." + b + "." + c, '.') == [a, b, c]
  {
    var t := b + "." + c;
    assert a + "." + b + "." + c == a + ['.'] + t && t == b + ['.'] + c;
    CutAt(a, '.', t);
    CutAt(b, '.', c);
    CutAt(c, '.', "");
    assert Split(c, '.') == [c];
    assert Split(t, '.') == [b] + [c];
  }

  lemma ParseThree(a: string, b: string, c: string)
    requires CoreNumber(a) && CoreNumber(b) && CoreNumber(c)
    ensures ParseCore(a + "." + b + "." + c, "") == Some(Semver(DecimalValue(a), DecimalValue(b), DecimalValue(c), ""))
  {
    NoChar(a, '.'); NoChar(b, '.'); NoChar(c, '.');
    SplitThree(a, b, c);
  }

  lemma ParsePlain(s: string)
    requires '+' !in s && '-' !in s && TrimSpace(s) == s
    ensures ParseSemver(s) == ParseCore(s, "")
  {
    CutAt(s, '+', "");
    CutAt(s, '-', "");
  }

  lemma PlainThree(a: string, b: string, c: string)
    requires CoreNumber(a) && CoreNumber(b) && CoreNumber(c)
    ensures var s := a + "." + b + "." + c; '+' !in s && '-' !in s && TrimSpace(s) == s
  {
    hide TrimSpace;
    NoChar(a, '+'); NoChar(b, '+'); NoChar(c, '+');
    NoChar(a, '-'); NoChar(b, '-'); NoChar(c, '-');
    var s := a + "." + b + "." + c;
    assert s[0] == a[0] && s[|s| - 1] == c[|c| - 1];
    DigitNotSpace(s[0]);
    DigitNotSpace(s[|s| - 1]);
    hide IsSpace;
    TrimFixpoint(s);
  }

  lemma DigitNotSpace(c: char)
    requires IsDigit(c)
    ensures !IsSpace(c)
  {
  }

  /** Printing a version without prerelease and parsing it back is the identity; the printed
      form carries no surrounding space, so it survives a VERSION file unchanged. */
  lemma StableRoundTrip(v: Semver)
    ensures ParseSemver(StableString(v)) == Some(Core(v))
    ensures TrimSpace(StableString(v)) == StableString(v)
  {
    var a, b, c := Decimal(v.major), Decimal(v.minor), Decimal(v.patch);
    ParseThree(a, b, c);
    PlainThree(a, b, c);
    ParsePlain(a + "." + b + "." + c);
  }

  /** parseSemver trims its input itself. */
  lemma ParseTrimmed(raw: string)
    ensures ParseSemver(TrimSpace(raw)) == ParseSemver(raw)
  {
    TrimTwice(raw);
  }

  // ---- The order --------------------------------------------------------------

  function CompareInt(a: int, b: int): int {
    if a < b then -1 else if a > b then 1 else 0
  }

  /** `strconv.Atoi` on a 64-bit machine: a sign, then digits, within range. */
  function Atoi(s: string): Option<int> {
    var negative := s != [] && s[0] == '-';
    var digits := if s != [] && (s[0] == '-' || s[0] == '+') then s[1..] else s;
    if digits == [] || !Digits(digits) then None
    else
      var n := (if negative then -1 else 1) * DecimalValue(digits);
      if -0x8000_0000_0000_0000 <= n <= 0x7fff_ffff_ffff_ffff then Some(n) else None
  }

  /** One pass of the comparePrerelease loop, for two different identifiers. */
  function CompareIdentifier(a: string, b: string): int {
    match (Atoi(a), Atoi(b))
    case (Some(m), Some(n)) => CompareInt(m, n)
    case (Some(_), None) => -1
    case (None, Some(_)) => 1
    case (None, None) => if StrLt(a, b) then -1 else 1
  }

  function CompareIdentifiers(aa: seq<string>, bb: seq<string>): int {
    if aa == [] || bb == [] then CompareInt(|aa|, |bb|)
    else if aa[0] == bb[0] then CompareIdentifiers(aa[1..], bb[1..])
    else CompareIdentifier(aa[0], bb[0])
  }

  method ComparePrerelease(a: string, b: string) returns (r: int)
    ensures r == CompareIdentifiers(Split(a, '.'), Split(b, '.'))
  {
    var aa, bb := Split(a, '.'), Split(b, '.');
    var i := 0;
    while i < |aa| && i < |bb|
      invariant 0 <= i <= |aa| && i <= |bb|
      invariant CompareIdentifiers(aa, bb) == CompareIdentifiers(aa[i..], bb[i..])
    {
      if aa[i] != bb[i] {
        var ai, bi := Atoi(aa[i]), Atoi(bb[i]);
        if ai.Some? && bi.Some? {
          return CompareInt(ai.value, bi.value);
        } else if ai.Some? {
          return -1;
        } else if bi.Some? {
          return 1;
        } else if StrLt(aa[i], bb[i]) {
          return -1;
        }
        return 1;
      }
      assert aa[i..][1..] == aa[i + 1..] && bb[i..][1..] == bb[i + 1..];
      i := i + 1;
    }
    return CompareInt(|aa|, |bb|);
  }

  function CompareSemver(a: Semver, b: Semver): int {
    if a.major != b.major then CompareInt(a.major, b.major)
    else if a.minor != b.minor then CompareInt(a.minor, b.minor)
    else if a.patch != b.patch then CompareInt(a.patch, b.patch)
    else if a.prerelease == b.prerelease then 0
    else if a.prerelease == "" then 1
    else if b.prerelease == "" then -1
    else CompareIdentifiers(Split(a.prerelease, '.'), Split(b.prerelease, '.'))
  }

  /** The decimal spelling Atoi inverts. */
  function Spell(n: int): string {
    if n < 0 then "-" + Decimal(-n) else Decimal(n)
  }

  ghost predicate CanonicalId(id: string) {
    Atoi(id).Some? ==> id == Spell(Atoi(id).value)
  }

  ghost predicate CanonicalIds(ids: seq<string>) {
    forall i :: 0 <= i < |ids| ==> CanonicalId(ids[i])
  }

  /** Every identifier that reads as an integer is that integer's decimal spelling. */
  ghost predicate Canonical(v: Semver) {
    CanonicalIds(Split(v.prerelease, '.'))
  }

  lemma {:induction false} IdentifiersAntisymmetric(aa: seq<string>, bb: seq<string>)
    ensures CompareIdentifiers(aa, bb) == -CompareIdentifiers(bb, aa)
  {
    if aa != [] && bb != [] {
      if aa[0] == bb[0] {
        IdentifiersAntisymmetric(aa[1..], bb[1..]);
      } else {
        StrLtTotal(aa[0], bb[0]);
      }
    }
  }

  lemma {:induction false} IdentifiersTransitive(aa: seq<string>, bb: seq<string>, cc: seq<string>)
    requires CanonicalIds(aa) && CanonicalIds(bb) && CanonicalIds(cc)
    requires CompareIdentifiers(aa, bb) < 0 && CompareIdentifiers(bb, cc) < 0
    ensures CompareIdentifiers(aa, cc) < 0
  {
    if aa != [] && bb != [] && cc != [] {
      var a, b, c := aa[0], bb[0], cc[0];
      if a == b && b == c {
        IdentifiersTransitive(aa[1..], bb[1..], cc[1..]);
      } else if a != b && b != c {
        StrLtTotal(a, c);
        if StrLt(a, b) && StrLt(b, c) { StrLtTrans(a, b, c); }
      }
    }
  }

  /** Two prereleases tie exactly when they are equal, or at the first place where they differ
      both identifiers read as the same integer: `01` and `1` in an otherwise equal prefix. */
  lemma {:induction false} TiesExactly(aa: seq<string>, bb: seq<string>)
    ensures CompareIdentifiers(aa, bb) == 0 <==>
            aa == bb || exists k :: FirstDifference(aa, bb, k) && SameInteger(aa[k], bb[k])
  {
    if aa != [] && bb != [] {
      assert aa == [aa[0]] + aa[1..] && bb == [bb[0]] + bb[1..];
      if aa[0] == bb[0] {
        TiesExactly(aa[1..], bb[1..]);
        forall k
          ensures FirstDifference(aa, bb, k) <==> FirstDifference(aa[1..], bb[1..], k - 1)
        {
          DifferenceTail(aa, bb, k);
        }
        if k :| FirstDifference(aa[1..], bb[1..], k) && SameInteger(aa[1..][k], bb[1..][k]) {
          assert FirstDifference(aa, bb, k + 1);
        }
      } else {
        DifferenceAtHead(aa, bb);
      }
    }
  }

  ghost predicate SameInteger(a: string, b: string) {
    Atoi(a).Some? && Atoi(a) == Atoi(b)
  }

  ghost predicate FirstDifference(aa: seq<string>, bb: seq<string>, k: int) {
    0 <= k < |aa| && k < |bb| && aa[..k] == bb[..k] && aa[k] != bb[k]
  }

  lemma DifferenceTail(aa: seq<string>, bb: seq<string>, k: int)
    requires aa != [] && bb != [] && aa[0] == bb[0]
    ensures FirstDifference(aa, bb, k) <==> FirstDifference(aa[1..], bb[1..], k - 1)
  {
    if 0 < k < |aa| && k < |bb| {
      assert aa[..k] == [aa[0]] + aa[1..][..k - 1];
      assert bb[..k] == [bb[0]] + bb[1..][..k - 1];
      assert aa[1..][..k - 1] == aa[..k][1..] && bb[1..][..k - 1] == bb[..k][1..];
    }
  }

  lemma DifferenceAtHead(aa: seq<string>, bb: seq<string>)
    requires aa != [] && bb != [] && aa[0] != bb[0]
    ensures forall k :: FirstDifference(aa, bb, k) <==> k == 0
  {
    forall k | 0 < k < |aa| && k < |bb|
      ensures aa[..k] != bb[..k]
    {
      assert aa[..k][0] == aa[0] && bb[..k][0] == bb[0];
    }
  }

  lemma CompareAntisymmetric(a: Semver, b: Semver)
    ensures CompareSemver(a, b) == -CompareSemver(b, a)
  {
    IdentifiersAntisymmetric(Split(a.prerelease, '.'), Split(b.prerelease, '.'));
  }

  lemma CompareZero(a: Semver, b: Semver)
    requires Canonical(a) && Canonical(b)
    ensures CompareSemver(a, b) == 0 <==> a == b
  {
    hide Split, Atoi;
    var aa, bb := Split(a.prerelease, '.'), Split(b.prerelease, '.');
    TiesExactly(aa, bb);
    if aa == bb { SplitInjective(a.prerelease, b.prerelease, '.'); }
    assert forall k :: FirstDifference(aa, bb, k) ==> CanonicalId(aa[k]) && CanonicalId(bb[k]);
  }

  lemma CompareTransitive(a: Semver, b: Semver, c: Semver)
    requires Canonical(a) && Canonical(b) && Canonical(c)
    requires CompareSemver(a, b) < 0 && CompareSemver(b, c) < 0
    ensures CompareSemver(a, c) < 0
  {
    hide Split, Atoi, CompareIdentifiers, CanonicalIds;
    var aa, bb, cc := Split(a.prerelease, '.'), Split(b.prerelease, '.'), Split(c.prerelease, '.');
    if CompareIdentifiers(aa, bb) < 0 && CompareIdentifiers(bb, cc) < 0 { IdentifiersTransitive(aa, bb, cc); }
    IdentifiersAntisymmetric(bb, cc);
  }

  /** compareSemver is a total order on canonical versions: antisymmetric, zero only between
      equal versions, and transitive. */
  lemma CompareIsTotalOrder(a: Semver, b: Semver, c: Semver)
    ensures CompareSemver(a, b) == -CompareSemver(b, a)
    ensures Canonical(a) && Canonical(b) ==> (CompareSemver(a, b) == 0 <==> a == b)
    ensures Canonical(a) && Canonical(b) && Canonical(c) && CompareSemver(a, b) < 0 && CompareSemver(b, c) < 0
            ==> CompareSemver(a, c) < 0
  {
    hide CompareSemver, Canonical;
    CompareAntisymmetric(a, b);
    if Canonical(a) && Canonical(b) {
      CompareZero(a, b);
      if Canonical(c) && CompareSemver(a, b) < 0 && CompareSemver(b, c) < 0 { CompareTransitive(a, b, c); }
    }
  }

  /** Outside the canonical versions the order breaks: `1.2`, `01.9` and `1.1` tie in a row
      although the first is above the last. */
  lemma NonCanonicalCounterexample()
    ensures
      var a, b, c := Semver(1, 0, 0, "1.2"), Semver(1, 0, 0, "01.9"), Semver(1, 0, 0, "1.1");
      CompareSemver(a, b) == 0 && CompareSemver(b, c) == 0 && CompareSemver(a, c) > 0
  {
    SplitTwo("1", "2");
    SplitTwo("01", "9");
    SplitTwo("1", "1");
    assert "1.2" == "1" + "." + "2" && "01.9" == "01" + "." + "9" && "1.1" == "1" + "." + "1";
    TieRow(["1", "2"], ["01", "9"], ["1", "1"]);
  }

  lemma TieRow(a: seq<string>, b: seq<string>, c: seq<string>)
    requires a == ["1", "2"] && b == ["01", "9"] && c == ["1", "1"]
    ensures CompareIdentifiers(a, b) == 0 && CompareIdentifiers(b, c) == 0 && CompareIdentifiers(a, c) > 0
  {
    AtoiDigits();
    assert a[1..] == ["2"] && c[1..] == ["1"];
  }

  lemma AtoiDigits()
    ensures Atoi("1") == Some(1) && Atoi("01") == Some(1) && Atoi("2") == Some(2)
  {
    assert "01"[..1] == "0" && DecimalValue("0") == 0 && DecimalValue("01") == 1;
    assert DecimalValue("1") == 1 && DecimalValue("2") == 2;
  }

  lemma SplitTwo(a: string, b: string)
    requires '.' !in a && '.' !in b
    ensures Split(a + "." + b, '.') == [a, b]
  {
    CutAt(a, '.', b);
    CutAt(b, '.', "");
    assert a + "." + b == a + ['.'] + b && Split(b, '.') == [b];
  }

  // ---- Semantic Versioning 2.0.0, sections 9 and 11 ---------------------------

  /** Section 9: numeric identifiers carry no leading zeros. Beyond it: no identifier reads as a
      negative integer, and numeric identifiers fit the machine word. */
  ghost predicate SpecIdentifier(id: string) {
    && Identifier(id)
    && (Digits(id) ==> id == "0" || id[0] != '0')
    && (Digits(id) ==> DecimalValue(id) <= 0x7fff_ffff_ffff_ffff)
    && !(id[0] == '-' && id != "-" && Digits(id[1..]))
  }

  ghost predicate SpecPrerelease(pre: string) {
    pre == "" || forall i :: 0 <= i < |Split(pre, '.')| ==> SpecIdentifier(Split(pre, '.')[i])
  }

  /** Section 11.4.1 to 11.4.3. */
  ghost predicate IdentifierBelow(a: string, b: string) {
    if Digits(a) && Digits(b) then DecimalValue(a) < DecimalValue(b)
    else if Digits(a) || Digits(b) then Digits(a)
    else StrLt(a, b)
  }

  /** Section 11.4: left to right until a difference, then 11.4.4 for the longer list. */
  ghost predicate IdentifiersBelow(aa: seq<string>, bb: seq<string>) {
    || aa < bb
    || exists k :: FirstDifference(aa, bb, k) && IdentifierBelow(aa[k], bb[k])
  }

  /** Section 11.2 and 11.3. */
  ghost predicate Below(a: Semver, b: Semver) {
    || a.major < b.major
    || (a.major == b.major && a.minor < b.minor)
    || (a.major == b.major && a.minor == b.minor && a.patch < b.patch)
    || (a.major == b.major && a.minor == b.minor && a.patch == b.patch &&
        a.prerelease != "" &&
        (b.prerelease == "" || IdentifiersBelow(Split(a.prerelease, '.'), Split(b.prerelease, '.'))))
  }

  lemma SpecIdentifierCompare(a: string, b: string)
    requires SpecIdentifier(a) && SpecIdentifier(b) && a != b
    ensures CompareIdentifier(a, b) < 0 <==> IdentifierBelow(a, b)
  {
    AtoiOfIdentifier(a);
    AtoiOfIdentifier(b);
  }

  lemma AtoiOfIdentifier(id: string)
    requires SpecIdentifier(id)
    ensures Atoi(id) == if Digits(id) then Some(DecimalValue(id)) else None
  {
    if id[0] == '-' || id[0] == '+' {
      assert !IsDigit(id[0]) && !IdentifierChar('+');
    }
  }

  lemma {:induction false} SpecIdentifiersCompare(aa: seq<string>, bb: seq<string>)
    requires forall i :: 0 <= i < |aa| ==> SpecIdentifier(aa[i])
    requires forall i :: 0 <= i < |bb| ==> SpecIdentifier(bb[i])
    ensures CompareIdentifiers(aa, bb) < 0 <==> IdentifiersBelow(aa, bb)
  {
    if aa != [] && bb != [] {
      assert aa == [aa[0]] + aa[1..] && bb == [bb[0]] + bb[1..];
      if aa[0] == bb[0] {
        SpecIdentifiersCompare(aa[1..], bb[1..]);
        BelowTail(aa, bb);
      } else {
        SpecIdentifierCompare(aa[0], bb[0]);
        DifferenceAtHead(aa, bb);
      }
    }
  }

  lemma BelowTail(aa: seq<string>, bb: seq<string>)
    requires aa != [] && bb != [] && aa[0] == bb[0]
    ensures IdentifiersBelow(aa, bb) <==> IdentifiersBelow(aa[1..], bb[1..])
  {
    assert aa == [aa[0]] + aa[1..] && bb == [bb[0]] + bb[1..];
    forall k
      ensures FirstDifference(aa, bb, k) <==> FirstDifference(aa[1..], bb[1..], k - 1)
    {
      DifferenceTail(aa, bb, k);
    }
    if k :| FirstDifference(aa[1..], bb[1..], k) && IdentifierBelow(aa[1..][k], bb[1..][k]) {
      assert FirstDifference(aa, bb, k + 1);
    }
  }

  /** On well-formed prereleases compareSemver is the precedence of section 11. */
  lemma CompareIsSectionEleven(a: Semver, b: Semver)
    requires SpecPrerelease(a.prerelease) && SpecPrerelease(b.prerelease)
    ensures CompareSemver(a, b) < 0 <==> Below(a, b)
  {
    if a.prerelease != "" && b.prerelease != "" {
      var aa, bb := Split(a.prerelease, '.'), Split(b.prerelease, '.');
      SpecIdentifiersCompare(aa, bb);
      if a.prerelease == b.prerelease {
        IdentifiersAntisymmetric(aa, bb);
      }
    }
  }

  // ---- Choosing the next version ----------------------------------------------

  predicate IsAlphaPrerelease(pre: string) {
    Cut(pre, '.').0 == "alpha"
  }

  function Bump(v: Semver): Semver {
    Semver(v.major, v.minor, v.patch + 1, "")
  }

  /** The branches of nextVersion, for a stable `prev`. */
  function NextOf(prev: Semver, cur: Semver): Semver {
    if cur.prerelease == "" && CompareSemver(cur, prev) > 0 then cur
    else if cur.prerelease != "" && CompareSemver(Core(cur), prev) > 0 then Core(cur)
    else Bump(prev)
  }

  function NextVersion(previous: string, current: string): Option<string> {
    var prev :- ParseSemver(previous);
    if prev.prerelease != "" then None
    else
      var cur :- ParseSemver(current);
      Some(StableString(NextOf(prev, cur)))
  }

  function NextBootstrapVersion(previous: string, current: string): Option<string> {
    var prev :- ParseSemver(previous);
    if prev.prerelease == "" then NextVersion(previous, current)
    else
      var cur :- ParseSemver(current);
      if CompareSemver(cur, prev) < 0 then None else Some(StableString(Core(cur)))
  }

  /** `v` is a stable version, spelled without surrounding space, strictly above `previous`. */
  ghost predicate Advances(previous: string, v: string) {
    && ParseSemver(previous).Some? && Stable(v) && TrimSpace(v) == v
    && CompareSemver(ParseSemver(v).value, ParseSemver(previous).value) > 0
  }

  lemma NextOfIsLarger(prev: Semver, cur: Semver)
    requires prev.prerelease == ""
    ensures NextOf(prev, cur) == if CompareSemver(Core(cur), Bump(prev)) > 0 then Core(cur) else Bump(prev)
    ensures CompareSemver(NextOf(prev, cur), prev) > 0
  {
  }

  lemma AdvancesOf(previous: string, v: Semver)
    requires ParseSemver(previous).Some? && v.prerelease == ""
    requires CompareSemver(v, ParseSemver(previous).value) > 0
    ensures Advances(previous, StableString(v)) && ParseSemver(StableString(v)) == Some(v)
  {
    StableRoundTrip(v);
  }

  /** The next version is the larger of VERSION's core and the patch bump of the previous
      version, and it fails exactly when a version does not parse or the previous is unstable. */
  lemma NextVersionIsLarger(previous: string, current: string)
    ensures NextVersion(previous, current).Some? <==> Stable(previous) && ParseSemver(current).Some?
    ensures NextVersion(previous, current).Some? ==>
              var v := NextVersion(previous, current).value;
              var core, bump := Core(ParseSemver(current).value), Bump(ParseSemver(previous).value);
              Advances(previous, v) &&
              ParseSemver(v) == Some(if CompareSemver(core, bump) > 0 then core else bump)
  {
    if Stable(previous) && ParseSemver(current).Some? {
      var prev, cur := ParseSemver(previous).value, ParseSemver(current).value;
      NextOfIsLarger(prev, cur);
      AdvancesOf(previous, NextOf(prev, cur));
    }
  }

  lemma CoreAdvances(prev: Semver, cur: Semver)
    requires prev.prerelease != "" && CompareSemver(cur, prev) >= 0
    ensures CompareSemver(Core(cur), prev) > 0
  {
  }

  /** The bootstrap bridge: a prerelease baseline is promoted to VERSION's core, and refused
      exactly when VERSION does not parse or is older than it. */
  lemma NextBootstrapVersionAdvances(previous: string, current: string)
    ensures NextBootstrapVersion(previous, current).Some? ==>
              Advances(previous, NextBootstrapVersion(previous, current).value)
    ensures ParseSemver(previous).Some? && !Stable(previous) ==>
              (NextBootstrapVersion(previous, current).Some? <==>
               ParseSemver(current).Some? &&
               CompareSemver(ParseSemver(current).value, ParseSemver(previous).value) >= 0)
    ensures !Stable(previous) && NextBootstrapVersion(previous, current).Some? ==>
              ParseSemver(NextBootstrapVersion(previous, current).value) == Some(Core(ParseSemver(current).value))
    ensures Stable(previous) ==> NextBootstrapVersion(previous, current) == NextVersion(previous, current)
  {
    if Stable(previous) {
      NextVersionIsLarger(previous, current);
    } else if NextBootstrapVersion(previous, current).Some? {
      CoreAdvances(ParseSemver(previous).value, ParseSemver(current).value);
      AdvancesOf(previous, Core(ParseSemver(current).value));
    }
  }
}
