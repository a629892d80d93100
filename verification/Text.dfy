/** Go strings: the byte-wise order, sorting, and the parts of package strings the tools use. */
module Text {
  import opened Wrappers

  /** The order of Go's `<` on strings. */
  predicate StrLt(a: string, b: string)
    decreases b
  {
    b != [] && (a == [] || a[0] < b[0] || (a[0] == b[0] && StrLt(a[1..], b[1..])))
  }

  lemma {:induction false} StrLtTotal(a: string, b: string)
    ensures StrLt(a, b) || a == b || StrLt(b, a)
    ensures !(StrLt(a, b) && StrLt(b, a))
    ensures a == b ==> !StrLt(a, b)
    decreases |b|
  {
    if a != [] && b != [] {
      StrLtTotal(a[1..], b[1..]);
      assert a[0] == b[0] && a[1..] == b[1..] ==> a == [a[0]] + a[1..] == [b[0]] + b[1..] == b;
    }
  }

  lemma {:induction false} StrLtTrans(a: string, b: string, c: string)
    requires StrLt(a, b) && StrLt(b, c)
    ensures StrLt(a, c)
    decreases |b|
  {
    if a != [] && a[0] == b[0] == c[0] {
      StrLtTrans(a[1..], b[1..], c[1..]);
    }
  }

  ghost predicate Sorted(xs: seq<string>) {
    forall i, j :: 0 <= i < j < |xs| ==> !StrLt(xs[j], xs[i])
  }

  ghost predicate StrictlySorted(xs: seq<string>) {
    forall i, j :: 0 <= i < j < |xs| ==> StrLt(xs[i], xs[j])
  }

  /** Puts one string at its place in a sorted list. */
  function Insert(x: string, xs: seq<string>): (r: seq<string>)
    ensures multiset(r) == multiset(xs) + multiset{x}
    ensures forall y :: y in r <==> y == x || y in xs
  {
    if xs == [] || StrLt(x, xs[0]) then
      [x] + xs
    else
      assert xs == [xs[0]] + xs[1..];
      [xs[0]] + Insert(x, xs[1..])
  }

  lemma {:induction false} InsertSorted(x: string, xs: seq<string>)
    requires Sorted(xs)
    ensures Sorted(Insert(x, xs))
  {
    if xs != [] && StrLt(x, xs[0]) {
      forall i | 0 <= i < |xs|
        ensures !StrLt(xs[i], x)
      {
        if StrLt(xs[i], x) { StrLtTrans(xs[i], x, xs[0]); }
        StrLtTotal(xs[i], xs[0]);
      }
    } else if xs != [] {
      InsertSorted(x, xs[1..]);
      assert forall y :: y in xs[1..] ==> !StrLt(y, xs[0]);
      assert forall y :: y in Insert(x, xs[1..]) ==> !StrLt(y, xs[0]);
    }
  }

  lemma {:induction false} InsertStrictlySorted(x: string, xs: seq<string>)
    requires StrictlySorted(xs) && x !in xs
    ensures StrictlySorted(Insert(x, xs))
  {
    if xs != [] && StrLt(x, xs[0]) {
      forall i | 0 <= i < |xs|
        ensures StrLt(x, xs[i])
      {
        if i > 0 { StrLtTrans(x, xs[0], xs[i]); }
      }
    } else if xs != [] {
      StrLtTotal(x, xs[0]);
      InsertStrictlySorted(x, xs[1..]);
      assert forall y :: y in xs[1..] ==> StrLt(xs[0], y);
      assert forall y :: y in Insert(x, xs[1..]) ==> StrLt(xs[0], y);
    }
  }

  /** `sort.Strings`: the sorted rearrangement, which is unique (SortedUnique). */
  function SortStrings(xs: seq<string>): (r: seq<string>)
    ensures Sorted(r)
    ensures multiset(r) == multiset(xs)
  {
    if xs == [] then [] else
      assert xs == [xs[0]] + xs[1..];
      InsertSorted(xs[0], SortStrings(xs[1..]));
      Insert(xs[0], SortStrings(xs[1..]))
  }

  lemma {:induction false} SortedUnique(a: seq<string>, b: seq<string>)
    requires Sorted(a) && Sorted(b) && multiset(a) == multiset(b)
    ensures a == b
  {
    if a == [] {
      assert |multiset(b)| == 0;
    } else {
      assert a[0] in multiset(b) && |multiset(a)| == |a|;
      assert b != [];
      assert b[0] in multiset(a);
      StrLtTotal(a[0], b[0]);
      assert a[0] == b[0];
      assert a == [a[0]] + a[1..] && b == [b[0]] + b[1..];
      assert multiset(a[1..]) == multiset(a) - multiset{a[0]};
      assert multiset(b[1..]) == multiset(b) - multiset{b[0]};
      SortedUnique(a[1..], b[1..]);
    }
  }

  lemma {:induction false} StrictlySortedUnique(a: seq<string>, b: seq<string>)
    requires StrictlySorted(a) && StrictlySorted(b)
    requires forall x :: x in a <==> x in b
    ensures a == b
  {
    if a == [] {
      assert forall i :: 0 <= i < |b| ==> b[i] in b;
    } else {
      assert a[0] in b && b != [] && b[0] in a;
      StrLtTotal(a[0], b[0]);
      assert a[0] == b[0];
      forall x
        ensures x in a[1..] <==> x in b[1..]
      {
        StrLtTotal(a[0], a[0]);
        assert x in a <==> x == a[0] || x in a[1..];
        assert x in b <==> x == b[0] || x in b[1..];
        assert a[0] !in a[1..] && b[0] !in b[1..];
      }
      StrictlySortedUnique(a[1..], b[1..]);
    }
  }

  lemma StrictlySortedDistinct(xs: seq<string>, i: nat, j: nat)
    requires StrictlySorted(xs) && i < |xs| && j < |xs| && xs[i] == xs[j]
    ensures i == j
  {
    StrLtTotal(xs[i], xs[j]);
  }

  /** The elements of a finite set in ascending order. */
  ghost function Ascending(s: set<string>): (r: seq<string>)
    ensures StrictlySorted(r)
    ensures forall x :: x in r <==> x in s
  {
    if s == {} then [] else
      var x :| x in s;
      InsertStrictlySorted(x, Ascending(s - {x}));
      Insert(x, Ascending(s - {x}))
  }

  // ---- package strings ------------------------------------------------------

  predicate HasPrefix(s: string, p: string) {
    p <= s
  }

  predicate HasSuffix(s: string, p: string) {
    |p| <= |s| && s[|s| - |p|..] == p
  }

  predicate Contains(s: string, p: string) {
    exists i :: 0 <= i <= |s| && p <= s[i..]
  }

  /** `unicode.IsSpace`. */
  predicate IsSpace(c: char) {
    || c == ' ' || '\t' <= c <= '\r' || c == '\U{85}' || c == '\U{A0}' || c == '\U{1680}'
    || '\U{2000}' <= c <= '\U{200A}' || c == '\U{2028}' || c == '\U{2029}' || c == '\U{202F}'
    || c == '\U{205F}' || c == '\U{3000}'
  }

  function TrimLeft(s: string): string {
    if s != [] && IsSpace(s[0]) then TrimLeft(s[1..]) else s
  }

  function TrimRight(s: string): string {
    if s != [] && IsSpace(s[|s| - 1]) then TrimRight(s[..|s| - 1]) else s
  }

  /** `strings.TrimSpace`. */
  function TrimSpace(s: string): string {
    TrimRight(TrimLeft(s))
  }

  ghost predicate Trimmed(s: string) {
    s == [] || (!IsSpace(s[0]) && !IsSpace(s[|s| - 1]))
  }

  lemma {:induction false} TrimLeftEnds(s: string)
    ensures TrimLeft(s) == [] || !IsSpace(TrimLeft(s)[0])
  {
    hide IsSpace;
    if s != [] && IsSpace(s[0]) { TrimLeftEnds(s[1..]); }
  }

  lemma {:induction false} TrimRightEnds(s: string)
    ensures TrimRight(s) == [] || !IsSpace(TrimRight(s)[|TrimRight(s)| - 1])
    ensures TrimRight(s) <= s
  {
    hide IsSpace;
    if s != [] && IsSpace(s[|s| - 1]) { TrimRightEnds(s[..|s| - 1]); }
  }

  /** The trimmed texts are exactly the fixpoints of trimming, and trimming reaches one. */
  lemma TrimFixpoint(s: string)
    ensures Trimmed(TrimSpace(s))
    ensures TrimSpace(s) == s <==> Trimmed(s)
  {
    hide IsSpace;
    TrimLeftEnds(s);
    TrimRightEnds(TrimLeft(s));
  }

  lemma TrimTwice(s: string)
    ensures TrimSpace(TrimSpace(s)) == TrimSpace(s)
  {
    hide IsSpace, TrimSpace;
    TrimFixpoint(s);
    TrimFixpoint(TrimSpace(s));
  }

  lemma {:induction false} TrimLeftTrailing(s: string, c: char)
    requires IsSpace(c)
    ensures TrimLeft(s + [c]) == if TrimLeft(s) == [] then [] else TrimLeft(s) + [c]
  {
    hide IsSpace;
    var t := s + [c];
    if s == [] {
      assert t[0] == c && t[1..] == [];
    } else {
      assert t[0] == s[0] && t[1..] == s[1..] + [c];
      TrimLeftTrailing(s[1..], c);
    }
  }

  /** A trailing space, such as the newline that applyPlan appends, is invisible after trimming. */
  lemma TrimTrailing(s: string, c: char)
    requires IsSpace(c)
    ensures TrimSpace(s + [c]) == TrimSpace(s)
  {
    hide IsSpace;
    TrimLeftTrailing(s, c);
    var t := TrimLeft(s) + [c];
    assert t[|t| - 1] == c && t[..|t| - 1] == TrimLeft(s);
  }

  /** `strings.Cut` on a one-character separator. */
  function Cut(s: string, c: char): (r: (string, Option<string>))
    ensures c !in r.0
    ensures r.1.None? ==> r.0 == s
    ensures r.1.Some? ==> s == r.0 + [c] + r.1.value
  {
    if s == [] then ([], None)
    else if s[0] == c then ([], Some(s[1..]))
    else
      var (before, after) := Cut(s[1..], c);
      assert s == [s[0]] + s[1..];
      ([s[0]] + before, after)
  }

  lemma {:induction false} CutAt(before: string, c: char, after: string)
    requires c !in before
    ensures Cut(before + [c] + after, c) == (before, Some(after))
    ensures Cut(before, c) == (before, None)
  {
    var s := before + [c] + after;
    if before != [] {
      assert s[1..] == before[1..] + [c] + after;
      CutAt(before[1..], c, after);
      assert before == [before[0]] + before[1..];
    } else {
      assert s[1..] == after;
    }
  }

  /** `strings.Split` on a one-character separator. */
  function Split(s: string, c: char): (r: seq<string>)
    ensures |r| >= 1
    decreases |s|
  {
    var (before, after) := Cut(s, c);
    if after.None? then [before] else [before] + Split(after.value, c)
  }

  lemma {:induction false} SplitInjective(a: string, b: string, c: char)
    requires Split(a, c) == Split(b, c)
    ensures a == b
    decreases |a|
  {
    var (x, r) := Cut(a, c);
    var (y, t) := Cut(b, c);
    assert Split(a, c)[0] == x && Split(b, c)[0] == y;
    if r.Some? && t.Some? {
      assert Split(a, c)[1..] == Split(r.value, c) && Split(b, c)[1..] == Split(t.value, c);
      SplitInjective(r.value, t.value, c);
    }
  }

  /** `strings.ToLower` on ASCII. */
  function LowerCase(s: string): string {
    seq(|s|, i requires 0 <= i < |s| => if 'A' <= s[i] <= 'Z' then s[i] - 'A' + 'a' else s[i])
  }

  // ---- package strconv --------------------------------------------------------

  predicate IsDigit(c: char) {
    '0' <= c <= '9'
  }

  predicate Digits(s: string) {
    forall i :: 0 <= i < |s| ==> IsDigit(s[i])
  }

  function DigitChar(d: nat): (c: char)
    requires d < 10
    ensures IsDigit(c) && c as int - '0' as int == d
  {
    ('0' as int + d) as char
  }

  /** The number a digit string spells. */
  function DecimalValue(s: string): nat
    requires Digits(s)
  {
    if s == [] then 0
    else 10 * DecimalValue(s[..|s| - 1]) + (s[|s| - 1] as int - '0' as int)
  }

  /** `strconv.Itoa` on a natural number. */
  function Decimal(n: nat): (s: string)
    ensures Digits(s) && s != [] && DecimalValue(s) == n
    ensures n > 0 ==> s[0] != '0'
    ensures n == 0 ==> s == "0"
  {
    if n < 10 then
      [DigitChar(n)]
    else
      var s := Decimal(n / 10) + [DigitChar(n % 10)];
      assert s[..|s| - 1] == Decimal(n / 10);
      s
  }

  lemma {:induction false} DecimalValueUnique(a: string)
    requires Digits(a) && a != [] && (a == "0" || a[0] != '0')
    ensures Decimal(DecimalValue(a)) == a
  {
    var init := a[..|a| - 1];
    var d := a[|a| - 1] as int - '0' as int;
    if init == [] {
      assert a == [a[0]] && DecimalValue(a) == d;
      assert DigitChar(d) == a[0];
    } else {
      assert init[0] == a[0] && Digits(init);
      DecimalValueUnique(init);
      assert DecimalValue(init) > 0;
      assert DecimalValue(a) / 10 == DecimalValue(init) && DecimalValue(a) % 10 == d;
      assert a == init + [a[|a| - 1]] && DigitChar(d) == a[|a| - 1];
    }
  }
}
