/** registry/proxy/factory.go: giving listener ports to the proxies that lack one. */
module ListenerPorts {

  const RANGE_START := 50001
  const RANGE_END := 51000  // exclusive

  class ProxyConfig {
    const name: string
    var listenerPort: nat

    constructor (name: string, listenerPort: nat)
      ensures this.name == name && this.listenerPort == listenerPort
    {
      this.name := name;
      this.listenerPort := listenerPort;
    }
  }

  ghost predicate DistinctObjects(proxies: seq<ProxyConfig>) {
    forall i, j :: 0 <= i < j < |proxies| ==> proxies[i] != proxies[j]
  }

  function Ports(proxies: seq<ProxyConfig>): (r: seq<nat>)
    reads proxies
    ensures |r| == |proxies| && forall i :: 0 <= i < |r| ==> r[i] == proxies[i].listenerPort
  {
    if proxies == [] then [] else Ports(proxies[..|proxies| - 1]) + [proxies[|proxies| - 1].listenerPort]
  }

  method NeedToFillProxyListenerPorts(proxies: seq<ProxyConfig>) returns (need: bool)
    ensures need <==> 0 in Ports(proxies)
  {
    for i := 0 to |proxies|
      invariant forall j :: 0 <= j < i ==> proxies[j].listenerPort > 0
    {
      if proxies[i].listenerPort == 0 {
        assert Ports(proxies)[i] == 0;
        return true;
      }
    }
    return false;
  }

  // ---- What an allocation is ----------------------------------------------------

  ghost predicate InRange(port: nat) {
    RANGE_START <= port < RANGE_END
  }

  ghost predicate Assigned(before: seq<nat>, after: seq<nat>, i: int)
    requires |before| == |after|
  {
    0 <= i < |before| && before[i] == 0 && after[i] != 0
  }

  /** `after` gives ports to zero entries of `before`: existing ports stay; a new port is the
      lowest in range that no existing or earlier new port uses, and goes to the first proxy that
      lacks one; zeros remain only when the range is exhausted. */
  ghost predicate Allocation(before: seq<nat>, after: seq<nat>) {
    && |before| == |after|
    && (forall i :: 0 <= i < |before| && before[i] != 0 ==> after[i] == before[i])
    && (forall i :: Assigned(before, after, i) ==> InRange(after[i]))
    && (forall i, j :: Assigned(before, after, i) && 0 <= j < |after| && j != i ==> after[j] != after[i])
    && (forall i, q :: Assigned(before, after, i) && InRange(q) && q < after[i] ==> q in before || q in after[..i])
    && (forall i, j :: 0 <= i < j < |after| && after[i] == 0 ==> !Assigned(before, after, j))
    && (0 in after ==> forall q :: InRange(q) ==> q in after)
  }

  /** Fills in place, first proxy first, lowest free port first. */
  method FillProxyListenerPorts(proxies: seq<ProxyConfig>) returns (filled: bool)
    requires DistinctObjects(proxies)
    modifies proxies
    ensures Allocation(old(Ports(proxies)), Ports(proxies))
    ensures filled <==> Ports(proxies) != old(Ports(proxies))
  {
    hide Ports, Partial, Allocation;
    ghost var before := Ports(proxies);
    ghost var now := before;
    var used := UsedPorts(proxies);
    StartPartial(before);
    filled := false;
    for i := 0 to |proxies|
      invariant |now| == |proxies| && forall j :: 0 <= j < |proxies| ==> proxies[j].listenerPort == now[j]
      invariant forall q :: q in used <==> q != 0 && q in now
      invariant Partial(before, now, i)
      invariant filled <==> now != before
    {
      PartialAt(before, now, i);
      if proxies[i].listenerPort == 0 {
        var port := LowestFree(used);
        if port < RANGE_END {
          proxies[i].listenerPort := port;
          Extend(before, now, i, port);
          UsedMore(now, i, port);
          now := now[i := port];
          used := used + {port};
          filled := true;
          assert now[i] != before[i];
        } else {
          Exhausted(before, now, i);
        }
      } else {
        Pass(before, now, i);
      }
    }
    assert Ports(proxies) == now;
    Finish(before, now);
  }

  method UsedPorts(proxies: seq<ProxyConfig>) returns (used: set<nat>)
    ensures forall q :: q in used <==> q != 0 && q in Ports(proxies)
  {
    hide Ports;
    used := {};
    ghost var ports := Ports(proxies);
    for i := 0 to |proxies|
      invariant forall q :: q in used <==> q != 0 && q in ports[..i]
    {
      assert ports[..i + 1] == ports[..i] + [ports[i]];
      if proxies[i].listenerPort > 0 {
        used := used + {proxies[i].listenerPort};
      }
    }
    assert ports[..|proxies|] == ports;
  }

  /** The inner scan; `RANGE_END` when every port of the range is used. */
  method LowestFree(used: set<nat>) returns (port: nat)
    ensures RANGE_START <= port <= RANGE_END
    ensures port < RANGE_END ==> port !in used
    ensures forall q: nat :: RANGE_START <= q < port ==> q in used
  {
    port := RANGE_START;
    while port < RANGE_END && port in used
      invariant RANGE_START <= port <= RANGE_END
      invariant forall q: nat :: RANGE_START <= q < port ==> q in used
    {
      port := port + 1;
    }
  }

  /** The allocation of the first `n` proxies. */
  ghost predicate Partial(before: seq<nat>, now: seq<nat>, n: nat) {
    && |before| == |now| && n <= |now|
    && (forall j :: 0 <= j < |before| && (n <= j || before[j] != 0) ==> now[j] == before[j])
    && (forall i :: Assigned(before, now, i) ==> InRange(now[i]))
    && (forall i, j :: Assigned(before, now, i) && 0 <= j < |now| && j != i ==> now[j] != now[i])
    && (forall i, q :: Assigned(before, now, i) && InRange(q) && q < now[i] ==> q in before || q in now[..i])
    && (forall i, j :: 0 <= i < j < |now| && now[i] == 0 ==> !Assigned(before, now, j))
    && (0 in now[..n] ==> forall q :: InRange(q) ==> q in now)
  }

  lemma StartPartial(before: seq<nat>)
    ensures Partial(before, before, 0)
  {
  }

  lemma PartialAt(before: seq<nat>, now: seq<nat>, i: nat)
    requires Partial(before, now, i) && i < |now|
    ensures |before| == |now| && now[i] == before[i]
  {
  }

  lemma UsedMore(now: seq<nat>, i: nat, port: nat)
    requires i < |now| && now[i] == 0 && port != 0
    ensures forall q :: q != 0 && q in now[i := port] <==> q != 0 && (q in now || q == port)
  {
    var next := now[i := port];
    assert next[i] == port;
    forall q | q in now && q != 0
      ensures q in next
    {
      var j :| 0 <= j < |now| && now[j] == q;
      assert next[j] == q;
    }
  }

  /** A port already there needs no assignment. */
  lemma Pass(before: seq<nat>, now: seq<nat>, i: nat)
    requires Partial(before, now, i) && i < |now| && now[i] != 0
    ensures Partial(before, now, i + 1)
  {
    assert now[..i + 1] == now[..i] + [now[i]];
  }

  /** A zero is left only when the whole range is used. */
  lemma Exhausted(before: seq<nat>, now: seq<nat>, i: nat)
    requires Partial(before, now, i) && i < |now|
    requires forall q: nat :: RANGE_START <= q < RANGE_END ==> q in now
    ensures Partial(before, now, i + 1)
  {
  }

  lemma Extend(before: seq<nat>, now: seq<nat>, i: nat, port: nat)
    requires Partial(before, now, i) && i < |now| && now[i] == 0
    requires InRange(port) && port !in now
    requires forall q: nat :: InRange(q) && q < port ==> q in now
    ensures Partial(before, now[i := port], i + 1)
  {
    var next := now[i := port];
    assert next[..i] == now[..i] && next[..i + 1] == now[..i] + [port];
    assert 0 !in now[..i];
    forall k | Assigned(before, next, k) && k != i
      ensures k < i && Assigned(before, now, k) && next[..k] == now[..k]
    {
    }
    forall k, q | Assigned(before, next, k) && InRange(q) && q < next[k]
      ensures q in before || q in next[..k]
    {
      if k == i {
        var j :| 0 <= j < |now| && now[j] == q;
        assert if j < i then next[..i][j] == q else before[j] == q;
      }
    }
    assert forall k :: 0 <= k < i ==> now[..i][k] == now[k];
  }

  lemma Finish(before: seq<nat>, now: seq<nat>)
    requires Partial(before, now, |now|)
    ensures Allocation(before, now)
  {
    assert now[..|now|] == now;
  }

  // ---- Consequences -------------------------------------------------------------

  /** A newly assigned port is in range and used neither before nor by an earlier assignment. */
  lemma FreeBefore(before: seq<nat>, b: seq<nat>, i: nat)
    requires Allocation(before, b) && Assigned(before, b, i)
    ensures InRange(b[i]) && b[i] !in before && b[i] !in b[..i]
  {
    forall j | 0 <= j < |before|
      ensures before[j] != b[i]
    {
      assert before[j] != 0 ==> b[j] == before[j] && j != i;
    }
    assert forall j :: 0 <= j < i ==> b[..i][j] == b[j];
  }

  /** A second allocation of an allocated list changes nothing: the save-and-return step of
      Reconcile happens at most once per spec. */
  lemma SecondFillChangesNothing(before: seq<nat>, after: seq<nat>, again: seq<nat>)
    requires Allocation(before, after) && Allocation(after, again)
    ensures again == after
  {
    forall i | 0 <= i < |after|
      ensures again[i] == after[i]
    {
      if Assigned(after, again, i) {
        assert after[i] in after && InRange(again[i]);
        FreeBefore(after, again, i);
      }
    }
  }

  /** The allocation is determined by the input. */
  lemma {:induction false} AllocationUnique(before: seq<nat>, a: seq<nat>, b: seq<nat>, n: nat)
    requires Allocation(before, a) && Allocation(before, b) && n <= |before|
    ensures a[..n] == b[..n]
  {
    hide Allocation;
    SameLength(before, a);
    SameLength(before, b);
    if n > 0 {
      AllocationUnique(before, a, b, n - 1);
      assert a[..n] == a[..n - 1] + [a[n - 1]] && b[..n] == b[..n - 1] + [b[n - 1]];
      SameAt(before, a, b, n - 1);
    }
  }

  lemma SameLength(before: seq<nat>, a: seq<nat>)
    requires Allocation(before, a)
    ensures |a| == |before|
  {
  }

  lemma SameAt(before: seq<nat>, a: seq<nat>, b: seq<nat>, i: nat)
    requires Allocation(before, a) && Allocation(before, b) && i < |before| && a[..i] == b[..i]
    ensures a[i] == b[i]
  {
    if before[i] == 0 {
      if b[i] != 0 { NotAbove(before, a, b, i); }
      if a[i] != 0 { NotAbove(before, b, a, i); }
    }
  }

  /** If `b` assigns a port at `i`, `a` assigns one that is not higher. */
  lemma NotAbove(before: seq<nat>, a: seq<nat>, b: seq<nat>, i: nat)
    requires Allocation(before, a) && Allocation(before, b) && i < |before| && a[..i] == b[..i] && before[i] == 0 &&
              b[i] != 0
    ensures a[i] != 0 && a[i] <= b[i]
  {
    assert Assigned(before, b, i) && InRange(b[i]);
    FreeBefore(before, b, i);
    forall j | 0 <= j < |a| && a[i] == 0
      ensures a[j] != b[i]
    {
      if j < i { assert a[..i][j] == a[j]; }
      if j > i { assert !Assigned(before, a, j); }
    }
    assert a[i] in a;
  }

  // ---- How many ports are assigned ----------------------------------------------

  function Zeros(s: seq<nat>): nat {
    if s == [] then 0 else Zeros(s[..|s| - 1]) + if s[|s| - 1] == 0 then 1 else 0
  }

  /** The ports of the range a list uses. */
  ghost function UsedInRange(s: seq<nat>): set<nat> {
    set q: nat | RANGE_START <= q < RANGE_END && q in s
  }

  ghost function Range(): set<nat> {
    set q: nat | RANGE_START <= q < RANGE_END && InRange(q)
  }

  lemma {:induction false} ZerosUpdate(s: seq<nat>, i: nat, port: nat)
    requires i < |s| && s[i] == 0 && port != 0
    ensures Zeros(s) == Zeros(s[i := port]) + 1
  {
    var n := |s| - 1;
    if i == n {
      assert s[i := port][..n] == s[..n];
    } else {
      assert s[i := port][..n] == s[..n][i := port];
      ZerosUpdate(s[..n], i, port);
    }
  }

  lemma UsedUpdate(s: seq<nat>, i: nat, port: nat)
    requires i < |s| && s[i] == 0 && InRange(port) && port !in s
    ensures |UsedInRange(s[i := port])| == |UsedInRange(s)| + 1
  {
    UsedMore(s, i, port);
    assert UsedInRange(s[i := port]) == UsedInRange(s) + {port};
  }

  lemma {:induction false} ZerosMember(s: seq<nat>)
    ensures Zeros(s) > 0 <==> 0 in s
  {
    if s != [] {
      ZerosMember(s[..|s| - 1]);
      assert s == s[..|s| - 1] + [s[|s| - 1]];
    }
  }

  /** Conservation: each assignment turns one zero into one used port of the range. */
  lemma {:induction false} Conserved(before: seq<nat>, after: seq<nat>, k: nat)
    requires Allocation(before, after) && k <= |before|
    ensures |after| == |before|
    ensures var mid := after[..k] + before[k..];
            |UsedInRange(mid)| + Zeros(mid) == |UsedInRange(before)| + Zeros(before)
  {
    if k == 0 {
      assert after[..0] + before[0..] == before;
    } else {
      var i := k - 1;
      Conserved(before, after, i);
      var mid, next := after[..i] + before[i..], after[..k] + before[k..];
      assert next == mid[i := after[i]];
      if Assigned(before, after, i) {
        FreeBefore(before, after, i);
        assert forall j :: 0 <= j < |mid| ==> mid[j] == if j < i then after[..i][j] else before[j];
        ZerosUpdate(mid, i, after[i]);
        UsedUpdate(mid, i, after[i]);
      } else {
        assert next == mid;
      }
    }
  }

  /** The number of ports assigned is the smaller of the number of proxies without a port and the
      number of free ports in the range. */
  lemma AssignedCount(before: seq<nat>, after: seq<nat>)
    requires Allocation(before, after)
    ensures var lacking, free := Zeros(before), |Range() - UsedInRange(before)|;
            lacking - Zeros(after) == if lacking <= free then lacking else free
  {
    Conserved(before, after, |before|);
    assert after[..|before|] + before[|before|..] == after;
    ZerosMember(after);
    SubsetSize(UsedInRange(before), Range());
    SubsetSize(UsedInRange(after), Range());
    if Zeros(after) > 0 {
      assert UsedInRange(after) == Range();
    }
  }

  lemma SubsetSize(a: set<nat>, b: set<nat>)
    requires a <= b
    ensures |b - a| == |b| - |a|
  {
    assert b == a + (b - a);
  }
}
