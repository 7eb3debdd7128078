/** Where client connections go: the list of backends and the round-robin over it
    (proxy.rs). */
module Proxy {
  import opened Types
  import opened LocalNodes
  import opened MemberTables

  // ---- The order of addresses -----------------------------------------------------

  function IpVersion(ip: Ip): nat { if ip.V4? then 4 else 6 }

  /** IPv4 before IPv6, then by address, then by port. */
  predicate Before(a: Addr, b: Addr) {
    || IpVersion(a.ip) < IpVersion(b.ip)
    || (IpVersion(a.ip) == IpVersion(b.ip) && a.ip.bits < b.ip.bits)
    || (a.ip == b.ip && a.port < b.port)
  }

  /** One address always comes before the other, and every IPv4 before every IPv6. */
  lemma BeforeIsAnOrder(a: Addr, b: Addr, c: Addr)
    ensures (Before(a, b) && !Before(b, a) && a != b) || (Before(b, a) && !Before(a, b) && a != b) || (a == b && !Before(a, b))
    ensures Before(a, b) && Before(b, c) ==> Before(a, c)
    ensures a.ip.V4? && b.ip.V6? ==> Before(a, b)
    ensures a.ip.V4? == b.ip.V4? && a.ip.bits < b.ip.bits ==> Before(a, b)
    ensures a.ip == b.ip && a.port < b.port ==> Before(a, b)
  {
  }

  ghost predicate Ascending(s: seq<Addr>) {
    forall i, j :: 0 <= i < j < |s| ==> s[i] == s[j] || Before(s[i], s[j])
  }

  ghost predicate StrictlyAscending(s: seq<Addr>) {
    forall i, j :: 0 <= i < j < |s| ==> Before(s[i], s[j])
  }

  function Insert(a: Addr, s: seq<Addr>): seq<Addr> {
    if s == [] || !Before(s[0], a) then [a] + s else [s[0]] + Insert(a, s[1..])
  }

  function Sort(s: seq<Addr>): seq<Addr> {
    if s == [] then [] else Insert(s[0], Sort(s[1..]))
  }

  lemma {:induction false} InsertSorts(a: Addr, s: seq<Addr>)
    requires Ascending(s)
    ensures Ascending(Insert(a, s))
    ensures forall x :: x in Insert(a, s) <==> x == a || x in s
    decreases |s|
  {
    if s != [] && Before(s[0], a) {
      var rest := Insert(a, s[1..]);
      InsertSorts(a, s[1..]);
      assert s == [s[0]] + s[1..];
      forall i | 0 <= i < |rest| ensures rest[i] == s[0] || Before(s[0], rest[i]) {
        assert rest[i] in rest;
        if rest[i] != a {
          var j :| 0 <= j < |s| - 1 && s[1..][j] == rest[i];
          assert s[j + 1] == rest[i];
        }
      }
    }
  }

  lemma {:induction false} SortSorts(s: seq<Addr>)
    ensures Ascending(Sort(s))
    ensures forall x :: x in Sort(s) <==> x in s
    decreases |s|
  {
    if s != [] {
      SortSorts(s[1..]);
      InsertSorts(s[0], Sort(s[1..]));
      assert s == [s[0]] + s[1..];
    }
  }

  /** A strictly ascending list is determined by what is in it. */
  lemma {:induction false} AscendingListIsUnique(a: seq<Addr>, b: seq<Addr>)
    requires StrictlyAscending(a) && StrictlyAscending(b)
    requires forall x :: x in a <==> x in b
    ensures a == b
    decreases |a|
  {
    assert (b != [] ==> b[0] in a) && (a != [] ==> a[0] in b);
    if a != [] && b != [] {
      var i :| 0 <= i < |b| && b[i] == a[0];
      var j :| 0 <= j < |a| && a[j] == b[0];
      assert a[0] == b[0];
      assert a == [a[0]] + a[1..] && b == [b[0]] + b[1..];
      forall x ensures x in a[1..] <==> x in b[1..] {
        HeadIsNotInTail(a);
        HeadIsNotInTail(b);
        assert x in a <==> x == a[0] || x in a[1..];
        assert x in b <==> x == b[0] || x in b[1..];
      }
      AscendingListIsUnique(a[1..], b[1..]);
    }
  }

  lemma HeadIsNotInTail(s: seq<Addr>)
    requires StrictlyAscending(s) && s != []
    ensures s[0] !in s[1..]
  {
    forall i | 0 <= i < |s| - 1 ensures s[1..][i] != s[0] {
      assert Before(s[0], s[i + 1]);
    }
  }

  // ---- The backends -----------------------------------------------------------------

  predicate HasTag(tags: Tags, tag: Option<string>) { tag == None || tag.value in tags }

  function At(addr: Addr, port: Port): Addr { Addr(addr.ip, port) }

  /** The service of every member that is alive, ready and carries the tag, and our own
      under the same rule. */
  function BackendSet(local: Local, t: Table, port: Port, tag: Option<string>): set<Addr> {
    (set id | id in t && IsReady(t[id]) && HasTag(t[id].tags, tag) :: At(t[id].addr, port))
    + if local.ready && HasTag(local.tags, tag) then {At(local.addr, port)} else {}
  }

  /** An alive member at this address that is ready, and carries the tag if one is asked for. */
  predicate ServesAt(m: Member, ip: Ip, tag: Option<string>) {
    m.addr.ip == ip && m.state == MemberState.Alive && m.ready && (tag == None || tag.value in m.tags)
  }

  lemma BackendSetIs(local: Local, t: Table, port: Port, tag: Option<string>, x: Addr)
    ensures x in BackendSet(local, t, port, tag) <==>
      && x.port == port
      && ((exists id :: id in t && ServesAt(t[id], x.ip, tag))
          || (local.addr.ip == x.ip && local.ready && (tag == None || tag.value in local.tags)))
  {
    forall id | id in t && x == At(t[id].addr, port) ensures ServesAt(t[id], x.ip, tag) <==> IsReady(t[id]) && HasTag(t[id].tags, tag) {}
    if id :| id in t && ServesAt(t[id], x.ip, tag) && x.port == port {
      assert x == At(t[id].addr, port);
    }
  }

  method Dedup(s: seq<Addr>) returns (r: seq<Addr>)
    requires Ascending(s)
    ensures StrictlyAscending(r)
    ensures forall x :: x in r <==> x in s
  {
    r := [];
    for i := 0 to |s|
      invariant StrictlyAscending(r)
      invariant i == 0 <==> r == []
      invariant r != [] ==> r[|r| - 1] == s[i - 1]
      invariant forall x :: x in r <==> x in s[..i]
    {
      assert s[..i + 1] == s[..i] + [s[i]];
      if r == [] || r[|r| - 1] != s[i] {
        r := r + [s[i]];
      } else {
        assert s[i] in r;
      }
    }
    assert s[..|s|] == s;
  }

  /** Whatever order the table lists its members in, the result is the one strictly
      ascending list of the backends. */
  method Backends(node: LocalNode, table: MemberTable, port: Port, tag: Option<string>) returns (addrs: seq<Addr>)
    requires WellFormed(table.members)
    ensures StrictlyAscending(addrs)
    ensures forall x :: x in addrs <==> x in BackendSet(node.Value(), table.members, port, tag)
    ensures forall x: Addr :: x in addrs <==>
      && x.port == port
      && ((exists id :: id in table.members && ServesAt(table.members[id], x.ip, tag))
          || (node.addr.ip == x.ip && node.ready && (tag == None || tag.value in node.tags)))
  {
    var ready := table.Ready();
    var found: seq<Addr> := [];
    for i := 0 to |ready|
      invariant forall x :: x in found <==>
        exists j :: 0 <= j < i && HasTag(ready[j].tags, tag) && x == At(ready[j].addr, port)
    {
      if tag == None || tag.value in ready[i].tags {
        found := found + [At(ready[i].addr, port)];
      }
    }
    ReadyBackends(table.members, ready, found, port, tag);
    if node.ready && HasTag(node.tags, tag) {
      found := found + [At(node.addr, port)];
    }
    SortSorts(found);
    addrs := Dedup(Sort(found));
    forall x: Addr {
      BackendSetIs(node.Value(), table.members, port, tag, x);
    }
  }

  lemma ReadyBackends(t: Table, ready: seq<Member>, found: seq<Addr>, port: Port, tag: Option<string>)
    requires WellFormed(t) && Lists(ready, t, IsReady)
    requires forall x :: x in found <==>
      exists j :: 0 <= j < |ready| && HasTag(ready[j].tags, tag) && x == At(ready[j].addr, port)
    ensures forall x :: x in found <==>
      x in set id | id in t && IsReady(t[id]) && HasTag(t[id].tags, tag) :: At(t[id].addr, port)
  {
    forall id | id in t && IsReady(t[id]) && HasTag(t[id].tags, tag) ensures At(t[id].addr, port) in found {
      assert t[id] in ready;
      var j :| 0 <= j < |ready| && ready[j] == t[id];
    }
  }

  // ---- The round-robin ----------------------------------------------------------------

  /** The shared counter is a 64-bit word and wraps. */
  const WORD: nat := 0x1_0000_0000_0000_0000

  function Slot(start: nat, i: nat, len: nat): nat
    requires len > 0
  {
    (start + i) % WORD % len
  }

  class RoundRobin {
    var next: nat

    constructor ()
      ensures next == 0
    {
      next := 0;
    }

    /** Try every backend once, from where the last connection left off; `accepts(i)`
        says whether the i-th attempt connects. */
    method Forward(backends: seq<Addr>, accepts: nat -> bool) returns (tried: seq<Addr>, chosen: Option<Addr>)
      modifies this
      ensures next == (old(next) + 1) % 0x1_0000_0000_0000_0000
      ensures |tried| <= |backends|
      ensures forall i :: 0 <= i < |tried| ==> tried[i] == backends[Slot(old(next), i, |backends|)]
      ensures forall i :: 0 <= i < |tried| ==> tried[i] == backends[(old(next) + i) % 0x1_0000_0000_0000_0000 % |backends|]
      ensures forall i :: 0 <= i < |tried| - 1 ==> !accepts(i)
      ensures chosen == None ==> |tried| == |backends| && forall i :: 0 <= i < |tried| ==> !accepts(i)
      ensures chosen.Some? ==> tried != [] && accepts(|tried| - 1) && chosen.value == tried[|tried| - 1]
    {
      var start := next;
      next := (next + 1) % WORD;
      tried := [];
      for i := 0 to |backends|
        invariant |tried| == i && next == (start + 1) % WORD
        invariant forall j :: 0 <= j < i ==> tried[j] == backends[Slot(start, j, |backends|)] && !accepts(j)
      {
        var backend := backends[(start + i) % WORD % |backends|];
        tried := tried + [backend];
        if accepts(i) {
          return tried, Some(backend);
        }
      }
      return tried, None;
    }
  }

  /** The attempts of one connection, and equally the first attempts of consecutive
      connections, fall on `len` different backends. */
  ghost predicate VisitsEachOnce(start: nat, len: nat)
    requires len > 0
  {
    forall i, j :: 0 <= i < j < len ==> Slot(start, i, len) != Slot(start, j, len)
  }

  lemma {:induction false} ModOfMultiple(k: nat, len: nat)
    requires len > 0
    ensures k * len % len == 0
    decreases k
  {
    if k > 0 {
      ModOfMultiple(k - 1, len);
      assert k * len == (k - 1) * len + len;
      ModAddLen((k - 1) * len, len);
    }
  }

  lemma ModAddLen(a: nat, len: nat)
    requires len > 0
    ensures (a + len) % len == a % len
  {
    assert (a + len) / len == a / len + 1 by {
      assert a == a / len * len + a % len;
      DivUnique(a + len, len, a / len + 1, a % len);
    }
    DivUnique(a + len, len, a / len + 1, a % len);
  }

  lemma DivUnique(x: nat, len: nat, q: nat, r: nat)
    requires len > 0 && r < len && x == q * len + r
    ensures x / len == q && x % len == r
  {
    assert x == x / len * len + x % len;
    var d := x / len - q;
    assert d * len == r - x % len;
    assert d >= 1 ==> d * len >= len;
    assert d <= -1 ==> d * len + len <= 0;
  }

  lemma {:induction false} ModAddMultiple(a: nat, k: nat, len: nat)
    requires len > 0
    ensures (a + k * len) % len == a % len
    decreases k
  {
    if k > 0 {
      ModAddMultiple(a, k - 1, len);
      assert a + k * len == a + (k - 1) * len + len;
      ModAddLen(a + (k - 1) * len, len);
    }
  }

  /** Fewer than `len` steps never come back to the same remainder. */
  lemma ModDistinct(a: nat, d: nat, len: nat)
    requires 0 < d < len
    ensures (a + d) % len != a % len
  {
    var q, r := a / len, a % len;
    assert a == q * len + r;
    if r + d < len {
      DivUnique(a + d, len, q, r + d);
    } else {
      assert (q + 1) * len == q * len + len;
      DivUnique(a + d, len, q + 1, r + d - len);
    }
  }

  /** Wrapping shifts a slot by the remainder of the word. */
  lemma SlotAfterWrap(start: nat, i: nat, len: nat)
    requires 0 < len <= WORD && start < WORD && i < len
    ensures start + i < WORD ==> Slot(start, i, len) == (start + i) % len
    ensures start + i >= WORD ==> Slot(start, i, len) == (start + i - WORD) % len
  {
    if start + i >= WORD {
      DivUnique(start + i, WORD, 1, start + i - WORD);
    } else {
      DivUnique(start + i, WORD, 0, start + i);
    }
  }

  lemma SlotWhenWordDivides(start: nat, i: nat, len: nat)
    requires 0 < len <= WORD && start < WORD && i < len && WORD % len == 0
    ensures Slot(start, i, len) == (start + i) % len
  {
    SlotAfterWrap(start, i, len);
    if start + i >= WORD {
      assert WORD == WORD / len * len;
      ModAddMultiple(start + i - WORD, WORD / len, len);
    }
  }

  /** Every backend gets exactly one try exactly when the counter does not wrap on the
      way, or wraps where it does not matter. */
  lemma EachBackendOnceUnlessTheCounterWraps(start: nat, len: nat)
    requires 0 < len <= WORD && start < WORD
    ensures VisitsEachOnce(start, len) <==> start + len <= WORD || WORD % len == 0
  {
    if start + len <= WORD || WORD % len == 0 {
      forall i, j | 0 <= i < j < len ensures Slot(start, i, len) != Slot(start, j, len) {
        if WORD % len == 0 {
          SlotWhenWordDivides(start, i, len);
          SlotWhenWordDivides(start, j, len);
        } else {
          SlotAfterWrap(start, i, len);
          SlotAfterWrap(start, j, len);
        }
        ModDistinct(start + i, j - i, len);
      }
    } else {
      WrapCollides(start, len);
    }
  }

  lemma WrapCollides(start: nat, len: nat)
    requires 0 < len <= WORD && start < WORD && start + len > WORD && WORD % len != 0
    ensures !VisitsEachOnce(start, len)
  {
    var c, before, q := WORD % len, WORD - start, WORD / len;
    assert WORD == q * len + c;
    if before >= c {
      SlotAfterWrap(start, before - c, len);
      SlotAfterWrap(start, before, len);
      DivUnique(WORD - c, len, q, 0);
      DivUnique(0, len, 0, 0);
      assert Slot(start, before - c, len) == Slot(start, before, len);
    } else {
      SlotAfterWrap(start, 0, len);
      SlotAfterWrap(start, c, len);
      DivUnique(WORD - before, len, q, c - before);
      DivUnique(c - before, len, 0, c - before);
      assert Slot(start, 0, len) == Slot(start, c, len);
    }
  }

  /** Different backends, as many as there are: all of them. */
  lemma VisitingOnceVisitsAll(start: nat, len: nat, k: nat)
    requires 0 < len && k < len && VisitsEachOnce(start, len)
    ensures exists i :: 0 <= i < len && Slot(start, i, len) == k
  {
    var visited := SlotsUpTo(start, len, len);
    var all := Below(len);
    SlotCount(start, len, len);
    assert visited <= all;
    if k !in visited {
      assert visited <= all - {k};
      SubsetSize(visited, all - {k});
    }
  }

  function SlotsUpTo(start: nat, n: nat, len: nat): set<nat>
    requires len > 0
  {
    set i | 0 <= i < n :: Slot(start, i, len)
  }

  lemma {:induction false} SlotCount(start: nat, n: nat, len: nat)
    requires 0 < len && n <= len && VisitsEachOnce(start, len)
    ensures |SlotsUpTo(start, n, len)| == n
    decreases n
  {
    if n == 0 {
      assert SlotsUpTo(start, n, len) == {};
    } else {
      SlotCount(start, n - 1, len);
      assert SlotsUpTo(start, n, len) == SlotsUpTo(start, n - 1, len) + {Slot(start, n - 1, len)};
    }
  }

  function Below(n: nat): (r: set<nat>)
    ensures |r| == n
    ensures forall x: nat :: x in r <==> x < n
  {
    if n == 0 then {} else Below(n - 1) + {n - 1}
  }
}
