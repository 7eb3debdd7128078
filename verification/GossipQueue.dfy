/** Rumors this node still owes the cluster, each with the sends it has left
    (dissemination.rs). */
module GossipQueues {
  import opened Types

  const MAX_PIGGYBACK: nat := 10
  const RETRANSMIT_MULT: nat := 3

  datatype Pending = Pending(rumor: WireMember, sendsLeft: nat)

  type Queue = seq<Pending>

  // ---- How often a rumor is sent ----------------------------------------------

  function Pow2(k: nat): (p: nat)
    ensures p > 0
  {
    if k == 0 then 1 else 2 * Pow2(k - 1)
  }

  /** The exponent of the first power of two at or above `n`, counted up from `k`. */
  function Log2From(n: nat, k: nat): nat
    decreases n - Pow2(k)
  {
    if n <= Pow2(k) then k else Log2From(n, k + 1)
  }

  /** The cluster size is cut to 32 bits before its logarithm is taken. */
  function RetransmitLimit(clusterSize: nat): nat {
    var log := Log2From(clusterSize % 0x1_0000_0000, 0);
    RETRANSMIT_MULT * if log < 1 then 1 else log
  }

  /** `k` is the logarithm of `n` to base 2, rounded up. */
  ghost predicate IsCeilLog2(k: nat, n: nat) {
    n <= Pow2(k) && (k > 0 ==> Pow2(k - 1) < n)
  }

  lemma {:induction false} Log2FromIsCeil(n: nat, k: nat)
    requires k > 0 ==> Pow2(k - 1) < n
    ensures IsCeilLog2(Log2From(n, k), n) && Log2From(n, k) >= k
    decreases n - Pow2(k)
  {
    if n > Pow2(k) {
      Log2FromIsCeil(n, k + 1);
    }
  }

  lemma {:induction false} Pow2Grows(a: nat, b: nat)
    requires a <= b
    ensures Pow2(a) <= Pow2(b)
    decreases b
  {
    if a < b {
      Pow2Grows(a, b - 1);
    }
  }

  lemma CeilLog2IsUnique(a: nat, b: nat, n: nat)
    requires IsCeilLog2(a, n) && IsCeilLog2(b, n)
    ensures a == b
  {
    if a < b {
      Pow2Grows(a, b - 1);
    } else if b < a {
      Pow2Grows(b, a - 1);
    }
  }

  lemma Pow2Of32()
    ensures Pow2(16) == 0x1_0000
    ensures Pow2(32) == 0x1_0000_0000
    ensures Pow2(31) == 0x8000_0000
  {
    assert Pow2(4) == 16;
    assert Pow2(8) == 256;
    assert Pow2(12) == 4096;
    assert Pow2(16) == 0x1_0000;
    assert Pow2(20) == 0x10_0000;
    assert Pow2(24) == 0x100_0000;
    assert Pow2(28) == 0x1000_0000;
    assert Pow2(31) == 0x8000_0000;
  }

  /** The limit is three times the rounded-up logarithm of the cluster size, and
      at least three, exactly for sizes that fit 32 bits. Never above 96. */
  lemma RetransmitLimitIsLogarithmic(n: nat, k: nat)
    requires IsCeilLog2(k, n)
    ensures RetransmitLimit(n) == 3 * (if k < 1 then 1 else k) <==> n < 0x1_0000_0000
    ensures 3 <= RetransmitLimit(n) <= 96
  {
    var low := n % 0x1_0000_0000;
    var j := Log2From(low, 0);
    Log2FromIsCeil(low, 0);
    Pow2Of32();
    if j > 32 {
      Pow2Grows(32, j - 1);
    }
    if n < 0x1_0000_0000 {
      CeilLog2IsUnique(j, k, n);
    } else {
      if k < 32 {
        Pow2Grows(k, 31);
      }
      if k == 32 {
        assert low == 0;
        CeilLog2IsUnique(j, 0, 0);
      }
    }
  }

  // ---- The queue operations, as functions -------------------------------------

  function Without(q: Queue, id: NodeId): Queue {
    if q == [] then [] else (if q[0].rumor.id == id then [] else [q[0]]) + Without(q[1..], id)
  }

  lemma {:induction false} WithoutHas(q: Queue, id: NodeId)
    ensures forall p :: p in Without(q, id) <==> p in q && p.rumor.id != id
    decreases |q|
  {
    if q != [] {
      WithoutHas(q[1..], id);
      assert q == [q[0]] + q[1..];
    }
  }

  function PushQueue(q: Queue, rumor: WireMember, clusterSize: nat): Queue {
    Without(q, rumor.id) + [Pending(rumor, RetransmitLimit(clusterSize))]
  }

  function Insert(p: Pending, q: Queue): (r: Queue)
    ensures |r| == |q| + 1
  {
    if q == [] || p.sendsLeft >= q[0].sendsLeft then [p] + q else [q[0]] + Insert(p, q[1..])
  }

  /** Most sends left first; equals keep their order. */
  function SortQueue(q: Queue): (r: Queue)
    ensures |r| == |q|
  {
    if q == [] then [] else Insert(q[0], SortQueue(q[1..]))
  }

  function Spend(q: Queue): (r: Queue)
    ensures |r| == |q|
    ensures forall i :: 0 <= i < |q| && q[i].sendsLeft > 0 ==> r[i] == Pending(q[i].rumor, q[i].sendsLeft - 1)
  {
    if q == [] then []
    else [Pending(q[0].rumor, if q[0].sendsLeft > 0 then q[0].sendsLeft - 1 else 0)] + Spend(q[1..])
  }

  function Unsent(q: Queue): Queue {
    if q == [] then [] else (if q[0].sendsLeft > 0 then [q[0]] else []) + Unsent(q[1..])
  }

  lemma {:induction false} UnsentHas(q: Queue)
    ensures forall p :: p in Unsent(q) <==> p in q && p.sendsLeft > 0
    decreases |q|
  {
    if q != [] {
      UnsentHas(q[1..]);
      assert q == [q[0]] + q[1..];
    }
  }

  function Rumors(q: Queue): (r: seq<WireMember>)
    ensures |r| == |q|
    ensures forall i :: 0 <= i < |q| ==> r[i] == q[i].rumor
  {
    if q == [] then [] else [q[0].rumor] + Rumors(q[1..])
  }

  function BatchLen(q: Queue): nat {
    if |q| < MAX_PIGGYBACK then |q| else MAX_PIGGYBACK
  }

  function Batch(q: Queue): (b: seq<WireMember>)
    ensures |b| == BatchLen(q) <= MAX_PIGGYBACK
  {
    Rumors(SortQueue(q)[..BatchLen(q)])
  }

  /** The queue after the sort and the decrements, before the spent ones go. */
  function Decremented(q: Queue): (r: Queue)
    ensures |r| == |q|
  {
    Spend(SortQueue(q)[..BatchLen(q)]) + SortQueue(q)[BatchLen(q)..]
  }

  function AfterTake(q: Queue): Queue { Unsent(Decremented(q)) }

  // ---- What sorting keeps -----------------------------------------------------

  ghost predicate Distinct(q: Queue) {
    forall i, j :: 0 <= i < j < |q| ==> q[i].rumor.id != q[j].rumor.id
  }

  ghost predicate Descending(q: Queue) {
    forall i, j :: 0 <= i < j < |q| ==> q[i].sendsLeft >= q[j].sendsLeft
  }

  function OfLevel(q: Queue, level: nat): Queue {
    if q == [] then []
    else (if q[0].sendsLeft == level then [q[0]] else []) + OfLevel(q[1..], level)
  }

  lemma {:induction false} InsertPermutes(p: Pending, q: Queue)
    ensures multiset(Insert(p, q)) == multiset{p} + multiset(q)
    decreases |q|
  {
    if q != [] && p.sendsLeft < q[0].sendsLeft {
      InsertPermutes(p, q[1..]);
      assert q == [q[0]] + q[1..];
    }
  }

  lemma {:induction false} InsertHas(p: Pending, q: Queue, x: Pending)
    ensures x in Insert(p, q) <==> x == p || x in q
  {
    InsertPermutes(p, q);
    assert x in Insert(p, q) <==> x in multiset(Insert(p, q));
  }

  lemma {:induction false} InsertSorts(p: Pending, q: Queue)
    requires Descending(q)
    ensures Descending(Insert(p, q))
    decreases |q|
  {
    if q != [] && p.sendsLeft < q[0].sendsLeft {
      var rest := Insert(p, q[1..]);
      InsertSorts(p, q[1..]);
      forall i | 0 <= i < |rest| ensures rest[i].sendsLeft <= q[0].sendsLeft {
        InsertHas(p, q[1..], rest[i]);
      }
    }
  }

  lemma {:induction false} InsertKeepsLevels(p: Pending, q: Queue, level: nat)
    ensures OfLevel(Insert(p, q), level) == (if p.sendsLeft == level then [p] else []) + OfLevel(q, level)
    decreases |q|
  {
    var head := if p.sendsLeft == level then [p] else [];
    if q == [] || p.sendsLeft >= q[0].sendsLeft {
      assert ([p] + q)[1..] == q;
    } else {
      var rest := Insert(p, q[1..]);
      InsertKeepsLevels(p, q[1..], level);
      assert ([q[0]] + rest)[1..] == rest;
      if q[0].sendsLeft == level {
        assert head == [];
        assert OfLevel(rest, level) == OfLevel(q[1..], level);
      } else {
        assert OfLevel([q[0]] + rest, level) == OfLevel(rest, level);
        assert OfLevel(q, level) == OfLevel(q[1..], level);
      }
    }
  }

  lemma {:induction false} InsertKeepsDistinct(p: Pending, q: Queue)
    requires Distinct(q) && forall x :: x in q ==> x.rumor.id != p.rumor.id
    ensures Distinct(Insert(p, q))
    decreases |q|
  {
    if q != [] && p.sendsLeft < q[0].sendsLeft {
      var rest := Insert(p, q[1..]);
      InsertKeepsDistinct(p, q[1..]);
      forall i | 0 <= i < |rest| ensures rest[i].rumor.id != q[0].rumor.id {
        InsertHas(p, q[1..], rest[i]);
      }
    }
  }

  /** The order `take` works in: most sends left first, the same entries, and
      entries with equally many sends left still in the order they were in. */
  lemma {:induction false} SortIsStable(q: Queue, level: nat)
    ensures Descending(SortQueue(q))
    ensures multiset(SortQueue(q)) == multiset(q)
    ensures OfLevel(SortQueue(q), level) == OfLevel(q, level)
    decreases |q|
  {
    if q != [] {
      SortIsStable(q[1..], level);
      InsertSorts(q[0], SortQueue(q[1..]));
      InsertPermutes(q[0], SortQueue(q[1..]));
      InsertKeepsLevels(q[0], SortQueue(q[1..]), level);
      assert q == [q[0]] + q[1..];
    }
  }

  lemma {:induction false} SortHas(q: Queue, x: Pending)
    ensures x in SortQueue(q) <==> x in q
  {
    SortIsStable(q, 0);
    assert x in q <==> x in multiset(q);
    assert x in SortQueue(q) <==> x in multiset(SortQueue(q));
  }

  lemma {:induction false} SortKeepsDistinct(q: Queue)
    requires Distinct(q)
    ensures Distinct(SortQueue(q))
    decreases |q|
  {
    if q != [] {
      SortKeepsDistinct(q[1..]);
      forall x | x in SortQueue(q[1..]) ensures x.rumor.id != q[0].rumor.id {
        SortHas(q[1..], x);
      }
      InsertKeepsDistinct(q[0], SortQueue(q[1..]));
    }
  }

  // ---- What every operation keeps ---------------------------------------------

  /** One rumor per member, each with at least one send left. */
  ghost predicate ValidQueue(q: Queue) {
    Distinct(q) && forall i :: 0 <= i < |q| ==> 1 <= q[i].sendsLeft <= 96
  }

  lemma {:induction false} WithoutKeepsDistinct(q: Queue, id: NodeId)
    requires Distinct(q)
    ensures Distinct(Without(q, id))
    decreases |q|
  {
    if q != [] {
      WithoutKeepsDistinct(q[1..], id);
      var rest := Without(q[1..], id);
      forall i | 0 <= i < |rest| ensures rest[i].rumor.id != q[0].rumor.id {
        WithoutHas(q[1..], id);
        assert rest[i] in rest;
        var j :| 0 <= j < |q| - 1 && q[1..][j] == rest[i];
        assert q[j + 1] == rest[i];
      }
    }
  }

  lemma {:induction false} UnsentKeepsDistinct(q: Queue)
    requires Distinct(q)
    ensures Distinct(Unsent(q))
    decreases |q|
  {
    if q != [] {
      UnsentKeepsDistinct(q[1..]);
      var rest := Unsent(q[1..]);
      forall i | 0 <= i < |rest| ensures rest[i].rumor.id != q[0].rumor.id {
        UnsentHas(q[1..]);
        assert rest[i] in rest;
        var j :| 0 <= j < |q| - 1 && q[1..][j] == rest[i];
        assert q[j + 1] == rest[i];
      }
    }
  }

  lemma LimitBounds(clusterSize: nat)
    ensures 3 <= RetransmitLimit(clusterSize) <= 96
  {
    Log2FromIsCeil(clusterSize, 0);
    RetransmitLimitIsLogarithmic(clusterSize, Log2From(clusterSize, 0));
  }

  lemma PushKeepsValid(q: Queue, rumor: WireMember, clusterSize: nat)
    requires ValidQueue(q)
    ensures ValidQueue(PushQueue(q, rumor, clusterSize))
  {
    WithoutKeepsDistinct(q, rumor.id);
    WithoutHas(q, rumor.id);
    LimitBounds(clusterSize);
    var rest := Without(q, rumor.id);
    assert forall i :: 0 <= i < |rest| ==> rest[i] in rest;
  }

  lemma {:induction false} SortedAt(q: Queue, i: nat)
    requires ValidQueue(q) && i < |q|
    ensures SortQueue(q)[i] in q && 1 <= SortQueue(q)[i].sendsLeft <= 96
    ensures Decremented(q)[i] ==
      if i < BatchLen(q) then Pending(SortQueue(q)[i].rumor, SortQueue(q)[i].sendsLeft - 1) else SortQueue(q)[i]
  {
    SortHas(q, SortQueue(q)[i]);
  }

  /** No decrement meets a zero, and what stays is unique and unspent. */
  lemma TakeKeepsValid(q: Queue)
    requires ValidQueue(q)
    ensures ValidQueue(AfterTake(q))
  {
    var d := Decremented(q);
    SortKeepsDistinct(q);
    forall i | 0 <= i < |d| ensures d[i].rumor == SortQueue(q)[i].rumor && d[i].sendsLeft <= 96 {
      SortedAt(q, i);
    }
    UnsentKeepsDistinct(d);
    UnsentHas(d);
    assert forall i :: 0 <= i < |AfterTake(q)| ==> AfterTake(q)[i] in AfterTake(q);
  }

  lemma TakeKeepsRumors(q: Queue, p: Pending) returns (x: Pending)
    requires p in AfterTake(q)
    ensures x in q && x.rumor == p.rumor
  {
    var d, k := Decremented(q), BatchLen(q);
    UnsentHas(d);
    var i :| 0 <= i < |d| && d[i] == p;
    x := SortQueue(q)[i];
    SortHas(q, x);
    SpendKeepsRumors(SortQueue(q)[..k]);
  }

  lemma {:induction false} SpendKeepsRumors(q: Queue)
    ensures forall i :: 0 <= i < |q| ==> Spend(q)[i].rumor == q[i].rumor
    decreases |q|
  {
    if q != [] {
      SpendKeepsRumors(q[1..]);
    }
  }

  lemma BatchComesFromQueue(q: Queue, r: WireMember) returns (x: Pending)
    requires r in Batch(q)
    ensures x in q && x.rumor == r
  {
    var i :| 0 <= i < |Batch(q)| && Batch(q)[i] == r;
    x := SortQueue(q)[i];
    SortHas(q, x);
  }

  // ---- Every send is accounted for --------------------------------------------

  /** Whose sends are being counted. */
  datatype Scope = Everyone | Only(id: NodeId) {
    predicate Covers(about: NodeId) { Everyone? || about == id }
  }

  /** Sends still owed about the members in scope. */
  function Owed(q: Queue, scope: Scope): nat {
    if q == [] then 0
    else (if scope.Covers(q[0].rumor.id) then q[0].sendsLeft else 0) + Owed(q[1..], scope)
  }

  function Count(batch: seq<WireMember>, scope: Scope): nat {
    if batch == [] then 0 else (if scope.Covers(batch[0].id) then 1 else 0) + Count(batch[1..], scope)
  }

  lemma {:induction false} OwedAppend(a: Queue, b: Queue, scope: Scope)
    ensures Owed(a + b, scope) == Owed(a, scope) + Owed(b, scope)
    decreases |a|
  {
    if a == [] {
      assert a + b == b;
    } else {
      assert (a + b)[1..] == a[1..] + b;
      OwedAppend(a[1..], b, scope);
    }
  }

  lemma {:induction false} InsertOwes(p: Pending, q: Queue, scope: Scope)
    ensures Owed(Insert(p, q), scope) == Owed([p] + q, scope)
    decreases |q|
  {
    if q != [] && p.sendsLeft < q[0].sendsLeft {
      InsertOwes(p, q[1..], scope);
      assert ([p] + q)[1..] == q && ([p] + q[1..])[1..] == q[1..];
      assert ([q[0]] + Insert(p, q[1..]))[1..] == Insert(p, q[1..]);
    }
  }

  lemma {:induction false} SortOwes(q: Queue, scope: Scope)
    ensures Owed(SortQueue(q), scope) == Owed(q, scope)
    decreases |q|
  {
    if q != [] {
      SortOwes(q[1..], scope);
      InsertOwes(q[0], SortQueue(q[1..]), scope);
      assert ([q[0]] + SortQueue(q[1..]))[1..] == SortQueue(q[1..]);
    }
  }

  lemma {:induction false} SpendOwes(q: Queue, scope: Scope)
    requires forall i :: 0 <= i < |q| ==> q[i].sendsLeft >= 1
    ensures Owed(Spend(q), scope) + Count(Rumors(q), scope) == Owed(q, scope)
    decreases |q|
  {
    if q != [] {
      SpendOwes(q[1..], scope);
      assert Spend(q)[1..] == Spend(q[1..]);
      assert Rumors(q)[1..] == Rumors(q[1..]);
    }
  }

  lemma {:induction false} UnsentOwes(q: Queue, scope: Scope)
    ensures Owed(Unsent(q), scope) == Owed(q, scope)
    decreases |q|
  {
    if q != [] {
      UnsentOwes(q[1..], scope);
      if q[0].sendsLeft > 0 {
        assert Unsent(q)[1..] == Unsent(q[1..]);
      } else {
        assert Unsent(q) == Unsent(q[1..]);
      }
    }
  }

  /** What a batch carries is exactly what stops being owed. */
  lemma {:induction false} TakeConserves(q: Queue, scope: Scope)
    requires ValidQueue(q)
    ensures Owed(AfterTake(q), scope) + Count(Batch(q), scope) == Owed(q, scope)
  {
    var s, k := SortQueue(q), BatchLen(q);
    SortOwes(q, scope);
    assert s == s[..k] + s[k..];
    OwedAppend(s[..k], s[k..], scope);
    forall i | 0 <= i < k ensures s[..k][i].sendsLeft >= 1 {
      SortedAt(q, i);
    }
    SpendOwes(s[..k], scope);
    OwedAppend(Spend(s[..k]), s[k..], scope);
    UnsentOwes(Decremented(q), scope);
  }

  lemma {:induction false} NothingOwedMeansGone(q: Queue, id: NodeId)
    requires forall i :: 0 <= i < |q| ==> q[i].sendsLeft >= 1
    ensures Owed(q, Only(id)) == 0 <==> forall p :: p in q ==> p.rumor.id != id
    decreases |q|
  {
    if q != [] {
      NothingOwedMeansGone(q[1..], id);
      assert q[0] in q;
      assert forall p :: p in q <==> p == q[0] || p in q[1..];
    }
  }

  lemma {:induction false} WithoutOwes(q: Queue, id: NodeId, other: NodeId)
    ensures Owed(Without(q, id), Only(other)) == if id == other then 0 else Owed(q, Only(other))
    decreases |q|
  {
    if q != [] {
      WithoutOwes(q[1..], id, other);
      if q[0].rumor.id == id {
        assert Without(q, id) == Without(q[1..], id);
      } else {
        assert Without(q, id)[1..] == Without(q[1..], id);
      }
    }
  }

  /** A push owes its member a full budget, whatever was owed before, and
      leaves every other member's account alone. */
  lemma {:induction false} PushOwesFullBudget(q: Queue, rumor: WireMember, clusterSize: nat, id: NodeId)
    ensures Owed(PushQueue(q, rumor, clusterSize), Only(id)) ==
      if id == rumor.id then RetransmitLimit(clusterSize) else Owed(q, Only(id))
  {
    var last := [Pending(rumor, RetransmitLimit(clusterSize))];
    OwedAppend(Without(q, rumor.id), last, Only(id));
    WithoutOwes(q, rumor.id, id);
    assert last[1..] == [];
  }

  /** What is queued about `r`'s member is `r`, with a full budget for a cluster of `size`. */
  ghost predicate FullyQueued(q: Queue, r: WireMember, size: nat) {
    && Owed(q, Only(r.id)) == RetransmitLimit(size)
    && forall p :: p in q && p.rumor.id == r.id ==> p.rumor == r
  }

  /** The two queues hold the same about every member but `id`. */
  ghost predicate SameButFor(q: Queue, q': Queue, id: NodeId) {
    && (forall p: Pending :: p.rumor.id != id ==> (p in q' <==> p in q))
    && (forall other :: other != id ==> Owed(q', Only(other)) == Owed(q, Only(other)))
  }

  /** A push drops whatever was queued about the member and puts the rumor last. */
  lemma PushReplaces(q: Queue, r: WireMember, size: nat)
    ensures var q' := PushQueue(q, r, size);
            && q' != [] && q'[|q'| - 1] == Pending(r, RetransmitLimit(size))
            && forall p :: p in q'[..|q'| - 1] <==> p in q && p.rumor.id != r.id
  {
    WithoutHas(q, r.id);
    assert PushQueue(q, r, size)[..|PushQueue(q, r, size)| - 1] == Without(q, r.id);
  }

  lemma PushIsFull(q: Queue, r: WireMember, size: nat)
    ensures FullyQueued(PushQueue(q, r, size), r, size) && SameButFor(q, PushQueue(q, r, size), r.id)
  {
    WithoutHas(q, r.id);
    forall id ensures Owed(PushQueue(q, r, size), Only(id)) == if id == r.id then RetransmitLimit(size) else Owed(q, Only(id)) {
      PushOwesFullBudget(q, r, size, id);
    }
  }

  // ---- Whole runs of the queue --------------------------------------------------

  datatype QueueOp = PushOp(rumor: WireMember, clusterSize: nat) | TakeOp

  function Perform(q: Queue, op: QueueOp): Queue {
    match op
    case PushOp(rumor, clusterSize) => PushQueue(q, rumor, clusterSize)
    case TakeOp => AfterTake(q)
  }

  function PerformAll(q: Queue, ops: seq<QueueOp>): Queue
    decreases |ops|
  {
    if ops == [] then q else PerformAll(Perform(q, ops[0]), ops[1..])
  }

  /** How many times a rumor about the member goes out over a run. */
  function SentAbout(q: Queue, ops: seq<QueueOp>, id: NodeId): nat
    decreases |ops|
  {
    if ops == [] then 0
    else (if ops[0].TakeOp? then Count(Batch(q), Only(id)) else 0) + SentAbout(Perform(q, ops[0]), ops[1..], id)
  }

  ghost predicate NeverReplaced(ops: seq<QueueOp>, id: NodeId) {
    forall i :: 0 <= i < |ops| && ops[i].PushOp? ==> ops[i].rumor.id != id
  }

  lemma {:induction false} RunConserves(q: Queue, ops: seq<QueueOp>, id: NodeId)
    requires ValidQueue(q)
    ensures ValidQueue(PerformAll(q, ops))
    ensures NeverReplaced(ops, id) ==>
      SentAbout(q, ops, id) + Owed(PerformAll(q, ops), Only(id)) == Owed(q, Only(id))
    decreases |ops|
  {
    if ops != [] {
      match ops[0] {
        case PushOp(rumor, clusterSize) =>
          PushKeepsValid(q, rumor, clusterSize);
          PushOwesFullBudget(q, rumor, clusterSize, id);
        case TakeOp =>
          TakeKeepsValid(q);
          TakeConserves(q, Only(id));
      }
      RunConserves(Perform(q, ops[0]), ops[1..], id);
    }
  }

  /** Over any interleaving of pushes and takes a rumor that is not replaced goes
      out at most its limit of times, and exactly that often once it has left
      the queue. */
  lemma {:induction false} BudgetIsSpentExactly(q: Queue, rumor: WireMember, clusterSize: nat, ops: seq<QueueOp>)
    requires ValidQueue(q) && NeverReplaced(ops, rumor.id)
    ensures var start := PushQueue(q, rumor, clusterSize);
            var end := PerformAll(start, ops);
            && ValidQueue(end)
            && SentAbout(start, ops, rumor.id) <= RetransmitLimit(clusterSize)
            && (SentAbout(start, ops, rumor.id) == RetransmitLimit(clusterSize)
                <==> forall p :: p in end ==> p.rumor.id != rumor.id)
  {
    var start := PushQueue(q, rumor, clusterSize);
    PushKeepsValid(q, rumor, clusterSize);
    PushOwesFullBudget(q, rumor, clusterSize, rumor.id);
    RunConserves(start, ops, rumor.id);
    NothingOwedMeansGone(PerformAll(start, ops), rumor.id);
  }

  lemma {:induction false} UnsentKeepsOrder(q: Queue, i: nat, j: nat) returns (a: nat, b: nat)
    requires i < j < |q| && q[i].sendsLeft > 0 && q[j].sendsLeft > 0
    ensures a < b < |Unsent(q)| && Unsent(q)[a] == q[i] && Unsent(q)[b] == q[j]
    decreases |q|
  {
    if i == 0 {
      UnsentHas(q[1..]);
      assert q[j] == q[1..][j - 1];
      a := 0;
      var k :| 0 <= k < |Unsent(q[1..])| && Unsent(q[1..])[k] == q[j];
      b := k + 1;
    } else {
      a, b := UnsentKeepsOrder(q[1..], i - 1, j - 1);
      if q[0].sendsLeft > 0 {
        a, b := a + 1, b + 1;
      }
    }
  }

  /** What the sorted entry `i` is after a take: one of the first ten has a send fewer. */
  function AfterSend(q: Queue, i: nat): Pending
    requires i < |q|
  {
    var p := SortQueue(q)[i];
    if i < 10 && p.sendsLeft > 0 then Pending(p.rumor, p.sendsLeft - 1) else p
  }

  lemma {:induction false} AfterSendIs(q: Queue, i: nat)
    requires ValidQueue(q) && i < |q|
    ensures Decremented(q)[i] == AfterSend(q, i)
    ensures i < 10 ==> i < |Batch(q)| && Batch(q)[i] == SortQueue(q)[i].rumor
  {
    SortedAt(q, i);
  }

  /** The batch is the front of the sorted queue, and what is left is the sorted queue with
      a send taken off each of its first ten, those without any more dropped. */
  lemma {:induction false} TakeSendsTheFront(q: Queue, p: Pending)
    requires ValidQueue(q)
    ensures forall i :: 0 <= i < |q| && i < 10 ==> i < |Batch(q)| && Batch(q)[i] == SortQueue(q)[i].rumor
    ensures p in AfterTake(q) <==> p.sendsLeft > 0 && exists i :: 0 <= i < |q| && p == AfterSend(q, i)
  {
    var d := Decremented(q);
    forall i | 0 <= i < |q| ensures d[i] == AfterSend(q, i) && (i < 10 ==> i < |Batch(q)| && Batch(q)[i] == SortQueue(q)[i].rumor) {
      AfterSendIs(q, i);
    }
    UnsentHas(d);
  }

  /** What is left is still in the order it was sent in. */
  lemma TakeKeepsOrder(q: Queue, i: nat, j: nat)
    requires ValidQueue(q) && i < j < |q| && AfterSend(q, i).sendsLeft > 0 && AfterSend(q, j).sendsLeft > 0
    ensures exists a, b :: 0 <= a < b < |AfterTake(q)| && AfterTake(q)[a] == AfterSend(q, i) && AfterTake(q)[b] == AfterSend(q, j)
  {
    AfterSendIs(q, i);
    AfterSendIs(q, j);
    var a, b := UnsentKeepsOrder(Decremented(q), i, j);
    assert AfterTake(q)[a] == AfterSend(q, i) && AfterTake(q)[b] == AfterSend(q, j);
  }

  // ---- How long the queue takes to empty ---------------------------------------

  lemma {:induction false} CountEveryone(batch: seq<WireMember>)
    ensures Count(batch, Everyone) == |batch|
    decreases |batch|
  {
    if batch != [] {
      CountEveryone(batch[1..]);
    }
  }

  /** Each take sends min(10, length) rumors about different members, all of them
      queued, and lowers the total owed by as many. */
  lemma {:induction false} TakeLowersTotal(q: Queue)
    requires ValidQueue(q)
    ensures Owed(AfterTake(q), Everyone) == Owed(q, Everyone) - |Batch(q)|
    ensures |Batch(q)| == if |q| < 10 then |q| else 10
    ensures forall i, j :: 0 <= i < j < |Batch(q)| ==> Batch(q)[i].id != Batch(q)[j].id
    ensures forall i :: 0 <= i < |Batch(q)| ==> Batch(q)[i] in Rumors(q)
  {
    TakeConserves(q, Everyone);
    CountEveryone(Batch(q));
    SortKeepsDistinct(q);
    forall i | 0 <= i < |Batch(q)| ensures Batch(q)[i] in Rumors(q) {
      SortedAt(q, i);
      var j :| 0 <= j < |q| && q[j] == SortQueue(q)[i];
      assert Rumors(q)[j] == Batch(q)[i];
    }
  }

  function Max(a: nat, b: nat): nat { if a > b then a else b }

  function MaxLeft(q: Queue): nat {
    if q == [] then 0 else Max(q[0].sendsLeft, MaxLeft(q[1..]))
  }

  /** `m` is the largest budget as soon as nothing exceeds it and entry `k` reaches it. */
  lemma {:induction false} MaxLeftIs(q: Queue, m: nat, k: nat)
    requires forall i :: 0 <= i < |q| ==> q[i].sendsLeft <= m
    requires k < |q| && q[k].sendsLeft == m
    ensures MaxLeft(q) == m
    decreases |q|
  {
    MaxLeftAtMost(q[1..], m);
    if k > 0 {
      MaxLeftIs(q[1..], m, k - 1);
    }
  }

  lemma {:induction false} MaxLeftAtMost(q: Queue, m: nat)
    requires forall i :: 0 <= i < |q| ==> q[i].sendsLeft <= m
    ensures MaxLeft(q) <= m
    decreases |q|
  {
    if q != [] {
      MaxLeftAtMost(q[1..], m);
    }
  }

  lemma {:induction false} OwedBetween(q: Queue, low: nat, high: nat)
    requires forall i :: 0 <= i < |q| ==> low <= q[i].sendsLeft <= high
    ensures |q| * low <= Owed(q, Everyone) <= |q| * high
    decreases |q|
  {
    if q != [] {
      OwedBetween(q[1..], low, high);
      assert |q| * low == low + (|q| - 1) * low;
      assert |q| * high == high + (|q| - 1) * high;
    }
  }

  /** Takes needed: no fewer than the longest budget, and no fewer than the total
      at ten a time. */
  function DrainTime(q: Queue): nat { Max(MaxLeft(q), (Owed(q, Everyone) + 9) / 10) }

  /** The sorted queue has the largest budget in front. */
  lemma {:induction false} FrontHasMost(q: Queue)
    requires ValidQueue(q) && q != []
    ensures SortQueue(q)[0].sendsLeft == MaxLeft(q) >= 1
    ensures forall i :: 0 <= i < |q| ==> SortQueue(q)[i].sendsLeft <= MaxLeft(q)
  {
    var s := SortQueue(q);
    SortIsStable(q, 0);
    SortedAt(q, 0);
    var k :| 0 <= k < |q| && q[k] == s[0];
    forall i | 0 <= i < |q| ensures q[i].sendsLeft <= s[0].sendsLeft {
      SortHas(q, q[i]);
      var j :| 0 <= j < |s| && s[j] == q[i];
    }
    MaxLeftIs(q, s[0].sendsLeft, k);
  }

  /** The largest budget after a take: one less, unless more than ten rumors share it. */
  lemma {:induction false} MaxAfterTake(q: Queue)
    requires ValidQueue(q) && q != []
    ensures MaxLeft(AfterTake(q)) ==
      if |q| > 10 && SortQueue(q)[10].sendsLeft == MaxLeft(q) then MaxLeft(q) else MaxLeft(q) - 1
  {
    var s, d, m, a := SortQueue(q), Decremented(q), MaxLeft(q), AfterTake(q);
    FrontHasMost(q);
    SortIsStable(q, 0);
    var top, k := m - 1, 0;
    if |q| > 10 && s[10].sendsLeft == m {
      top, k := m, 10;
    }
    SortedAt(q, k);
    assert d[k].sendsLeft == top;
    UnsentHas(d);
    forall i | 0 <= i < |a| ensures a[i].sendsLeft <= top {
      assert a[i] in d;
      var j :| 0 <= j < |d| && d[j] == a[i];
      SortedAt(q, j);
    }
    if top > 0 {
      assert d[k] in a;
      var i :| 0 <= i < |a| && a[i] == d[k];
      MaxLeftIs(a, top, i);
    } else {
      MaxLeftAtMost(a, 0);
    }
  }

  lemma TenAtATime(n: nat, m: nat, total: nat)
    requires n <= 10 && 1 <= m && total <= n * m
    ensures total <= 10 * m
    ensures total - n <= 10 * (m - 1)
  {
    assert n * m <= 10 * m;
    assert n * m == n * (m - 1) + n;
    assert n * (m - 1) <= 10 * (m - 1);
  }

  /** Ten or fewer rumors all go out at once, so the longest budget decides. */
  lemma {:induction false} ShortQueueDrains(q: Queue)
    requires ValidQueue(q) && 0 < |q| <= 10
    ensures Owed(q, Everyone) <= 10 * MaxLeft(q)
    ensures Owed(q, Everyone) - |q| <= 10 * (MaxLeft(q) - 1)
  {
    FrontHasMost(q);
    SortOwes(q, Everyone);
    var s, m := SortQueue(q), MaxLeft(q);
    OwedBetween(s, 0, m);
    TenAtATime(|q|, m, Owed(q, Everyone));
  }

  /** More than ten rumors sharing the longest budget: the total decides. */
  lemma {:induction false} WideQueueDrains(q: Queue)
    requires ValidQueue(q) && |q| > 10 && SortQueue(q)[10].sendsLeft == MaxLeft(q)
    ensures Owed(q, Everyone) >= 11 * MaxLeft(q)
  {
    var s, m := SortQueue(q), MaxLeft(q);
    FrontHasMost(q);
    SortIsStable(q, 0);
    SortOwes(q, Everyone);
    assert s == s[..11] + s[11..];
    OwedAppend(s[..11], s[11..], Everyone);
    OwedBetween(s[..11], m, m);
  }

  /** Sending the rumors with most sends left first lowers the drain time by
      exactly one per take. */
  lemma TakeLowersDrainTime(q: Queue)
    requires ValidQueue(q) && q != []
    ensures DrainTime(AfterTake(q)) == DrainTime(q) - 1
  {
    FrontHasMost(q);
    MaxAfterTake(q);
    TakeLowersTotal(q);
    if |q| <= 10 {
      ShortQueueDrains(q);
    } else if SortQueue(q)[10].sendsLeft == MaxLeft(q) {
      WideQueueDrains(q);
    }
  }

  function Takes(q: Queue, n: nat): Queue
    decreases n
  {
    if n == 0 then q else Takes(AfterTake(q), n - 1)
  }

  lemma {:induction false} EmptyStaysEmpty(n: nat)
    ensures Takes([], n) == []
    decreases n
  {
    if n > 0 {
      assert AfterTake([]) == [];
      EmptyStaysEmpty(n - 1);
    }
  }

  lemma DrainTimeIsZeroWhenEmpty(q: Queue)
    requires ValidQueue(q)
    ensures DrainTime(q) == 0 <==> q == []
  {
    if q != [] {
      FrontHasMost(q);
    }
  }

  /** With no pushes in between, the queue is empty after n takes exactly when n
      has reached the drain time. */
  lemma {:induction false} QueueDrainsInExactlyDrainTime(q: Queue, n: nat)
    requires ValidQueue(q)
    ensures Takes(q, n) == [] <==> n >= DrainTime(q)
    decreases n
  {
    DrainTimeIsZeroWhenEmpty(q);
    if q == [] {
      EmptyStaysEmpty(n);
    } else if n > 0 {
      TakeKeepsValid(q);
      TakeLowersDrainTime(q);
      QueueDrainsInExactlyDrainTime(AfterTake(q), n - 1);
    }
  }

  // ---- The queue the tasks share ------------------------------------------------

  lemma {:induction false} WithoutSnoc(q: Queue, p: Pending, id: NodeId)
    ensures Without(q + [p], id) == Without(q, id) + if p.rumor.id == id then [] else [p]
    decreases |q|
  {
    if q == [] {
      assert q + [p] == [p] && [p][1..] == [];
    } else {
      assert (q + [p])[1..] == q[1..] + [p];
      WithoutSnoc(q[1..], p, id);
    }
  }

  lemma {:induction false} UnsentSnoc(q: Queue, p: Pending)
    ensures Unsent(q + [p]) == Unsent(q) + if p.sendsLeft > 0 then [p] else []
    decreases |q|
  {
    if q == [] {
      assert q + [p] == [p] && [p][1..] == [];
    } else {
      assert (q + [p])[1..] == q[1..] + [p];
      UnsentSnoc(q[1..], p);
    }
  }

  class GossipQueue {
    var pending: Queue

    constructor ()
      ensures pending == [] && ValidQueue(pending)
    {
      pending := [];
    }

    method Push(rumor: WireMember, clusterSize: nat)
      modifies this
      ensures pending == PushQueue(old(pending), rumor, clusterSize)
      ensures ValidQueue(old(pending)) ==> ValidQueue(pending)
      ensures forall p :: p in pending ==> p.rumor == rumor || (p in old(pending) && p.rumor.id != rumor.id)
    {
      var kept: Queue := [];
      for i := 0 to |pending|
        invariant pending == old(pending)
        invariant kept == Without(pending[..i], rumor.id)
      {
        assert pending[..i + 1] == pending[..i] + [pending[i]];
        WithoutSnoc(pending[..i], pending[i], rumor.id);
        if pending[i].rumor.id != rumor.id {
          kept := kept + [pending[i]];
        }
      }
      assert pending[..|pending|] == pending;
      pending := kept + [Pending(rumor, RetransmitLimit(clusterSize))];
      WithoutHas(old(pending), rumor.id);
      if ValidQueue(old(pending)) {
        PushKeepsValid(old(pending), rumor, clusterSize);
      }
    }

    method Take() returns (batch: seq<WireMember>)
      requires ValidQueue(pending)
      modifies this
      ensures batch == Batch(old(pending)) && pending == AfterTake(old(pending))
      ensures ValidQueue(pending)
      ensures |batch| == if |old(pending)| < MAX_PIGGYBACK then |old(pending)| else MAX_PIGGYBACK
    {
      ghost var q := pending;
      pending := SortQueue(pending);
      forall i | 0 <= i < |q| ensures pending[i].sendsLeft >= 1 {
        SortedAt(q, i);
      }
      batch := SpendFront(if |pending| < MAX_PIGGYBACK then |pending| else MAX_PIGGYBACK);
      DropSpent();
      TakeKeepsValid(q);
    }

    /** Send the first `k` rumors once each. */
    method SpendFront(k: nat) returns (batch: seq<WireMember>)
      requires k <= |pending| && forall i :: 0 <= i < k ==> pending[i].sendsLeft >= 1
      modifies this
      ensures pending == Spend(old(pending)[..k]) + old(pending)[k..]
      ensures batch == Rumors(old(pending)[..k])
    {
      batch := [];
      for i := 0 to k
        invariant |pending| == |old(pending)| && |batch| == i
        invariant forall j :: 0 <= j < i ==> pending[j] == Pending(old(pending)[j].rumor, old(pending)[j].sendsLeft - 1)
        invariant forall j :: i <= j < |pending| ==> pending[j] == old(pending)[j]
        invariant forall j :: 0 <= j < i ==> batch[j] == old(pending)[j].rumor
      {
        pending := pending[i := Pending(pending[i].rumor, pending[i].sendsLeft - 1)];
        batch := batch + [pending[i].rumor];
      }
    }

    method DropSpent()
      modifies this
      ensures pending == Unsent(old(pending))
    {
      var unsent: Queue := [];
      for i := 0 to |pending|
        invariant pending == old(pending)
        invariant unsent == Unsent(pending[..i])
      {
        assert pending[..i + 1] == pending[..i] + [pending[i]];
        UnsentSnoc(pending[..i], pending[i]);
        if pending[i].sendsLeft > 0 {
          unsent := unsent + [pending[i]];
        }
      }
      assert pending[..|pending|] == pending;
      pending := unsent;
    }
  }
}
