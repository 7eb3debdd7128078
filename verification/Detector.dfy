/** The failure detector: whom to probe next, and the two timers that turn a
    suspicion into a death and a death into forgetting (detector.rs). */
module Detector {
  import opened Types
  import opened LocalNodes
  import opened MemberTables
  import opened GossipQueues
  import opened Dissemination

  const SUSPICION_TIMEOUT: Time := 5_000
  const REAP_TIMEOUT: Time := 30_000

  // ---- The probe rotation -------------------------------------------------------

  predicate IsLive(t: Table, id: NodeId) { id in t && !t[id].state.Dead? }

  /** The last position in `order` that names a live member, or -1. */
  function LastLive(t: Table, order: seq<NodeId>): (k: int)
    ensures -1 <= k < |order|
    ensures k >= 0 ==> IsLive(t, order[k])
    ensures forall i :: k < i < |order| ==> !IsLive(t, order[i])
  {
    if order == [] then -1
    else if IsLive(t, order[|order| - 1]) then |order| - 1
    else LastLive(t, order[..|order| - 1])
  }

  ghost predicate PicksFrom(t: Table, order: seq<NodeId>, target: Option<Member>, rest: seq<NodeId>) {
    var k := LastLive(t, order);
    k >= 0 && target == Some(t[order[k]]) && rest == order[..k]
  }

  /** One call: the last live member of what is left of this pass, or else of
      some fresh shuffle, or nobody. */
  ghost predicate NextTargetStep(t: Table, order: seq<NodeId>, target: Option<Member>, rest: seq<NodeId>) {
    if LastLive(t, order) >= 0 then PicksFrom(t, order, target, rest)
    else exists pass :: IsShuffle(pass, t.Keys) && RefillStep(t, pass, target, rest)
  }

  ghost predicate RefillStep(t: Table, pass: seq<NodeId>, target: Option<Member>, rest: seq<NodeId>) {
    if LastLive(t, pass) >= 0 then PicksFrom(t, pass, target, rest)
    else target == None && IsShuffle(rest, t.Keys)
  }

  class Rotation {
    var order: seq<NodeId>

    constructor ()
      ensures order == []
    {
      order := [];
    }

    /** Pop until a live member turns up or the pass runs out. */
    method PopLive(table: MemberTable) returns (target: Option<Member>)
      modifies this
      ensures LastLive(table.members, old(order)) >= 0 ==> PicksFrom(table.members, old(order), target, order)
      ensures LastLive(table.members, old(order)) < 0 ==> target == None && order == []
    {
      while order != []
        invariant order <= old(order)
        invariant LastLive(table.members, order) == LastLive(table.members, old(order))
        decreases |order|
      {
        var id := order[|order| - 1];
        order := order[..|order| - 1];
        if id in table.members && !table.members[id].state.Dead? {
          return Some(table.members[id]);
        }
      }
      return None;
    }

    /** At most two passes: what is left of this shuffle, then one fresh one. */
    method NextTarget(table: MemberTable) returns (target: Option<Member>)
      modifies this
      ensures NextTargetStep(table.members, old(order), target, order)
      ensures target == None <==> forall id :: id in table.members ==> table.members[id].state.Dead?
      ensures target.Some? ==> target.value in table.members.Values && !target.value.state.Dead?
    {
      ghost var t := table.members;
      ghost var pass := order;
      for i := 0 to 2
        invariant table.members == t
        invariant i == 0 ==> order == old(order)
        invariant i > 0 ==> LastLive(t, old(order)) < 0 && IsShuffle(order, t.Keys)
        invariant i > 1 ==> IsShuffle(pass, t.Keys) && LastLive(t, pass) < 0
      {
        pass := order;
        target := PopLive(table);
        if target.Some? {
          if i == 1 {
            assert IsShuffle(pass, t.Keys) && RefillStep(t, pass, target, order);
          }
          return;
        }
        order := table.ShuffledIds();
      }
      forall id | id in t ensures t[id].state.Dead? {
        assert id in pass;
      }
      assert IsShuffle(pass, t.Keys) && RefillStep(t, pass, None, order);
      return None;
    }
  }

  // ---- Nobody waits longer than two passes ----------------------------------------

  function CountLive(t: Table, order: seq<NodeId>): nat {
    if order == [] then 0
    else (if IsLive(t, order[|order| - 1]) then 1 else 0) + CountLive(t, order[..|order| - 1])
  }

  function LiveIds(t: Table): set<NodeId> { set id | id in t && !t[id].state.Dead? }

  ghost predicate NoRepeats(order: seq<NodeId>) {
    forall i, j :: 0 <= i < j < |order| ==> order[i] != order[j]
  }

  function LiveIn(t: Table, order: seq<NodeId>): set<NodeId> { set id | id in order && IsLive(t, id) }

  lemma LiveInSnoc(t: Table, front: seq<NodeId>, last: NodeId)
    ensures LiveIn(t, front + [last]) == LiveIn(t, front) + if IsLive(t, last) then {last} else {}
  {
    var order := front + [last];
    assert forall x :: x in order <==> x in front || x == last;
  }

  lemma {:induction false} CountLiveIsCardinality(t: Table, order: seq<NodeId>)
    requires NoRepeats(order)
    ensures CountLive(t, order) == |LiveIn(t, order)|
    decreases |order|
  {
    if order == [] {
      assert LiveIn(t, order) == {};
    } else {
      var front, last := order[..|order| - 1], order[|order| - 1];
      CountLiveIsCardinality(t, front);
      LiveInSnoc(t, front, last);
      assert order == front + [last];
      assert last !in LiveIn(t, front);
    }
  }

  /** A pass counts every live member when it has them all, and fewer when it lacks one. */
  lemma {:induction false} CountLiveBounds(t: Table, order: seq<NodeId>, id: NodeId)
    requires NoRepeats(order) && IsLive(t, id)
    ensures id !in order ==> CountLive(t, order) < |LiveIds(t)|
    ensures CountLive(t, order) <= |LiveIds(t)|
  {
    CountLiveIsCardinality(t, order);
    SubsetSize(LiveIn(t, order), LiveIds(t));
    if id !in order {
      SubsetSize(LiveIn(t, order), LiveIds(t) - {id});
    }
  }

  /** Taking the last live entry leaves one fewer. */
  lemma {:induction false} PickLowersCount(t: Table, order: seq<NodeId>)
    requires LastLive(t, order) >= 0
    ensures CountLive(t, order[..LastLive(t, order)]) == CountLive(t, order) - 1
    decreases |order|
  {
    if !IsLive(t, order[|order| - 1]) {
      var front := order[..|order| - 1];
      PickLowersCount(t, front);
      assert front[..LastLive(t, front)] == order[..LastLive(t, order)];
    }
  }

  /** Calls that are certain to reach `id`: the rest of this pass, plus one whole
      pass if it is not in it. */
  function CallsNeeded(t: Table, order: seq<NodeId>, id: NodeId): nat {
    if id in order then CountLive(t, order) else CountLive(t, order) + |LiveIds(t)|
  }

  lemma OneCallCloser(t: Table, order: seq<NodeId>, target: Option<Member>, rest: seq<NodeId>, id: NodeId)
    requires NoRepeats(order) && IsLive(t, id) && NextTargetStep(t, order, target, rest)
    ensures NoRepeats(rest)
    ensures target == Some(t[id]) || CallsNeeded(t, rest, id) < CallsNeeded(t, order, id)
  {
    if LastLive(t, order) >= 0 {
      PickLowersCount(t, order);
      PassPosition(t, order, id);
    } else {
      var pass :| IsShuffle(pass, t.Keys) && RefillStep(t, pass, target, rest);
      assert id in pass;
      PassPosition(t, pass, id);
      assert LastLive(t, pass) >= 0;
      PickLowersCount(t, pass);
      CountLiveBounds(t, pass, id);
    }
  }

  lemma {:induction false} PassPosition(t: Table, order: seq<NodeId>, id: NodeId)
    requires IsLive(t, id)
    ensures id in order ==> LastLive(t, order) >= 0 && (order[LastLive(t, order)] == id || id in order[..LastLive(t, order)])
  {
    if id in order {
      var i :| 0 <= i < |order| && order[i] == id;
      var k := LastLive(t, order);
      assert i <= k;
      if i < k {
        assert order[..k][i] == id;
      }
    }
  }

  /** `picks` are the answers of consecutive calls, starting from `orders[0]`. */
  ghost predicate Calls(t: Table, orders: seq<seq<NodeId>>, picks: seq<Option<Member>>) {
    && |orders| == |picks| + 1
    && forall i :: 0 <= i < |picks| ==> NextTargetStep(t, orders[i], picks[i], orders[i + 1])
  }

  lemma {:induction false} PickedWithinCallsNeeded(t: Table, orders: seq<seq<NodeId>>, picks: seq<Option<Member>>, id: NodeId)
    requires Calls(t, orders, picks) && NoRepeats(orders[0]) && IsLive(t, id)
    requires |picks| >= CallsNeeded(t, orders[0], id)
    ensures Some(t[id]) in picks
    decreases |picks|
  {
    CallsNeededPositive(t, orders[0], id);
    OneCallCloser(t, orders[0], picks[0], orders[1], id);
    if picks[0] != Some(t[id]) {
      assert forall i :: 0 <= i < |picks| - 1 ==> NextTargetStep(t, orders[1..][i], picks[1..][i], orders[1..][i + 1]);
      PickedWithinCallsNeeded(t, orders[1..], picks[1..], id);
      assert forall p :: p in picks[1..] ==> p in picks;
    }
  }

  lemma CallsNeededPositive(t: Table, order: seq<NodeId>, id: NodeId)
    requires IsLive(t, id)
    ensures CallsNeeded(t, order, id) >= 1
  {
    assert id in LiveIds(t);
    if id in order {
      PassPosition(t, order, id);
      PickLowersCount(t, order);
    }
  }

  /** From any rotation list without repeats, over an unchanging table, 2n - 1
      consecutive calls return every one of the n live members, however the
      passes are shuffled. */
  lemma EveryLiveMemberIsProbed(t: Table, orders: seq<seq<NodeId>>, picks: seq<Option<Member>>)
    requires Calls(t, orders, picks) && NoRepeats(orders[0])
    requires |picks| >= 2 * |LiveIds(t)| - 1
    ensures forall id :: id in LiveIds(t) ==> Some(t[id]) in picks
  {
    forall id | id in LiveIds(t) ensures Some(t[id]) in picks {
      CountLiveBounds(t, orders[0], id);
      PickedWithinCallsNeeded(t, orders, picks, id);
    }
  }

  lemma {:induction false} ListOf(s: set<NodeId>) returns (ids: seq<NodeId>)
    ensures IsShuffle(ids, s)
    decreases s
  {
    if s == {} {
      ids := [];
    } else {
      var id :| id in s;
      var rest := ListOf(s - {id});
      ids := rest + [id];
    }
  }

  lemma {:induction false} LastIsLive(t: Table, order: seq<NodeId>)
    requires order != [] && IsLive(t, order[|order| - 1])
    ensures LastLive(t, order) == |order| - 1
  {
  }

  /** The lists as the rest of one pass, `others`, and then a whole fresh one, `pass`,
      are taken from the back, as many from the one as from the other. */
  function OrdersFrom(others: seq<NodeId>, pass: seq<NodeId>): seq<seq<NodeId>>
    requires |others| < |pass|
  {
    var n := |others|;
    seq(2 * n + 1, k requires 0 <= k <= 2 * n => if k <= n then others[..n - k] else pass[..|pass| - (k - n)])
  }

  function PickedAt(others: seq<NodeId>, pass: seq<NodeId>, k: nat): NodeId
    requires k < 2 * |others| && |others| < |pass|
  {
    var n := |others|;
    if k < n then others[n - 1 - k] else pass[|pass| - 1 - (k - n)]
  }

  function AnswersFrom(t: Table, others: seq<NodeId>, pass: seq<NodeId>): seq<Option<Member>>
    requires |others| < |pass|
    requires forall k :: 0 <= k < 2 * |others| ==> IsLive(t, PickedAt(others, pass, k))
  {
    seq(2 * |others|, k requires 0 <= k < 2 * |others| => assert IsLive(t, PickedAt(others, pass, k)); Some(t[PickedAt(others, pass, k)]))
  }

  lemma TwoPassesAreCalls(t: Table, others: seq<NodeId>, pass: seq<NodeId>)
    requires |others| < |pass| && IsShuffle(pass, t.Keys)
    requires forall k :: 0 <= k < 2 * |others| ==> IsLive(t, PickedAt(others, pass, k))
    ensures Calls(t, OrdersFrom(others, pass), AnswersFrom(t, others, pass))
  {
    var n, orders, picks := |others|, OrdersFrom(others, pass), AnswersFrom(t, others, pass);
    forall k | 0 <= k < 2 * n ensures NextTargetStep(t, orders[k], picks[k], orders[k + 1]) {
      assert IsLive(t, PickedAt(others, pass, k));
      if k == n {
        LastIsLive(t, pass);
        assert RefillStep(t, pass, picks[k], orders[k + 1]);
      } else {
        LastIsLive(t, orders[k]);
        assert orders[k][..|orders[k]| - 1] == orders[k + 1];
      }
    }
  }

  /** A shuffle that has `id` come after all the other live members. */
  lemma UnluckyShuffle(t: Table, id: NodeId) returns (others: seq<NodeId>, pass: seq<NodeId>)
    requires id in LiveIds(t)
    ensures |others| == |LiveIds(t)| - 1 && NoRepeats(others)
    ensures forall k :: 0 <= k < |others| ==> IsLive(t, others[k]) && others[k] != id
    ensures IsShuffle(pass, t.Keys)
    ensures |pass| > |others| && pass[|pass| - |others|..] == others
  {
    others := ListOf(LiveIds(t) - {id});
    ShuffleSize(others, LiveIds(t) - {id});
    var dead := ListOf(t.Keys - LiveIds(t));
    forall k | 0 <= k < |others| ensures IsLive(t, others[k]) && others[k] != id {
      assert others[k] in others;
    }
    AppendShuffles(dead, t.Keys - LiveIds(t), [id], {id});
    AppendShuffles(dead + [id], t.Keys - LiveIds(t) + {id}, others, LiveIds(t) - {id});
    pass := dead + [id] + others;
    assert t.Keys - LiveIds(t) + {id} + (LiveIds(t) - {id}) == t.Keys;
  }

  lemma AppendShuffles(a: seq<NodeId>, s: set<NodeId>, b: seq<NodeId>, u: set<NodeId>)
    requires IsShuffle(a, s) && IsShuffle(b, u) && s !! u
    ensures IsShuffle(a + b, s + u)
  {
    forall i, j | 0 <= i < j < |a + b| ensures (a + b)[i] != (a + b)[j] {
      if i < |a| <= j {
        assert a[i] in a && b[j - |a|] in b;
      }
    }
  }

  /** One call fewer is not enough: over any table with a live member, the rest of a
      pass and one unlucky shuffle make 2n - 2 consecutive calls that all miss it. */
  lemma FewerCallsCanMissAMember(t: Table, id: NodeId) returns (orders: seq<seq<NodeId>>, picks: seq<Option<Member>>)
    requires WellFormed(t) && id in LiveIds(t)
    ensures Calls(t, orders, picks) && NoRepeats(orders[0])
    ensures |picks| == 2 * |LiveIds(t)| - 2 && Some(t[id]) !in picks
  {
    var others, pass := UnluckyShuffle(t, id);
    forall k | 0 <= k < 2 * |others| ensures IsLive(t, PickedAt(others, pass, k)) && PickedAt(others, pass, k) != id {
      if k >= |others| {
        var i := 2 * |others| - 1 - k;
        assert PickedAt(others, pass, k) == pass[|pass| - |others|..][i] == others[i];
      }
    }
    TwoPassesAreCalls(t, others, pass);
    orders, picks := OrdersFrom(others, pass), AnswersFrom(t, others, pass);
    assert orders[0] == others;
  }

  lemma {:induction false} ShuffleSize(ids: seq<NodeId>, s: set<NodeId>)
    requires IsShuffle(ids, s)
    ensures |ids| == |s|
    decreases |ids|
  {
    if ids == [] {
      assert s == {};
    } else {
      var front, last := ids[..|ids| - 1], ids[|ids| - 1];
      assert ids == front + [last];
      ShuffleSize(front, s - {last});
    }
  }

  // ---- Marking ------------------------------------------------------------------

  /** A new state for a member, at the incarnation it was copied with. */
  function MarkRumor(m: Member, state: WireState): WireMember {
    ToWire(m).(state := state)
  }

  method Mark(node: LocalNode, table: MemberTable, queue: GossipQueue, member: Member, state: WireState, now: Time)
    returns (changed: bool)
    modifies node, table, queue
    ensures AgentOf(node, table, queue) == ApplyTo(old(AgentOf(node, table, queue)),
      WireMember(member.id, member.addr, member.incarnation, state, member.ready, member.tags), now)
    ensures AgentOf(node, table, queue) == ApplyTo(old(AgentOf(node, table, queue)), MarkRumor(member, state), now)
    ensures changed == (OutcomeOf(old(table.members), MarkRumor(member, state), node.id) == Updated)
    ensures old(Agrees(AgentOf(node, table, queue))) ==> Agrees(AgentOf(node, table, queue))
  {
    var rumor := WireMember(member.id, member.addr, member.incarnation, state, member.ready, member.tags);
    var outcome := Apply(node, table, queue, rumor, now);
    changed := outcome == Updated;
  }

  /** A probe that got nothing back suspects its target; one that did changes nothing. */
  method HandleResult(node: LocalNode, table: MemberTable, queue: GossipQueue, target: Member, acked: bool, now: Time)
    modifies node, table, queue
    ensures AgentOf(node, table, queue) ==
      if acked then old(AgentOf(node, table, queue))
      else ApplyTo(old(AgentOf(node, table, queue)),
        WireMember(target.id, target.addr, target.incarnation, WireState.Suspect, target.ready, target.tags), now)
  {
    if acked {
      return;
    }
    var changed := Mark(node, table, queue, target, WireState.Suspect, now);
  }

  // ---- From suspect to dead -------------------------------------------------------

  function Elapsed(now: Time, since: Time): Time { if now < since then 0 else now - since }

  predicate SuspicionExpired(m: Member, now: Time) {
    m.state.Suspect? && Elapsed(now, m.state.since) >= SUSPICION_TIMEOUT
  }

  function SweptEntry(m: Member, now: Time): Member {
    if SuspicionExpired(m, now) then m.(state := MemberState.Dead(now)) else m
  }

  /** The table after a sweep has got through the members of `done`: each of
      their expired suspicions is a death, clocked from now. */
  function SweptPart(t: Table, done: set<NodeId>, now: Time): Table {
    map id | id in t :: if id in done then SweptEntry(t[id], now) else t[id]
  }

  function Swept(t: Table, now: Time): Table { SweptPart(t, t.Keys, now) }

  lemma SweepOne(a: Agent, t: Table, done: set<NodeId>, m: Member, now: Time)
    requires a.local.id !in t && a.table == SweptPart(t, done, now)
    requires m.id in t && m.id !in done && t[m.id] == m && SuspicionExpired(m, now)
    ensures var b := ApplyTo(a, MarkRumor(m, WireState.Dead), now);
            b.local == a.local && b.table == SweptPart(t, done + {m.id}, now)
  {
    var b := ApplyTo(a, MarkRumor(m, WireState.Dead), now);
    assert m.id in a.table;
    assert a.table[m.id] == m;
    assert b.table == a.table[m.id := SweptEntry(m, now)];
    assert b.table == SweptPart(t, done + {m.id}, now);
  }

  /** The queue has the obituary of every member of `done`, and about anybody else what it had. */
  ghost predicate TellsOfTheSwept(t: Table, done: set<NodeId>, q: Queue, q': Queue) {
    && (forall id :: id in done ==> id in t && FullyQueued(q', MarkRumor(t[id], WireState.Dead), |t| + 1))
    && (forall p: Pending :: p.rumor.id !in done ==> (p in q' <==> p in q))
  }

  lemma SweepOneTells(a: Agent, t: Table, done: set<NodeId>, q: Queue, m: Member, now: Time)
    requires a.local.id !in t && WellFormed(t) && a.table == SweptPart(t, done, now) && TellsOfTheSwept(t, done, q, a.queue)
    requires m.id in t && m.id !in done && t[m.id] == m && SuspicionExpired(m, now)
    ensures TellsOfTheSwept(t, done + {m.id}, q, ApplyTo(a, MarkRumor(m, WireState.Dead), now).queue)
  {
    var r := MarkRumor(m, WireState.Dead);
    var b := ApplyTo(a, r, now);
    ApplyTellsWhatItLearned(a, r, now);
    assert b.table == a.table[m.id := SweptEntry(m, now)];
    assert b.table[m.id] != a.table[m.id];
    assert b.table.Keys == t.Keys;
  }

  method SweepSuspects(node: LocalNode, table: MemberTable, queue: GossipQueue, now: Time)
    requires WellFormed(table.members) && node.id !in table.members
    modifies node, table, queue
    ensures table.members == Swept(old(table.members), now)
    ensures table.members.Keys == old(table.members).Keys
    ensures forall id :: id in table.members ==>
      var m := old(table.members)[id];
      if m.state.Suspect? && now >= m.state.since + 5_000 then
        && table.members[id] == m.(state := MemberState.Dead(now))
        && FullyQueued(queue.pending, MarkRumor(m, WireState.Dead), |table.members| + 1)
      else
        && table.members[id] == m
        && forall p: Pending :: p.rumor.id == id ==> (p in queue.pending <==> p in old(queue.pending))
    ensures node.Value() == old(node.Value())
    ensures old(Agrees(AgentOf(node, table, queue))) ==> Agrees(AgentOf(node, table, queue))
  {
    ghost var before := table.members;
    ghost var done: set<NodeId> := {};
    var expired := table.MembersWhere((m: Member) => SuspicionExpired(m, now));
    assert SweptPart(before, done, now) == before;
    for i := 0 to |expired|
      invariant old(Agrees(AgentOf(node, table, queue))) ==> Agrees(AgentOf(node, table, queue))
      invariant node.Value() == old(node.Value())
      invariant table.members == SweptPart(before, done, now)
      invariant done == set j | 0 <= j < i :: expired[j].id
      invariant TellsOfTheSwept(before, done, old(queue.pending), queue.pending)
    {
      SweepOne(AgentOf(node, table, queue), before, done, expired[i], now);
      SweepOneTells(AgentOf(node, table, queue), before, done, old(queue.pending), expired[i], now);
      var changed := Mark(node, table, queue, expired[i], WireState.Dead, now);
      done := done + {expired[i].id};
    }
    SweptAll(before, expired, done, now);
  }

  lemma SweptAll(t: Table, expired: seq<Member>, done: set<NodeId>, now: Time)
    requires Lists(expired, t, (m: Member) => SuspicionExpired(m, now))
    requires WellFormed(t) && done == set j | 0 <= j < |expired| :: expired[j].id
    ensures SweptPart(t, done, now) == Swept(t, now)
  {
    forall id | id in t && SuspicionExpired(t[id], now) ensures id in done {
      assert t[id] in expired;
      var j :| 0 <= j < |expired| && expired[j] == t[id];
    }
  }

  /** An entry is either exactly as it was, clock included, or ranked higher. */
  lemma {:induction false} HeldStaysOrRises(m: Member, news: seq<News>)
    ensures FoldEntry(Some(m), news).Some?
    ensures FoldEntry(Some(m), news) == Some(m) || MemberKey(FoldEntry(Some(m), news).value) > MemberKey(m)
    decreases |news|
  {
    if news != [] {
      HeldStaysOrRises(MergeEntry(Some(m), news[0].rumor, news[0].at).value, news[1..]);
    }
  }

  /** The news about one member among what the other tasks do. */
  function NewsAmong(ops: seq<AgentOp>, id: NodeId): seq<News>
    decreases |ops|
  {
    if ops == [] then []
    else
      (if ops[0].ApplyOp? && ops[0].rumor.id == id then [News(ops[0].rumor, ops[0].now)] else []) + NewsAmong(ops[1..], id)
  }

  predicate NeverReaped(ops: seq<AgentOp>, id: NodeId) {
    forall i :: 0 <= i < |ops| ==> ops[i].ReapOp? ==> id !in ops[i].ids
  }

  lemma {:induction false} EntryUnderOps(a: Agent, ops: seq<AgentOp>, id: NodeId)
    requires NeverReaped(ops, id) && id != a.local.id
    ensures Lookup(PerformOps(a, ops).table, id) == FoldEntry(Lookup(a.table, id), NewsAmong(ops, id))
    decreases |ops|
  {
    if ops != [] {
      var op, rest, b := ops[0], ops[1..], PerformOp(a, ops[0]);
      EntryUnderOps(b, rest, id);
      if op.ApplyOp? && op.rumor.id == id {
        var news := [News(op.rumor, op.now)] + NewsAmong(rest, id);
        assert news[1..] == NewsAmong(rest, id);
        assert Lookup(b.table, id) == MergeEntry(Lookup(a.table, id), op.rumor, op.now);
      } else {
        assert Lookup(b.table, id) == Lookup(a.table, id);
        assert NewsAmong(ops, id) == NewsAmong(rest, id);
      }
    }
  }

  lemma {:induction false} IdStays(a: Agent, ops: seq<AgentOp>)
    ensures PerformOps(a, ops).local.id == a.local.id
    decreases |ops|
  {
    if ops != [] {
      IdStays(PerformOp(a, ops[0]), ops[1..]);
    }
  }

  /** Scan and mark with anything at all happening in between. The mark never creates
      an entry, and unless the member was reaped on the way, which only the
      detector's own task does, it only ever kills the very suspicion it copied:
      an entry that moved to a higher incarnation, or whose suspicion began later,
      stays as it is. Either way the member is then dead at that incarnation or
      known above it. */
  lemma {:induction false} SweepKillsOnlyWhatItScanned(a: Agent, ops: seq<AgentOp>, m: Member, scanned: Time, marked: Time)
    requires Lookup(a.table, m.id) == Some(m) && m.id != a.local.id && SuspicionExpired(m, scanned)
    ensures var b := PerformOps(a, ops);
            var now, after := Lookup(b.table, m.id), Lookup(ApplyTo(b, MarkRumor(m, WireState.Dead), marked).table, m.id);
            && (now == None ==> after == None)
            && (NeverReaped(ops, m.id) ==>
                  && now.Some? && after.Some?
                  && after == (if now == Some(m) then Some(m.(state := MemberState.Dead(marked))) else now)
                  && (after.value.incarnation > m.incarnation
                      || (after.value.incarnation == m.incarnation && after.value.state.Dead?)))
  {
    IdStays(a, ops);
    if NeverReaped(ops, m.id) {
      EntryUnderOps(a, ops, m.id);
      HeldStaysOrRises(m, NewsAmong(ops, m.id));
    }
  }

  /** The suspicion clock: however often the suspicion is repeated, the clock is
      the first one; and if nobody has cleared it, the first sweep at or after
      five seconds declares the member dead. */
  lemma {:induction false} SuspicionClockNeverRestarts(m: Member, news: seq<News>, sweep: Time)
    requires m.state.Suspect?
    ensures FoldEntry(Some(m), news).Some?
    ensures var e := FoldEntry(Some(m), news).value;
            e.state.Suspect? && e.incarnation == m.incarnation ==>
              && e == m
              && SweptEntry(e, sweep).state == if sweep >= m.state.since + 5_000 then MemberState.Dead(sweep) else m.state
  {
    HeldStaysOrRises(m, news);
  }

  /** A failed probe's mark, with anything at all happening since the copy was made.
      Unless the member was reaped on the way, which only the detector's own task
      does, the entry becomes suspect if it is exactly alive at that incarnation,
      and otherwise keeps what it had, an older suspicion's clock included. On a
      reaped member the mark would open an entry again. */
  lemma {:induction false} FailedProbeOnlySuspectsTheLiving(a: Agent, ops: seq<AgentOp>, m: Member, marked: Time)
    requires Lookup(a.table, m.id) == Some(m) && m.id != a.local.id && !m.state.Dead?
    ensures var b := PerformOps(a, ops);
            var now, after := Lookup(b.table, m.id), Lookup(ApplyTo(b, MarkRumor(m, WireState.Suspect), marked).table, m.id);
            && (NeverReaped(ops, m.id) ==>
                  && now.Some?
                  && after == if now == Some(m) && m.state.Alive? then Some(m.(state := MemberState.Suspect(marked))) else now)
            && (now == None ==> (after != None <==> !m.addr.ip.IsUnspecified()))
  {
    IdStays(a, ops);
    if NeverReaped(ops, m.id) {
      EntryUnderOps(a, ops, m.id);
      HeldStaysOrRises(m, NewsAmong(ops, m.id));
    }
  }

  // ---- From dead to forgotten -----------------------------------------------------

  predicate DeathExpired(m: Member, now: Time) {
    m.state.Dead? && Elapsed(now, m.state.since) >= REAP_TIMEOUT
  }

  function Reaped(t: Table, now: Time): Table {
    map id | id in t && !DeathExpired(t[id], now) :: t[id]
  }

  /** Scan and removal as one step: exactly the members dead for thirty seconds go. */
  method ReapDead(table: MemberTable, now: Time)
    requires WellFormed(table.members)
    modifies table
    ensures table.members == Reaped(old(table.members), now)
    ensures forall id :: id in old(table.members) ==>
      var m := old(table.members)[id];
      if m.state.Dead? && now >= m.state.since + 30_000 then id !in table.members
      else id in table.members && table.members[id] == m
    ensures forall id :: id in table.members ==> id in old(table.members)
  {
    ghost var before := table.members;
    var expired := table.MembersWhere((m: Member) => DeathExpired(m, now));
    var ids: seq<NodeId> := [];
    for i := 0 to |expired|
      invariant |ids| == i && forall j :: 0 <= j < i ==> ids[j] == expired[j].id
      invariant table.members == before
    {
      ids := ids + [expired[i].id];
    }
    assert forall id :: id in before && DeathExpired(before[id], now) ==> before[id] in expired;
    if ids == [] {
      return;
    }
    table.Remove(ids);
    forall id | id in before ensures id in ids <==> DeathExpired(before[id], now) {
      if DeathExpired(before[id], now) {
        var j :| 0 <= j < |expired| && expired[j] == before[id];
        assert ids[j] == id;
      }
    }
  }

  /** The death clock: whatever is heard about a dead member that is not at a higher number,
      its clock is the one it died with, and reaps before thirty seconds keep the entry
      as it is while the first one after forgets it. */
  lemma {:induction false} DeathClockNeverRestarts(t: Table, id: NodeId, news: seq<News>, reap: Time)
    requires id in t && t[id].state.Dead?
    requires forall i :: 0 <= i < |news| ==> news[i].rumor.incarnation <= t[id].incarnation
    ensures FoldEntry(Some(t[id]), news) == Some(t[id])
    ensures Lookup(Reaped(t, reap), id) == if reap >= t[id].state.since + 30_000 then None else Some(t[id])
  {
    assert NothingOutranks(t[id], news);
    FoldHeldIsMaximum(t[id], news);
  }

  /** From suspicion to oblivion on one table, nothing contradicting it: suspected at `s`,
      dead at the first sweep five seconds on, forgotten at the first reap thirty seconds
      after that sweep, and at no earlier one. */
  lemma SuspectedIsForgottenOnTime(t: Table, id: NodeId, sweep: Time, reap: Time)
    requires id in t && t[id].state.Suspect? && sweep <= reap
    ensures var swept := Swept(t, sweep);
            Lookup(Reaped(swept, reap), id) ==
              if sweep < t[id].state.since + 5_000 then Some(t[id])
              else if reap < sweep + 30_000 then Some(t[id].(state := MemberState.Dead(sweep)))
              else None
  {
  }
}
