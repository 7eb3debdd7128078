/** Merging a rumor and passing on whatever it changed (dissemination.rs), and
    telling the cluster about our own readiness (health.rs). */
module Dissemination {
  import opened Types
  import opened LocalNodes
  import opened MemberTables
  import opened GossipQueues

  /** One node's three shared values, read at one moment. */
  datatype Agent = Agent(local: Local, table: Table, queue: Queue)

  /** `apply` as one step: the merge, and the push or the refutation it calls for. */
  function ApplyTo(a: Agent, r: WireMember, now: Time): Agent {
    var t := MergeTable(a.table, r, a.local.id, now);
    match OutcomeOf(a.table, r, a.local.id)
    case Ignored => a
    case Added => Agent(a.local, t, PushQueue(a.queue, r, |t| + 1))
    case Updated => Agent(a.local, t, PushQueue(a.queue, r, |t| + 1))
    case Refute(rumored) =>
      if a.local.leaving then a
      else
        var l := a.local.Refute(rumored);
        Agent(l, a.table, PushQueue(a.queue, l.AliveRumor(), |t| + 1))
  }

  /** The health check's flip, and the rumor about it. */
  function FlipTo(a: Agent, value: bool): Agent {
    if !a.local.SetReadyChanges(value) then a
    else
      var l := a.local.SetReady(value);
      Agent(l, a.table, PushQueue(a.queue, l.AliveRumor(), |a.table| + 1))
  }

  // ---- Over the shared objects --------------------------------------------------

  ghost function AgentOf(node: LocalNode, table: MemberTable, queue: GossipQueue): Agent
    reads node, table, queue
  {
    Agent(node.Value(), table.members, queue.pending)
  }

  method Apply(node: LocalNode, table: MemberTable, queue: GossipQueue, rumor: WireMember, now: Time)
    returns (outcome: MergeOutcome)
    modifies node, table, queue
    ensures AgentOf(node, table, queue) == ApplyTo(old(AgentOf(node, table, queue)), rumor, now)
    ensures outcome == OutcomeOf(old(table.members), rumor, node.id)
    ensures old(Agrees(AgentOf(node, table, queue))) ==> Agrees(AgentOf(node, table, queue))
  {
    ghost var before := AgentOf(node, table, queue);
    outcome := table.Merge(rumor, node.id, now);
    var clusterSize := |table.members| + 1;
    match outcome {
      case Added => queue.Push(rumor, clusterSize);
      case Updated => queue.Push(rumor, clusterSize);
      case Ignored =>
      case Refute(rumored) =>
        var current := node.Refute(rumored);
        if current == None {
          assert node.Value() == before.local;
        } else {
          var alive := node.AliveRumor();
          queue.Push(alive, clusterSize);
        }
    }
    if Agrees(before) {
      ApplyKeepsAgreement(before, rumor, now);
    }
  }

  /** One tick of the health check, given the app's answer. */
  method TellReadiness(node: LocalNode, table: MemberTable, queue: GossipQueue, ready: bool)
    modifies node, queue
    ensures AgentOf(node, table, queue) == FlipTo(old(AgentOf(node, table, queue)), ready)
    ensures old(Agrees(AgentOf(node, table, queue))) ==> Agrees(AgentOf(node, table, queue))
  {
    ghost var before := AgentOf(node, table, queue);
    var changed := node.SetReady(ready);
    if changed {
      var alive := node.AliveRumor();
      queue.Push(alive, |table.members| + 1);
    }
    assert AgentOf(node, table, queue) == FlipTo(before, ready);
    if Agrees(before) {
      FlipKeepsAgreement(before, ready);
    }
  }

  // ---- The queue never contradicts the table --------------------------------------

  predicate SameNews(r: WireMember, m: Member) {
    r.incarnation == m.incarnation && r.state == ToWireState(m.state) && r.ready == m.ready && r.tags == m.tags
  }

  /** The table never holds ourselves, nor an address nobody can reach, and ours can
      be reached too. */
  ghost predicate TableSound(a: Agent) {
    && WellFormed(a.table)
    && a.local.id !in a.table
    && !a.local.addr.ip.IsUnspecified()
    && forall id :: id in a.table ==> !a.table[id].addr.ip.IsUnspecified()
  }

  /** What we are still telling others is what we believe: about every member we
      hold, and about ourselves. */
  ghost predicate Agrees(a: Agent) {
    && ValidQueue(a.queue)
    && TableSound(a)
    && (forall i :: 0 <= i < |a.queue| ==> RumorAgrees(a, a.queue[i].rumor))
  }

  ghost predicate RumorAgrees(a: Agent, r: WireMember) {
    && (r.id in a.table ==> SameNews(r, a.table[r.id]))
    && (r.id == a.local.id ==> r == a.local.AliveRumor())
  }

  lemma PushAgrees(a: Agent, b: Agent, r: WireMember, clusterSize: nat)
    requires Agrees(a) && b.queue == PushQueue(a.queue, r, clusterSize)
    requires TableSound(b) && RumorAgrees(b, r)
    requires forall x :: RumorAgrees(a, x) && x.id != r.id ==> RumorAgrees(b, x)
    ensures Agrees(b)
  {
    PushKeepsValid(a.queue, r, clusterSize);
    WithoutHas(a.queue, r.id);
    forall i | 0 <= i < |b.queue| ensures RumorAgrees(b, b.queue[i].rumor) {
      if i < |b.queue| - 1 {
        assert b.queue[i] in Without(a.queue, r.id);
      }
    }
  }

  lemma ApplyKeepsAgreement(a: Agent, r: WireMember, now: Time)
    requires Agrees(a)
    ensures Agrees(ApplyTo(a, r, now))
  {
    var b := ApplyTo(a, r, now);
    var size := |MergeTable(a.table, r, a.local.id, now)| + 1;
    match OutcomeOf(a.table, r, a.local.id) {
      case Ignored =>
      case Added => PushAgrees(a, b, r, size);
      case Updated => PushAgrees(a, b, r, size);
      case Refute(_) =>
        if !a.local.leaving {
          PushAgrees(a, b, b.local.AliveRumor(), size);
        }
    }
  }

  lemma FlipKeepsAgreement(a: Agent, value: bool)
    requires Agrees(a)
    ensures Agrees(FlipTo(a, value))
  {
    if a.local.SetReadyChanges(value) {
      var b := FlipTo(a, value);
      PushAgrees(a, b, b.local.AliveRumor(), |a.table| + 1);
    }
  }

  lemma TakeKeepsAgreement(a: Agent)
    requires Agrees(a)
    ensures Agrees(a.(queue := AfterTake(a.queue)))
  {
    TakeKeepsValid(a.queue);
    var q := AfterTake(a.queue);
    forall i | 0 <= i < |q| ensures RumorAgrees(a, q[i].rumor) {
      var x := TakeKeepsRumors(a.queue, q[i]);
    }
  }

  /** Everything that happens to one node's shared values. */
  datatype AgentOp =
    | ApplyOp(rumor: WireMember, now: Time)
    | TakeOp
    | ReapOp(ids: set<NodeId>)
    | FlipOp(value: bool)
    | LeaveOp

  function PerformOp(a: Agent, op: AgentOp): Agent {
    match op
    case ApplyOp(rumor, now) => ApplyTo(a, rumor, now)
    case TakeOp => a.(queue := AfterTake(a.queue))
    case ReapOp(ids) => a.(table := a.table - ids)
    case FlipOp(value) => FlipTo(a, value)
    case LeaveOp => a.(local := a.local.Leave())
  }

  function PerformOps(a: Agent, ops: seq<AgentOp>): Agent
    decreases |ops|
  {
    if ops == [] then a else PerformOps(PerformOp(a, ops[0]), ops[1..])
  }

  /** Through any sequence of applies, sends, reaps, flips and a leave, and
      whatever the rumors say, queue and table agree. */
  lemma {:induction false} QueueAgreesWithTable(a: Agent, ops: seq<AgentOp>)
    requires Agrees(a)
    ensures Agrees(PerformOps(a, ops))
    decreases |ops|
  {
    if ops != [] {
      match ops[0] {
        case ApplyOp(rumor, now) => ApplyKeepsAgreement(a, rumor, now);
        case TakeOp => TakeKeepsAgreement(a);
        case ReapOp(ids) =>
        case FlipOp(value) => FlipKeepsAgreement(a, value);
        case LeaveOp =>
      }
      QueueAgreesWithTable(PerformOp(a, ops[0]), ops[1..]);
    }
  }

  lemma FreshAgentAgrees(id: NodeId, addr: Addr, tags: Tags)
    ensures Agrees(Agent(Local.New(id, addr, tags), map[], [])) <==> !addr.ip.IsUnspecified()
  {
    var a := Agent(Local.New(id, addr, tags), map[], []);
    assert WellFormed(a.table);
  }

  // ---- When the two locks of an apply are taken apart --------------------------------

  /** News about `id`, each item of which changes the table when it is merged after
      the ones before it, so that each is owed a push. */
  ghost predicate EachIsNews(t: Table, news: seq<News>, me: NodeId, id: NodeId)
    decreases |news|
  {
    news == [] ||
    (&& news[0].rumor.id == id
     && OutcomeOf(t, news[0].rumor, me) in {Added, Updated}
     && EachIsNews(MergeTable(t, news[0].rumor, me, news[0].at), news[1..], me, id))
  }

  /** The entry ends as the last of them, which outranks all the others. */
  lemma {:induction false} LastNewsStands(t: Table, news: seq<News>, me: NodeId, id: NodeId)
    requires news != [] && EachIsNews(t, news, me, id)
    ensures var t', last := FoldTable(t, news, me), news[|news| - 1].rumor;
            && id in t' && SameNews(last, t'[id])
            && (id in t ==> MemberKey(t[id]) < RumorKey(last))
            && forall i :: 0 <= i < |news| - 1 ==> RumorKey(news[i].rumor) < RumorKey(last)
    decreases |news|
  {
    var t1 := MergeTable(t, news[0].rumor, me, news[0].at);
    assert id in t1 && MemberKey(t1[id]) == RumorKey(news[0].rumor) && SameNews(news[0].rumor, t1[id]);
    if |news| > 1 {
      LastNewsStands(t1, news[1..], me, id);
      assert forall i :: 0 < i < |news| ==> news[i] == news[1..][i - 1];
    }
  }

  /** The last rumor about `id` that these operations push. */
  function LastPushed(ops: seq<QueueOp>, id: NodeId): Option<WireMember>
    decreases |ops|
  {
    if ops == [] then None
    else
      match LastPushed(ops[1..], id)
      case Some(r) => Some(r)
      case None => if ops[0].PushOp? && ops[0].rumor.id == id then Some(ops[0].rumor) else None
  }

  /** Whatever is queued about a member after pushes and sends in any order is the
      last rumor pushed about it, or else was there before. */
  lemma {:induction false} QueuedIsLastPushed(q: Queue, ops: seq<QueueOp>, p: Pending)
    requires p in GossipQueues.PerformAll(q, ops)
    ensures match LastPushed(ops, p.rumor.id)
            case Some(r) => p.rumor == r
            case None => exists x :: x in q && x.rumor == p.rumor
    decreases |ops|
  {
    if ops != [] {
      var mid := GossipQueues.Perform(q, ops[0]);
      QueuedIsLastPushed(mid, ops[1..], p);
      if LastPushed(ops[1..], p.rumor.id) == None {
        var x :| x in mid && x.rumor == p.rumor;
        match ops[0] {
          case PushOp(r, _) => WithoutHas(q, r.id);
          case TakeOp => var y := TakeKeepsRumors(q, x);
        }
      }
    }
  }

  /** The agreement needs `apply` to be one step. When tasks merge under one lock and
      push under another, in any order and with sends in between, a queued rumor
      says what the entry says exactly when the last push is that of the last
      merge, because a push replaces without comparing. */
  lemma {:induction false} SplitApplyAgreesExactlyWhenLastMergePushesLast(t: Table, me: NodeId, news: seq<News>, q: Queue, ops: seq<QueueOp>, k: nat, p: Pending)
    requires k < |news| && EachIsNews(t, news, me, p.rumor.id)
    requires LastPushed(ops, p.rumor.id) == Some(news[k].rumor)
    requires p in GossipQueues.PerformAll(q, ops)
    ensures var t' := FoldTable(t, news, me);
            p.rumor.id in t' && (SameNews(p.rumor, t'[p.rumor.id]) <==> k == |news| - 1)
  {
    LastNewsStands(t, news, me, p.rumor.id);
    QueuedIsLastPushed(q, ops, p);
    assert k < |news| - 1 ==> RumorKey(news[k].rumor) < RumorKey(news[|news| - 1].rumor);
  }

  /** The smallest such disagreement: two rumors, pushed in the other order. */
  lemma SplitApplyCanDisagree(me: NodeId, older: WireMember, newer: WireMember, now: Time)
    requires older.id == newer.id != me
    requires Creates(older) && older.incarnation < newer.incarnation
    ensures var t := MergeTable(MergeTable(map[], older, me, now), newer, me, now);
            var q := PushQueue(PushQueue([], newer, |t| + 1), older, |t| + 1);
            && newer.id in t && t[newer.id].incarnation == newer.incarnation
            && |q| == 1 && q[0].rumor == older && !SameNews(older, t[newer.id])
  {
    var t := MergeTable(MergeTable(map[], older, me, now), newer, me, now);
    var first := PushQueue([], newer, |t| + 1);
    assert Without([], newer.id) == [];
    assert first == [Pending(newer, RetransmitLimit(|t| + 1))];
    assert first[1..] == [];
    assert Without(first, older.id) == [] + Without([], older.id);
  }

  // ---- What an apply changes, and whom it tells ---------------------------------------

  /** News about another member is queued exactly when it changed the table, as it came
      and with a full budget; whatever else is queued stays. */
  lemma ApplyTellsWhatItLearned(a: Agent, r: WireMember, now: Time)
    requires r.id != a.local.id
    ensures var b := ApplyTo(a, r, now);
            && b.local == a.local
            && (b.table == a.table ==> b == a)
            && (b.table != a.table ==> FullyQueued(b.queue, r, |b.table| + 1) && SameButFor(a.queue, b.queue, r.id))
  {
    PushIsFull(a.queue, r, |MergeTable(a.table, r, a.local.id, now)| + 1);
  }

  /** Our own alive rumor, come back to us, is no news. */
  lemma OwnAliveRumorIsIgnored(a: Agent, r: WireMember, now: Time)
    requires r.id == a.local.id && r.state == WireState.Alive
    ensures ApplyTo(a, r, now) == a
  {
  }

  /** A change of readiness is told to everybody under a new number; the same answer again,
      or any answer while we are leaving, does nothing. */
  lemma FlipIsTold(a: Agent, value: bool)
    ensures var b, l := FlipTo(a, value), a.local;
            && (l.leaving || l.ready == value ==> b == a)
            && (!l.leaving && l.ready != value ==>
                  && b.table == a.table
                  && b.local == l.(ready := value, incarnation := if l.incarnation < 0xFFFF_FFFF then l.incarnation + 1 else l.incarnation)
                  && FullyQueued(b.queue, WireMember(l.id, l.addr, b.local.incarnation, WireState.Alive, value, l.tags), |a.table| + 1)
                  && SameButFor(a.queue, b.queue, l.id))
  {
    PushIsFull(a.queue, a.local.SetReady(value).AliveRumor(), |a.table| + 1);
  }

  // ---- Answering a rumor about ourselves ----------------------------------------

  /** A Suspect or Dead rumor about ourselves moves nothing while we are leaving.
      Otherwise the queue then carries one rumor about us, alive, at our current
      number and with a full budget; that number beats the rumor unless the
      rumor is at the largest incarnation there is. */
  lemma DoubtIsAnswered(a: Agent, r: WireMember, now: Time)
    requires r.id == a.local.id && r.state != WireState.Alive
    ensures var b := ApplyTo(a, r, now);
            && b.table == a.table
            && (a.local.leaving ==> b == a)
            && (!a.local.leaving ==>
                  && (b.local.incarnation > r.incarnation <==> r.incarnation < MAX_INCARNATION)
                  && b.local.incarnation >= a.local.incarnation
                  && (b.local.incarnation > a.local.incarnation ==> b.local.incarnation == Superseding(r.incarnation))
                  && b.local == a.local.(incarnation := b.local.incarnation)
                  && FullyQueued(b.queue, b.local.AliveRumor(), |a.table| + 1) && SameButFor(a.queue, b.queue, r.id))
  {
    var b := ApplyTo(a, r, now);
    if !a.local.leaving {
      PushIsFull(a.queue, b.local.AliveRumor(), |a.table| + 1);
    }
  }

  // ---- News off the wire ------------------------------------------------------------

  /** Each rumor applied in turn. */
  function ApplyAll(a: Agent, rumors: seq<WireMember>, now: Time): Agent
    decreases |rumors|
  {
    if rumors == [] then a else ApplyAll(ApplyTo(a, rumors[0], now), rumors[1..], now)
  }

  method HandleGossip(node: LocalNode, table: MemberTable, queue: GossipQueue, gossip: seq<WireMember>, now: Time)
    modifies node, table, queue
    ensures AgentOf(node, table, queue) == ApplyAll(old(AgentOf(node, table, queue)), gossip, now)
    ensures old(Agrees(AgentOf(node, table, queue))) ==> Agrees(AgentOf(node, table, queue))
  {
    ghost var goal := ApplyAll(AgentOf(node, table, queue), gossip, now);
    for i := 0 to |gossip|
      invariant ApplyAll(AgentOf(node, table, queue), gossip[i..], now) == goal
      invariant old(Agrees(AgentOf(node, table, queue))) ==> Agrees(AgentOf(node, table, queue))
    {
      var outcome := Apply(node, table, queue, gossip[i], now);
      assert gossip[i..][1..] == gossip[i + 1..];
    }
  }

  /** A peer says it is leaving: merged as its death at the number it gave. An entry not
      above that number is then dead at it, and the death is queued if it is news. */
  method HandleLeave(node: LocalNode, table: MemberTable, queue: GossipQueue, from: WireIdentity, now: Time)
    modifies node, table, queue
    ensures AgentOf(node, table, queue) == ApplyTo(old(AgentOf(node, table, queue)),
      WireMember(from.id, from.addr, from.incarnation, WireState.Dead, from.ready, from.tags), now)
    ensures from.id != node.id && from.id in old(table.members) && old(table.members)[from.id].incarnation <= from.incarnation ==>
      from.id in table.members && table.members[from.id].state.Dead? && table.members[from.id].incarnation == from.incarnation
    ensures from.id != node.id && from.id !in old(table.members) ==> table.members == old(table.members)
  {
    var rumor := LeaveRumor(from);
    var outcome := Apply(node, table, queue, rumor, now);
  }
}
