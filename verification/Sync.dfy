/** Whole-table exchanges: the periodic sync and the join (sync.rs and the
    request handlers of join.rs). */
module Sync {
  import opened Types
  import opened LocalNodes
  import opened MemberTables
  import opened GossipQueues
  import opened Dissemination

  function AbsorbFrom(a: Agent, from: WireIdentity, members: seq<WireMember>, now: Time): Agent {
    ApplyAll(a, [IntoMember(from)] + members, now)
  }

  function WireAll(s: seq<Member>): (r: seq<WireMember>)
    ensures |r| == |s|
    ensures forall i :: 0 <= i < |s| ==> r[i] == ToWire(s[i])
  {
    if s == [] then [] else [ToWire(s[0])] + WireAll(s[1..])
  }

  /** `s` is what a snapshot of `t` may put on the wire: every entry, in some order. */
  ghost predicate IsSnapshot(s: seq<WireMember>, t: Table) {
    && (forall i, j :: 0 <= i < j < |s| ==> s[i].id != s[j].id)
    && (forall i :: 0 <= i < |s| ==> s[i].id in t && s[i] == ToWire(t[s[i].id]))
    && (forall id :: id in t ==> ToWire(t[id]) in s)
  }

  // ---- The handlers ---------------------------------------------------------------

  /** The peer's own record first: it has no entry for itself in what it sent. */
  method Absorb(node: LocalNode, table: MemberTable, queue: GossipQueue, from: WireIdentity, members: seq<WireMember>, now: Time)
    modifies node, table, queue
    ensures AgentOf(node, table, queue) == AbsorbFrom(old(AgentOf(node, table, queue)), from, members, now)
    ensures old(Agrees(AgentOf(node, table, queue))) ==> Agrees(AgentOf(node, table, queue))
  {
    ghost var goal := AbsorbFrom(AgentOf(node, table, queue), from, members, now);
    var outcome := Apply(node, table, queue, IntoMember(from), now);
    assert ([IntoMember(from)] + members)[1..] == members;
    for i := 0 to |members|
      invariant ApplyAll(AgentOf(node, table, queue), members[i..], now) == goal
      invariant old(Agrees(AgentOf(node, table, queue))) ==> Agrees(AgentOf(node, table, queue))
    {
      outcome := Apply(node, table, queue, members[i], now);
      assert members[i..][1..] == members[i + 1..];
    }
  }

  method WireSnapshot(table: MemberTable) returns (s: seq<WireMember>)
    requires WellFormed(table.members)
    ensures IsSnapshot(s, table.members)
  {
    var members := table.Snapshot();
    s := WireAll(members);
    forall id | id in table.members ensures ToWire(table.members[id]) in s {
      assert table.members[id] in members;
      var i :| 0 <= i < |members| && members[i] == table.members[id];
      assert s[i] == ToWire(table.members[id]);
    }
  }

  /** The reply is read before the request is absorbed, so nobody is handed
      their own rumors back. */
  method HandleSyncRequest(node: LocalNode, table: MemberTable, queue: GossipQueue, from: WireIdentity, members: seq<WireMember>, now: Time)
    returns (reply: WireIdentity, replyMembers: seq<WireMember>)
    requires WellFormed(table.members)
    modifies node, table, queue
    ensures reply == old(node.Value()).Identity() && IsSnapshot(replyMembers, old(table.members))
    ensures AgentOf(node, table, queue) == AbsorbFrom(old(AgentOf(node, table, queue)), from, members, now)
  {
    reply := node.Identity();
    replyMembers := WireSnapshot(table);
    Absorb(node, table, queue, from, members, now);
  }

  method HandleJoinRequest(node: LocalNode, table: MemberTable, queue: GossipQueue, joiner: WireIdentity, now: Time)
    returns (reply: WireIdentity, replyMembers: seq<WireMember>)
    requires WellFormed(table.members)
    modifies node, table, queue
    ensures reply == node.Value().Identity() && IsSnapshot(replyMembers, old(table.members))
    ensures AgentOf(node, table, queue) == ApplyTo(old(AgentOf(node, table, queue)), IntoMember(joiner), now)
  {
    replyMembers := WireSnapshot(table);
    var outcome := Apply(node, table, queue, IntoMember(joiner), now);
    reply := node.Identity();
  }

  // ---- What an exchange achieves ----------------------------------------------------

  function NewsOf(rumors: seq<WireMember>, now: Time): (r: seq<News>)
    ensures |r| == |rumors|
    ensures forall i :: 0 <= i < |rumors| ==> r[i] == News(rumors[i], now)
  {
    if rumors == [] then [] else [News(rumors[0], now)] + NewsOf(rumors[1..], now)
  }

  /** Refutations aside, absorbing is folding into the table. */
  lemma {:induction false} AbsorbFoldsTable(a: Agent, rumors: seq<WireMember>, now: Time)
    ensures ApplyAll(a, rumors, now).table == FoldTable(a.table, NewsOf(rumors, now), a.local.id)
    ensures ApplyAll(a, rumors, now).local.id == a.local.id
    decreases |rumors|
  {
    if rumors != [] {
      var b := ApplyTo(a, rumors[0], now);
      assert b.table == MergeTable(a.table, rumors[0], a.local.id, now);
      AbsorbFoldsTable(b, rumors[1..], now);
      assert NewsOf(rumors, now)[1..] == NewsOf(rumors[1..], now);
    }
  }

  lemma {:induction false} AboutNobody(news: seq<News>, id: NodeId)
    requires forall i :: 0 <= i < |news| ==> news[i].rumor.id != id
    ensures About(news, id) == []
    decreases |news|
  {
    if news != [] {
      AboutNobody(news[1..], id);
    }
  }

  lemma {:induction false} AboutOne(news: seq<News>, id: NodeId, k: nat)
    requires k < |news|
    requires forall i :: 0 <= i < |news| ==> (news[i].rumor.id == id <==> i == k)
    ensures About(news, id) == [news[k]]
    decreases |news|
  {
    if k == 0 {
      AboutNobody(news[1..], id);
    } else {
      AboutOne(news[1..], id, k - 1);
      assert About(news, id) == About(news[1..], id);
    }
  }

  /** What absorbing a peer's identity and snapshot does to the entry of one member. */
  function Absorbed(e: Option<Member>, theirs: Option<Member>, now: Time): Option<Member> {
    match theirs
    case None => e
    case Some(m) => MergeEntry(e, ToWire(m), now)
  }

  lemma AbsorbEntry(a: Agent, from: WireIdentity, s: seq<WireMember>, t: Table, now: Time, id: NodeId)
    requires IsSnapshot(s, t) && WellFormed(t) && from.id !in t && id != a.local.id
    ensures Lookup(AbsorbFrom(a, from, s, now).table, id) ==
      if id == from.id then MergeEntry(Lookup(a.table, id), IntoMember(from), now)
      else Absorbed(Lookup(a.table, id), Lookup(t, id), now)
  {
    var rumors := [IntoMember(from)] + s;
    var news := NewsOf(rumors, now);
    assert Lookup(AbsorbFrom(a, from, s, now).table, id) == FoldEntry(Lookup(a.table, id), About(news, id)) by {
      AbsorbFoldsTable(a, rumors, now);
      FoldTableIsPointwise(a.table, news, a.local.id, id);
    }
    SnapshotNews(from, s, t, now, id);
    if id == from.id || id in t {
      FoldOne(Lookup(a.table, id), About(news, id)[0]);
    }
  }

  /** An identity and a snapshot hold at most one rumor about any member. */
  lemma {:induction false} SnapshotNews(from: WireIdentity, s: seq<WireMember>, t: Table, now: Time, id: NodeId)
    requires IsSnapshot(s, t) && WellFormed(t) && from.id !in t
    ensures About(NewsOf([IntoMember(from)] + s, now), id) ==
      if id == from.id then [News(IntoMember(from), now)]
      else if id in t then [News(ToWire(t[id]), now)]
      else []
  {
    var rest := NewsOf(s, now);
    assert ([IntoMember(from)] + s)[1..] == s;
    assert NewsOf([IntoMember(from)] + s, now) == [News(IntoMember(from), now)] + rest;
    assert ([News(IntoMember(from), now)] + rest)[1..] == rest;
    SnapshotRest(s, t, now, id);
  }

  lemma {:induction false} SnapshotRest(s: seq<WireMember>, t: Table, now: Time, id: NodeId)
    requires IsSnapshot(s, t) && WellFormed(t)
    ensures About(NewsOf(s, now), id) == if id in t then [News(ToWire(t[id]), now)] else []
  {
    var rest := NewsOf(s, now);
    if id in t {
      var k :| 0 <= k < |s| && s[k] == ToWire(t[id]);
      AboutOne(rest, id, k);
    } else {
      AboutNobody(rest, id);
    }
  }

  lemma {:induction false} FoldOne(e: Option<Member>, n: News)
    ensures FoldEntry(e, [n]) == MergeEntry(e, n.rumor, n.at)
  {
    assert [n][1..] == [];
  }

  /** What a node would tell others about a member it does not count as dead. */
  datatype View = View(incarnation: Incarnation, state: WireState, ready: bool, tags: Tags)

  function ViewOf(e: Option<Member>): Option<View> {
    match e
    case None => None
    case Some(m) =>
      if m.state.Dead? then None else Some(View(m.incarnation, ToWireState(m.state), m.ready, m.tags))
  }

  /** Two entries that give the same verdict, at the same incarnation, about a member
      neither counts as dead, and yet say different things about it. */
  predicate Conflict(e: Option<Member>, f: Option<Member>) {
    && e.Some? && f.Some?
    && e.value.incarnation == f.value.incarnation
    && ToWireState(e.value.state) == ToWireState(f.value.state) != WireState.Dead
    && (e.value.ready != f.value.ready || e.value.tags != f.value.tags)
  }

  /** An uninterrupted exchange: the request carries A's identity and snapshot, the
      reply B's, read before B absorbs the request. */
  ghost predicate Exchange(a: Agent, b: Agent, a': Agent, b': Agent, sa: seq<WireMember>, sb: seq<WireMember>, atA: Time, atB: Time) {
    && IsSnapshot(sa, a.table) && IsSnapshot(sb, b.table)
    && b' == AbsorbFrom(b, a.local.Identity(), sa, atB)
    && a' == AbsorbFrom(a, b.local.Identity(), sb, atA)
  }

  /** Two entries about one member, each merged with the other. */
  lemma ViewsMeet(e: Option<Member>, f: Option<Member>, atA: Time, atB: Time)
    requires e.Some? ==> !e.value.addr.ip.IsUnspecified()
    requires f.Some? ==> !f.value.addr.ip.IsUnspecified()
    ensures ViewOf(Absorbed(e, f, atA)) == ViewOf(Absorbed(f, e, atB)) <==> !Conflict(e, f)
  {
  }

  /** Afterwards both have the same view of a third node exactly when their entries
      about it did not conflict, and each holds the other at no less than the
      incarnation it introduced itself with. */
  lemma SyncMakesViewsEqual(a: Agent, b: Agent, a': Agent, b': Agent, sa: seq<WireMember>, sb: seq<WireMember>, atA: Time, atB: Time)
    requires TableSound(a) && TableSound(b) && a.local.id != b.local.id
    requires Exchange(a, b, a', b', sa, sb, atA, atB)
    ensures forall id :: id != a.local.id && id != b.local.id ==>
      (ViewOf(Lookup(a'.table, id)) == ViewOf(Lookup(b'.table, id)) <==> !Conflict(Lookup(a.table, id), Lookup(b.table, id)))
    ensures b.local.id in a'.table && a'.table[b.local.id].incarnation >= b.local.incarnation
    ensures a.local.id in b'.table && b'.table[a.local.id].incarnation >= a.local.incarnation
  {
    forall id | id != a.local.id && id != b.local.id
      ensures ViewOf(Lookup(a'.table, id)) == ViewOf(Lookup(b'.table, id)) <==> !Conflict(Lookup(a.table, id), Lookup(b.table, id))
    {
      AbsorbEntry(a, b.local.Identity(), sb, b.table, atA, id);
      AbsorbEntry(b, a.local.Identity(), sa, a.table, atB, id);
      ViewsMeet(Lookup(a.table, id), Lookup(b.table, id), atA, atB);
    }
    EachHoldsTheOther(a, b, sb, atA);
    EachHoldsTheOther(b, a, sa, atB);
  }

  lemma EachHoldsTheOther(a: Agent, b: Agent, sb: seq<WireMember>, now: Time)
    requires TableSound(b) && a.local.id != b.local.id && IsSnapshot(sb, b.table)
    ensures var t := AbsorbFrom(a, b.local.Identity(), sb, now).table;
            b.local.id in t && t[b.local.id].incarnation >= b.local.incarnation
  {
    AbsorbEntry(a, b.local.Identity(), sb, b.table, now, b.local.id);
  }
}
