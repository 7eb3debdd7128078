/** What this node believes about every peer, and the one rule by which news
    changes it (state.rs). */
module MemberTables {
  import opened Types

  type Table = map<NodeId, Member>

  /** A stored record always says which member it is about. */
  ghost predicate WellFormed(t: Table) {
    forall id :: id in t ==> t[id].id == id
  }

  datatype MergeOutcome = Ignored | Added | Updated | Refute(rumored: Incarnation)

  // ---- The merge rule, as a function -----------------------------------------

  /** Incarnation first, then Dead over Suspect over Alive. */
  function Key(incarnation: Incarnation, state: WireState): nat {
    3 * incarnation + Rank(state)
  }

  function RumorKey(r: WireMember): nat { Key(r.incarnation, r.state) }

  function MemberKey(m: Member): nat { Key(m.incarnation, ToWireState(m.state)) }

  predicate Supersedes(r: WireMember, m: Member) {
    || r.incarnation > m.incarnation
    || (r.incarnation == m.incarnation && Rank(r.state) > Rank(ToWireState(m.state)))
  }

  /** A rumor that can open an entry for a member we do not hold. */
  predicate Creates(r: WireMember) {
    !r.addr.ip.IsUnspecified() && r.state != WireState.Dead
  }

  /** The address stays as first learned; everything else comes from the rumor. */
  function Overwrite(m: Member, r: WireMember, now: Time): Member {
    m.(incarnation := r.incarnation, state := FromWireState(r.state, now), ready := r.ready, tags := r.tags)
  }

  /** What one rumor does to the entry of the member it is about. */
  function MergeEntry(e: Option<Member>, r: WireMember, now: Time): Option<Member> {
    match e
    case None => if Creates(r) then Some(FromWire(r, now)) else None
    case Some(m) => if Supersedes(r, m) then Some(Overwrite(m, r, now)) else e
  }

  function Lookup(t: Table, id: NodeId): Option<Member> {
    if id in t then Some(t[id]) else None
  }

  function MergeTable(t: Table, r: WireMember, me: NodeId, now: Time): Table {
    if r.id == me then t
    else
      match MergeEntry(Lookup(t, r.id), r, now)
      case None => t
      case Some(m) => t[r.id := m]
  }

  function OutcomeOf(t: Table, r: WireMember, me: NodeId): MergeOutcome {
    if r.id == me then
      if r.state == WireState.Alive then Ignored else Refute(r.incarnation)
    else if r.id in t then
      if Supersedes(r, t[r.id]) then Updated else Ignored
    else if Creates(r) then Added else Ignored
  }

  /** A higher number, or at the same one a suspicion or death of the living, or the death
      of a suspect. */
  predicate IsNewer(r: WireMember, m: Member) {
    || m.incarnation < r.incarnation
    || (m.incarnation == r.incarnation && m.state.Alive? && r.state != WireState.Alive)
    || (m.incarnation == r.incarnation && m.state.Suspect? && r.state == WireState.Dead)
  }

  /** What a merge does, rumor by rumor. Only a doubt about ourselves asks for an answer,
      and our own news never touches the table. Anybody else's is added, or replaces all
      but the address, exactly when it should, with the clock started now. */
  lemma MergeDoesWhatItSays(t: Table, r: WireMember, me: NodeId, now: Time)
    ensures var t', outcome := MergeTable(t, r, me, now), OutcomeOf(t, r, me);
            var state := match r.state case Alive => MemberState.Alive case Suspect => MemberState.Suspect(now) case Dead => MemberState.Dead(now);
            && (outcome.Refute? <==> r.id == me && r.state != WireState.Alive)
            && (outcome.Refute? ==> outcome.rumored == r.incarnation)
            && (outcome == Added <==> r.id != me && r.id !in t && r.state != WireState.Dead && r.addr.ip.bits != 0)
            && (outcome == Added ==> t' == t[r.id := Member(r.id, r.addr, r.incarnation, state, r.ready, r.tags)])
            && (outcome == Updated <==> r.id != me && r.id in t && IsNewer(r, t[r.id]))
            && (outcome == Updated ==> t' == t[r.id := Member(t[r.id].id, t[r.id].addr, r.incarnation, state, r.ready, r.tags)])
            && (outcome != Added && outcome != Updated ==> t' == t)
  {
    if r.id in t {
      assert t[r.id := t[r.id]] == t;
    }
  }

  // ---- The table the tasks share ---------------------------------------------

  /** `s` lists, in some order and without repeats, the entries of `t` that satisfy `f`. */
  ghost predicate Lists(s: seq<Member>, t: Table, f: Member -> bool) {
    && (forall i, j :: 0 <= i < j < |s| ==> s[i].id != s[j].id)
    && (forall i :: 0 <= i < |s| ==> s[i].id in t && t[s[i].id] == s[i] && f(s[i]))
    && (forall id :: id in t && f(t[id]) ==> t[id] in s)
  }

  /** `ids` holds every element of `s` exactly once. */
  ghost predicate IsShuffle(ids: seq<NodeId>, s: set<NodeId>) {
    && (forall i, j :: 0 <= i < j < |ids| ==> ids[i] != ids[j])
    && (forall id :: id in ids <==> id in s)
  }

  class MemberTable {
    var members: Table

    constructor ()
      ensures members == map[]
    {
      members := map[];
    }

    method Merge(rumor: WireMember, me: NodeId, now: Time) returns (outcome: MergeOutcome)
      modifies this
      ensures members == MergeTable(old(members), rumor, me, now)
      ensures outcome == OutcomeOf(old(members), rumor, me)
      ensures outcome == Ignored || outcome.Refute? ==> members == old(members)
      ensures outcome == Added ==> rumor.id !in old(members) && members == old(members)[rumor.id := FromWire(rumor, now)]
      ensures outcome == Updated ==> rumor.id in old(members) && MemberKey(old(members)[rumor.id]) < RumorKey(rumor)
    {
      if rumor.id == me {
        match rumor.state {
          case Alive => return Ignored;
          case Suspect => return Refute(rumor.incarnation);
          case Dead => return Refute(rumor.incarnation);
        }
      }
      if rumor.id !in members {
        if rumor.addr.ip.IsUnspecified() {
          return Ignored;
        }
        if rumor.state == WireState.Dead {
          return Ignored;
        }
        members := members[rumor.id := FromWire(rumor, now)];
        return Added;
      }
      var member := members[rumor.id];
      if Supersedes(rumor, member) {
        member := member.(incarnation := rumor.incarnation);
        member := member.(state := FromWireState(rumor.state, now));
        member := member.(ready := rumor.ready);
        member := member.(tags := rumor.tags);
        members := members[rumor.id := member];
        return Updated;
      }
      assert members == members[rumor.id := member];
      return Ignored;
    }

    method Remove(ids: seq<NodeId>)
      modifies this
      ensures members == old(members) - (set id | id in ids)
    {
      for i := 0 to |ids|
        invariant members == old(members) - (set id | id in ids[..i])
      {
        members := members - {ids[i]};
        assert ids[..i + 1] == ids[..i] + [ids[i]];
      }
      assert ids[..|ids|] == ids;
    }

    /** The listing order is arbitrary, as a hash map's is. */
    method MembersWhere(f: Member -> bool) returns (s: seq<Member>)
      requires WellFormed(members)
      ensures Lists(s, members, f)
    {
      s := [];
      var left := members.Keys;
      while left != {}
        invariant left <= members.Keys
        invariant Lists(s, members - left, f)
        decreases left
      {
        var id :| id in left;
        ghost var before, rest := s, left;
        if f(members[id]) {
          s := s + [members[id]];
          assert members[id] == s[|before|];
        }
        left := left - {id};
        forall x | x in members - left && f(members[x]) ensures members[x] in s {
          if x != id { assert x in members - rest && (members - rest)[x] == members[x]; }
        }
      }
      assert members - {} == members;
    }

    method Snapshot() returns (s: seq<Member>)
      requires WellFormed(members)
      ensures Lists(s, members, (m: Member) => true)
    {
      s := MembersWhere((m: Member) => true);
    }

    /** Every id once, in arbitrary order: one pass of the probe rotation. */
    method ShuffledIds() returns (ids: seq<NodeId>)
      ensures IsShuffle(ids, members.Keys)
    {
      ids := [];
      var left := members.Keys;
      while left != {}
        invariant left <= members.Keys
        invariant IsShuffle(ids, members.Keys - left)
        decreases left
      {
        var id :| id in left;
        ids := ids + [id];
        left := left - {id};
      }
    }

    method Ready() returns (s: seq<Member>)
      requires WellFormed(members)
      ensures Lists(s, members, IsReady)
    {
      s := MembersWhere(IsReady);
    }

    /** Up to `count` members that are not dead and not `exclude`. The listing is
        already in arbitrary order, so keeping its head is the random pick. */
    method RelayCandidates(exclude: NodeId, count: nat) returns (s: seq<Member>)
      requires WellFormed(members)
      ensures |s| <= count
      ensures forall i, j :: 0 <= i < j < |s| ==> s[i].id != s[j].id
      ensures forall m :: m in s ==> m.id in members && members[m.id] == m && m.id != exclude && !m.state.Dead?
      ensures |s| < count ==> forall id :: id in members && id != exclude && !members[id].state.Dead? ==> members[id] in s
    {
      s := MembersWhere((m: Member) => m.id != exclude && !m.state.Dead?);
      if |s| > count {
        s := s[..count];
      }
    }
  }

  predicate IsReady(m: Member) { m.state.Alive? && m.ready }

  // ---- Folding many rumors into one entry -------------------------------------

  /** A rumor about the member at hand and the moment it is merged. */
  datatype News = News(rumor: WireMember, at: Time)

  function FoldEntry(e: Option<Member>, news: seq<News>): Option<Member>
    decreases |news|
  {
    if news == [] then e
    else FoldEntry(MergeEntry(e, news[0].rumor, news[0].at), news[1..])
  }

  lemma {:induction false} FoldAppend(e: Option<Member>, a: seq<News>, b: seq<News>)
    ensures FoldEntry(e, a + b) == FoldEntry(FoldEntry(e, a), b)
    decreases |a|
  {
    if a == [] {
      assert a + b == b;
    } else {
      assert (a + b)[1..] == a[1..] + b;
      FoldAppend(MergeEntry(e, a[0].rumor, a[0].at), a[1..], b);
    }
  }

  /** News item `k` outranks the entry `m` and everything heard before it, and is
      outranked by nothing heard later. */
  ghost predicate FirstToWin(m: Member, news: seq<News>, k: int) {
    && 0 <= k < |news|
    && MemberKey(m) < RumorKey(news[k].rumor)
    && (forall i :: 0 <= i < k ==> RumorKey(news[i].rumor) < RumorKey(news[k].rumor))
    && (forall i :: k <= i < |news| ==> RumorKey(news[i].rumor) <= RumorKey(news[k].rumor))
  }

  ghost predicate NothingOutranks(m: Member, news: seq<News>) {
    forall i :: 0 <= i < |news| ==> RumorKey(news[i].rumor) <= MemberKey(m)
  }

  /** A held entry ends as the highest-ranked thing anybody said: untouched, clock
      and all, when nothing outranks it, and otherwise a copy of the first rumor
      at the top rank, at that rumor's time and under the first-learned address. */
  lemma {:induction false} FoldHeldIsMaximum(m: Member, news: seq<News>)
    ensures NothingOutranks(m, news) ==> FoldEntry(Some(m), news) == Some(m)
    ensures forall k :: FirstToWin(m, news, k) ==>
      FoldEntry(Some(m), news) == Some(Overwrite(m, news[k].rumor, news[k].at))
    ensures !NothingOutranks(m, news) ==> exists k :: FirstToWin(m, news, k)
    decreases |news|
  {
    if news != [] {
      var r, rest := news[0].rumor, news[1..];
      var m' := MergeEntry(Some(m), r, news[0].at).value;
      FoldHeldIsMaximum(m', rest);
      assert MemberKey(m') == if RumorKey(r) > MemberKey(m) then RumorKey(r) else MemberKey(m);
      assert forall i :: 0 <= i < |rest| ==> rest[i] == news[i + 1];
      if NothingOutranks(m', rest) {
        forall i | 0 <= i < |news| ensures RumorKey(news[i].rumor) <= MemberKey(m') {
          if i > 0 { assert news[i] == rest[i - 1]; }
        }
        if Supersedes(r, m) {
          assert FirstToWin(m, news, 0);
        }
      } else {
        var j :| FirstToWin(m', rest, j);
        assert FirstToWin(m, news, j + 1) by {
          forall i | 0 <= i < |news| ensures i < j + 1 ==> RumorKey(news[i].rumor) < RumorKey(news[j + 1].rumor)
            ensures i >= j + 1 ==> RumorKey(news[i].rumor) <= RumorKey(news[j + 1].rumor) {
            if i > 0 { assert news[i] == rest[i - 1]; }
          }
        }
      }
      forall k | FirstToWin(m, news, k)
        ensures FoldEntry(Some(m), news) == Some(Overwrite(m, news[k].rumor, news[k].at))
      {
        if k == 0 {
          assert NothingOutranks(m', rest);
        } else {
          assert RumorKey(news[0].rumor) < RumorKey(news[k].rumor);
          assert FirstToWin(m', rest, k - 1);
        }
      }
    }
  }

  /** No rumor moves a member: whatever addresses the rumors carry, an entry keeps the
      id and address it was opened with, and is never removed by news. */
  lemma {:induction false} AddressStaysAsFirstLearned(m: Member, news: seq<News>)
    ensures FoldEntry(Some(m), news).Some?
    ensures FoldEntry(Some(m), news).value.addr == m.addr && FoldEntry(Some(m), news).value.id == m.id
    decreases |news|
  {
    if news != [] {
      AddressStaysAsFirstLearned(MergeEntry(Some(m), news[0].rumor, news[0].at).value, news[1..]);
    }
  }

  /** The first rumor able to open an entry, or the length when there is none. */
  function FirstCreator(news: seq<News>): (k: nat)
    ensures k <= |news|
    ensures k < |news| ==> Creates(news[k].rumor)
    ensures forall i :: 0 <= i < k ==> !Creates(news[i].rumor)
  {
    if news == [] then 0 else if Creates(news[0].rumor) then 0 else 1 + FirstCreator(news[1..])
  }

  /** A member not held stays unknown until the first rumor that can open an
      entry; from there on the fold is the fold of a held entry. */
  lemma {:induction false} FoldVacantStartsAtFirstCreator(news: seq<News>)
    ensures var k := FirstCreator(news);
            FoldEntry(None, news) ==
              if k == |news| then None
              else FoldEntry(Some(FromWire(news[k].rumor, news[k].at)), news[k + 1..])
    decreases |news|
  {
    if news != [] && !Creates(news[0].rumor) {
      FoldVacantStartsAtFirstCreator(news[1..]);
      var k := FirstCreator(news[1..]);
      if k < |news[1..]| {
        assert news[1..][k + 1..] == news[k + 2..];
      }
    }
  }

  // ---- When the order of rumors does not matter -------------------------------

  function RumorsIn(news: seq<News>): set<WireMember> {
    set i | 0 <= i < |news| :: news[i].rumor
  }

  /** Records about one member: one address, and one readiness and tag list per
      incarnation. `RecordCoherence` in ClusterInvariants shows that the cluster
      only ever holds such records. */
  ghost predicate Coherent(rumors: set<WireMember>) {
    forall a, b :: a in rumors && b in rumors ==>
      && a.id == b.id && a.addr == b.addr
      && (a.incarnation == b.incarnation ==> a.ready == b.ready && a.tags == b.tags)
  }

  /** A belief without its private clock. */
  function Belief(e: Option<Member>): Option<WireMember> {
    match e
    case None => None
    case Some(m) => Some(ToWire(m))
  }

  ghost predicate IsMaximum(r: WireMember, rumors: set<WireMember>) {
    r in rumors && forall x :: x in rumors ==> RumorKey(x) <= RumorKey(r)
  }

  lemma InRumors(news: seq<News>, i: nat)
    requires i < |news|
    ensures news[i].rumor in RumorsIn(news)
  {
  }

  lemma MaximumIsUnique(a: WireMember, b: WireMember, rumors: set<WireMember>)
    requires Coherent(rumors) && IsMaximum(a, rumors) && IsMaximum(b, rumors)
    ensures a == b
  {
    assert RumorKey(a) == RumorKey(b);
  }

  /** The belief a held entry ends in is one of the records involved, and none of
      them outranks it. */
  lemma FoldHeldAmongRumors(m: Member, news: seq<News>) returns (top: WireMember)
    requires Coherent(RumorsIn(news) + {ToWire(m)})
    ensures Belief(FoldEntry(Some(m), news)) == Some(top)
    ensures IsMaximum(top, RumorsIn(news) + {ToWire(m)})
  {
    var all := RumorsIn(news) + {ToWire(m)};
    if NothingOutranks(m, news) {
      top := ToWire(m);
      assert FoldEntry(Some(m), news) == Some(m) by { FoldHeldIsMaximum(m, news); }
    } else {
      var k := FoldHeldWinner(m, news);
      top := news[k].rumor;
      InRumors(news, k);
      assert ToWire(m) in all;
    }
  }

  lemma FoldHeldWinner(m: Member, news: seq<News>) returns (k: nat)
    requires !NothingOutranks(m, news)
    ensures FirstToWin(m, news, k)
    ensures FoldEntry(Some(m), news) == Some(Overwrite(m, news[k].rumor, news[k].at))
  {
    FoldHeldIsMaximum(m, news);
    k :| FirstToWin(m, news, k);
  }

  /** Whatever the order and however often each rumor is repeated, a held entry
      ends as the one highest-ranked record among itself and the rumors. */
  lemma {:induction false} MergeIsOrderIndependentWhenHeld(m: Member, news: seq<News>, r: WireMember)
    requires Coherent(RumorsIn(news) + {ToWire(m)})
    ensures Belief(FoldEntry(Some(m), news)) == Some(r) <==> IsMaximum(r, RumorsIn(news) + {ToWire(m)})
  {
    var top := FoldHeldAmongRumors(m, news);
    if IsMaximum(r, RumorsIn(news) + {ToWire(m)}) {
      MaximumIsUnique(r, top, RumorsIn(news) + {ToWire(m)});
    }
  }

  /** A rumor that cannot open an entry and outranks every rumor that can. */
  ghost predicate OutranksEveryCreator(d: WireMember, rumors: set<WireMember>) {
    d in rumors && !Creates(d) && forall c :: c in rumors && Creates(c) ==> RumorKey(c) < RumorKey(d)
  }

  /** Two rearrangements of the same news leave different beliefs. */
  ghost predicate OrderMatters(news: seq<News>) {
    exists a: seq<News>, b: seq<News> :: multiset(a) == multiset(b) == multiset(news)
      && Belief(FoldEntry(None, a)) != Belief(FoldEntry(None, b))
  }

  /** No rearrangement and no repetition of the same rumors makes a difference. */
  ghost predicate OnlyRumorsMatter(news: seq<News>) {
    forall a: seq<News>, b: seq<News> :: RumorsIn(a) == RumorsIn(b) == RumorsIn(news) ==>
      Belief(FoldEntry(None, a)) == Belief(FoldEntry(None, b))
  }

  function Those(news: seq<News>, creators: bool): seq<News> {
    if news == [] then []
    else (if Creates(news[0].rumor) == creators then [news[0]] else []) + Those(news[1..], creators)
  }

  lemma {:induction false} ThoseHas(news: seq<News>, creators: bool)
    ensures forall x :: x in Those(news, creators) <==> x in news && Creates(x.rumor) == creators
    decreases |news|
  {
    if news != [] {
      ThoseHas(news[1..], creators);
      assert news == [news[0]] + news[1..];
    }
  }

  lemma ElementInRumors(news: seq<News>, x: News)
    requires x in news
    ensures x.rumor in RumorsIn(news)
  {
    var i :| 0 <= i < |news| && news[i] == x;
    InRumors(news, i);
  }

  lemma SameRumors(news: seq<News>, other: seq<News>)
    requires forall x :: x in news <==> x in other
    ensures RumorsIn(news) == RumorsIn(other)
  {
    forall i | 0 <= i < |news| ensures news[i].rumor in RumorsIn(other) { ElementInRumors(other, news[i]); }
    forall i | 0 <= i < |other| ensures other[i].rumor in RumorsIn(news) { ElementInRumors(news, other[i]); }
  }

  lemma SameRumorsWhenRearranged(news: seq<News>, other: seq<News>)
    requires multiset(news) == multiset(other)
    ensures RumorsIn(news) == RumorsIn(other)
  {
    forall x ensures x in news <==> x in other {
      assert x in news <==> x in multiset(news);
    }
    SameRumors(news, other);
  }

  lemma {:induction false} ThosePartition(news: seq<News>)
    ensures multiset(Those(news, true)) + multiset(Those(news, false)) == multiset(news)
    decreases |news|
  {
    if news != [] {
      var rest := news[1..];
      ThosePartition(rest);
      assert news == [news[0]] + rest;
      if Creates(news[0].rumor) {
        assert Those(news, false) == Those(rest, false);
      } else {
        assert Those(news, true) == Those(rest, true);
      }
    }
  }

  lemma RumorsInDrop(news: seq<News>, k: nat)
    requires k < |news|
    ensures RumorsIn(news[k + 1..]) + {news[k].rumor} == RumorsIn(news[k..]) <= RumorsIn(news)
  {
    forall i | k <= i < |news| ensures news[i].rumor in RumorsIn(news[k..]) && news[i].rumor in RumorsIn(news) {
      InRumors(news[k..], i - k);
      InRumors(news, i);
    }
    forall i | k < i < |news| ensures news[i].rumor in RumorsIn(news[k + 1..]) {
      InRumors(news[k + 1..], i - k - 1);
    }
    assert news[k..] == [news[k]] + news[k + 1..];
  }

  /** A member not held ends as the maximum over the suffix that starts at the
      first rumor able to open an entry. */
  lemma VacantFoldIsSuffixMaximum(news: seq<News>) returns (top: WireMember)
    requires Coherent(RumorsIn(news)) && FirstCreator(news) < |news|
    ensures Belief(FoldEntry(None, news)) == Some(top)
    ensures IsMaximum(top, RumorsIn(news[FirstCreator(news)..]))
    ensures RumorsIn(news[FirstCreator(news)..]) <= RumorsIn(news)
  {
    var k := FirstCreator(news);
    FoldVacantStartsAtFirstCreator(news);
    RumorsInDrop(news, k);
    var m := FromWire(news[k].rumor, news[k].at);
    assert ToWire(m) == news[k].rumor;
    top := FoldHeldAmongRumors(m, news[k + 1..]);
  }

  lemma {:induction false} CreatorIsFound(news: seq<News>, c: WireMember)
    requires c in RumorsIn(news) && Creates(c)
    ensures FirstCreator(news) < |news|
    ensures c in RumorsIn(news[FirstCreator(news)..])
  {
    var k := FirstCreator(news);
    var i :| 0 <= i < |news| && news[i].rumor == c;
    InRumors(news[k..], i - k);
  }

  lemma WithoutObituaryTheMaximumWins(news: seq<News>) returns (top: WireMember)
    requires Coherent(RumorsIn(news)) && FirstCreator(news) < |news|
    requires forall d :: !OutranksEveryCreator(d, RumorsIn(news))
    ensures IsMaximum(top, RumorsIn(news))
    ensures Belief(FoldEntry(None, news)) == Some(top)
  {
    top := VacantFoldIsSuffixMaximum(news);
    forall x | x in RumorsIn(news) ensures RumorKey(x) <= RumorKey(top) {
      if Creates(x) {
        CreatorIsFound(news, x);
      } else {
        assert !OutranksEveryCreator(x, RumorsIn(news));
        var c :| c in RumorsIn(news) && Creates(c) && RumorKey(x) <= RumorKey(c);
        CreatorIsFound(news, c);
      }
    }
  }

  lemma {:induction false} TheRestOpensNothing(news: seq<News>)
    ensures FoldEntry(None, Those(news, false)) == None
  {
    ThoseHas(news, false);
    FoldVacantStartsAtFirstCreator(Those(news, false));
  }

  /** Every creator put after everything else leaves only the creators' maximum. */
  lemma CreatorsLast(news: seq<News>) returns (late: seq<News>, top: WireMember)
    requires Coherent(RumorsIn(news)) && FirstCreator(news) < |news|
    ensures multiset(late) == multiset(news)
    ensures Belief(FoldEntry(None, late)) == Some(top)
    ensures top in RumorsIn(news) && Creates(top)
  {
    var no, yes := Those(news, false), Those(news, true);
    late := no + yes;
    ThosePartition(news);
    ThoseHas(news, true);
    FoldAppend(None, no, yes);
    TheRestOpensNothing(news);
    assert news[FirstCreator(news)] in yes;
    forall x | x in RumorsIn(yes) ensures x in RumorsIn(news) && Creates(x) {
      var i :| 0 <= i < |yes| && yes[i].rumor == x;
      ElementInRumors(news, yes[i]);
    }
    top := VacantFoldIsSuffixMaximum(yes);
  }

  /** Every creator put before everything else lets the overall maximum win. */
  lemma CreatorsFirst(news: seq<News>) returns (early: seq<News>, top: WireMember)
    requires Coherent(RumorsIn(news)) && FirstCreator(news) < |news|
    ensures multiset(early) == multiset(news)
    ensures Belief(FoldEntry(None, early)) == Some(top)
    ensures IsMaximum(top, RumorsIn(news))
  {
    var yes := Those(news, true);
    early := yes + Those(news, false);
    ThosePartition(news);
    ThoseHas(news, true);
    SameRumorsWhenRearranged(early, news);
    assert news[FirstCreator(news)] in yes;
    assert early[0] == yes[0] && Creates(early[0].rumor);
    assert early[0..] == early;
    top := VacantFoldIsSuffixMaximum(early);
  }

  lemma {:induction false} NoCreatorNoEntry(news: seq<News>)
    requires forall x :: x in RumorsIn(news) ==> !Creates(x)
    ensures FoldEntry(None, news) == None
  {
    if FirstCreator(news) < |news| {
      InRumors(news, FirstCreator(news));
    }
    FoldVacantStartsAtFirstCreator(news);
  }

  /** For a member this node does not hold, the order of the rumors alone matters
      exactly when some of them can open an entry and yet all of those are
      outranked by one that cannot, which is then remembered or dropped
      depending on when it arrives. Otherwise not even repeating them matters. */
  lemma OrderMattersExactlyWhenAnObituaryOutranks(news: seq<News>)
    requires Coherent(RumorsIn(news))
    ensures OrderMatters(news) <==>
      && (exists c :: c in RumorsIn(news) && Creates(c))
      && (exists d :: OutranksEveryCreator(d, RumorsIn(news)))
    ensures OrderMatters(news) <==> !OnlyRumorsMatter(news)
  {
    var all := RumorsIn(news);
    if c, d :| c in all && Creates(c) && OutranksEveryCreator(d, all) {
      CreatorIsFound(news, c);
      var late, low := CreatorsLast(news);
      var early, high := CreatorsFirst(news);
      assert RumorKey(low) < RumorKey(d) <= RumorKey(high);
      assert multiset(late) == multiset(early) == multiset(news);
      SameRumorsWhenRearranged(late, news);
      SameRumorsWhenRearranged(early, news);
    } else {
      WithoutObituaryOnlyRumorsMatter(news);
      forall a: seq<News>, b: seq<News> | multiset(a) == multiset(b) == multiset(news)
        ensures Belief(FoldEntry(None, a)) == Belief(FoldEntry(None, b))
      {
        SameRumorsWhenRearranged(a, news);
        SameRumorsWhenRearranged(b, news);
      }
    }
  }

  lemma WithoutObituaryOnlyRumorsMatter(news: seq<News>)
    requires Coherent(RumorsIn(news))
    requires forall c, d :: c in RumorsIn(news) && Creates(c) ==> !OutranksEveryCreator(d, RumorsIn(news))
    ensures OnlyRumorsMatter(news)
  {
    var all := RumorsIn(news);
    forall a: seq<News>, b: seq<News> | RumorsIn(a) == RumorsIn(b) == all
      ensures Belief(FoldEntry(None, a)) == Belief(FoldEntry(None, b))
    {
      if c :| c in all && Creates(c) {
        CreatorIsFound(a, c);
        CreatorIsFound(b, c);
        var x := WithoutObituaryTheMaximumWins(a);
        var y := WithoutObituaryTheMaximumWins(b);
        MaximumIsUnique(x, y, all);
      } else {
        NoCreatorNoEntry(a);
        NoCreatorNoEntry(b);
      }
    }
  }

  /** The smallest such case: an unknown member, its birth and its death. */
  lemma DeadThenAliveDiffersFromAliveThenDead(born: WireMember, at: Time)
    requires Creates(born) && born.state == WireState.Alive
    ensures var gone := born.(state := WireState.Dead);
            && FoldEntry(None, [News(gone, at), News(born, at)]) == Some(FromWire(born, at))
            && FoldEntry(None, [News(born, at), News(gone, at)]) == Some(FromWire(gone, at))
  {
    var gone := born.(state := WireState.Dead);
    var b, g := News(born, at), News(gone, at);
    assert [g, b][1..] == [b] && [b, g][1..] == [g];
    assert FoldEntry(None, [g, b]) == FoldEntry(None, [b]) == FoldEntry(Some(FromWire(born, at)), []);
    assert FoldEntry(Some(FromWire(gone, at)), [g][1..]) == Some(FromWire(gone, at));
    assert FoldEntry(None, [b, g]) == FoldEntry(Some(FromWire(born, at)), [g]);
  }

  // ---- The whole table --------------------------------------------------------

  function FoldTable(t: Table, news: seq<News>, me: NodeId): Table
    decreases |news|
  {
    if news == [] then t else FoldTable(MergeTable(t, news[0].rumor, me, news[0].at), news[1..], me)
  }

  function About(news: seq<News>, id: NodeId): seq<News> {
    if news == [] then []
    else (if news[0].rumor.id == id then [news[0]] else []) + About(news[1..], id)
  }

  /** Entries never interfere: each one sees only the rumors about its own member. */
  lemma {:induction false} FoldTableIsPointwise(t: Table, news: seq<News>, me: NodeId, id: NodeId)
    ensures Lookup(FoldTable(t, news, me), id) == if id == me then Lookup(t, id) else FoldEntry(Lookup(t, id), About(news, id))
    decreases |news|
  {
    if news != [] {
      var r := news[0].rumor;
      FoldTableIsPointwise(MergeTable(t, r, me, news[0].at), news[1..], me, id);
      if r.id == id {
        var about := About(news, id);
        assert about == [news[0]] + About(news[1..], id);
        assert about[0] == news[0] && about[1..] == About(news[1..], id);
        assert FoldEntry(Lookup(t, id), about) == FoldEntry(MergeEntry(Lookup(t, id), r, news[0].at), about[1..]);
      } else {
        assert About(news, id) == About(news[1..], id);
      }
    }
  }

  // ---- Answering a suspicion --------------------------------------------------

  /** An alive rumor above `r` lands in every table: whatever the entry was, even
      none, the table then holds the member above `r`, and from there no run of
      rumors that are all at or below `r` changes that entry. */
  lemma {:induction false} RefutationTakesHold(e: Option<Member>, alive: WireMember, at: Time, r: Incarnation, later: seq<News>)
    requires alive.state == WireState.Alive && !alive.addr.ip.IsUnspecified() && alive.incarnation > r
    requires forall i :: 0 <= i < |later| ==> later[i].rumor.incarnation <= r
    ensures MergeEntry(e, alive, at).Some?
    ensures MergeEntry(e, alive, at).value.incarnation > r
    ensures FoldEntry(MergeEntry(e, alive, at), later) == MergeEntry(e, alive, at)
  {
    var m := MergeEntry(e, alive, at).value;
    assert NothingOutranks(m, later);
    FoldHeldIsMaximum(m, later);
  }
}
