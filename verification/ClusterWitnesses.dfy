/** Runs that reach the largest incarnation, where alone records can contradict
    each other, and a run in which a member comes, leaves and is forgotten. */
module ClusterWitnesses {
  import opened Types
  import opened LocalNodes
  import opened Cluster
  import opened ClusterInvariants
  import opened ClusterTheorems
  import opened ClusterRefinement
  import opened Dissemination
  import opened GossipQueues
  import opened MemberTables
  import Reaping

  lemma Extend(cs: seq<Cluster>, steps: seq<Step>, s: Step) returns (cs': seq<Cluster>, steps': seq<Step>)
    requires IsRun(cs, steps) && Enabled(cs[|steps|], s)
    ensures IsRun(cs', steps') && |steps'| == |steps| + 1
    ensures cs'[|steps'|] == Next(cs[|steps|], s) && cs <= cs'
  {
    cs', steps' := cs + [Next(cs[|steps|], s)], steps + [s];
    forall k | 0 <= k < |steps'| ensures StepAt(cs', steps', k) {
      if k < |steps| {
        assert StepAt(cs, steps, k);
      }
    }
  }

  /** A cluster of one running process, at incarnation `n`, that is not leaving. */
  ghost predicate AloneAt(c: Cluster, n: Incarnation) {
    && |c.procs| == 1 && c.procs[0].up
    && c.procs[0].local.id == 0 && !c.procs[0].local.leaving && c.procs[0].local.incarnation == n
  }

  lemma FlipAlone(cs: seq<Cluster>, steps: seq<Step>, n: Incarnation) returns (cs': seq<Cluster>, steps': seq<Step>)
    requires IsRun(cs, steps) && AloneAt(cs[|steps|], n)
    ensures IsRun(cs', steps') && AloneAt(cs'[|steps'|], Superseding(n))
    ensures var q, q' := cs[|steps|].procs[0], cs'[|steps'|].procs[0];
            q'.local == q.local.SetReady(!q.local.ready) && q'.local.ready != q.local.ready && q.work <= q'.work
  {
    cs', steps' := Extend(cs, steps, Act(0, Flip(!cs[|steps|].procs[0].local.ready)));
  }

  lemma IntroduceAlone(cs: seq<Cluster>, steps: seq<Step>, n: Incarnation) returns (cs': seq<Cluster>, steps': seq<Step>)
    requires IsRun(cs, steps) && AloneAt(cs[|steps|], n)
    ensures IsRun(cs', steps') && AloneAt(cs'[|steps'|], n)
    ensures var q, q' := cs[|steps|].procs[0], cs'[|steps'|].procs[0];
            q'.local == q.local && Introduced(q.local.Identity()) in q'.work && q.work <= q'.work
  {
    cs', steps' := Extend(cs, steps, Act(0, Introduce));
  }

  /** A node reaches every incarnation by changing its readiness that many times. */
  lemma {:induction false} FlipsReach(addr: Addr, tags: Tags, n: Incarnation) returns (cs: seq<Cluster>, steps: seq<Step>)
    requires !addr.ip.IsUnspecified() && CheckTags(tags)
    ensures IsRun(cs, steps) && AloneAt(cs[|steps|], n)
    decreases n
  {
    if n == 0 {
      cs, steps := [EMPTY], [];
      assert IsRun(cs, steps);
      cs, steps := Extend(cs, steps, Start(addr, tags));
    } else {
      cs, steps := FlipsReach(addr, tags, n - 1);
      cs, steps := FlipAlone(cs, steps, n - 1);
    }
  }

  lemma IntroducedIsRecord(c: Cluster, from: WireIdentity)
    requires |c.procs| == 1 && Introduced(from) in c.procs[0].work
    ensures IsRecord(c, IntoMember(from))
  {
    assert IntoMember(from) in WorkRecords(Introduced(from));
    assert ProcHas(c.procs[0], IntoMember(from));
  }

  /** At the largest incarnation a node introduces itself, flips, and introduces itself
      again: two records at one incarnation that contradict each other. */
  lemma FlipAtMaxContradicts(addr: Addr, tags: Tags) returns (cs: seq<Cluster>, steps: seq<Step>, a: WireMember, b: WireMember)
    requires !addr.ip.IsUnspecified() && CheckTags(tags)
    ensures IsRun(cs, steps) && IsRecord(cs[|steps|], a) && IsRecord(cs[|steps|], b)
    ensures a.id == b.id && a.incarnation == b.incarnation == MAX_INCARNATION && a.ready != b.ready
  {
    cs, steps := FlipsReach(addr, tags, MAX_INCARNATION);
    cs, steps := IntroduceAlone(cs, steps, MAX_INCARNATION);
    var before := cs[|steps|].procs[0].local;
    cs, steps := FlipAlone(cs, steps, MAX_INCARNATION);
    var after := cs[|steps|].procs[0].local;
    cs, steps := IntroduceAlone(cs, steps, MAX_INCARNATION);
    IntroducedIsRecord(cs[|steps|], before.Identity());
    IntroducedIsRecord(cs[|steps|], after.Identity());
    a, b := IntoMember(before.Identity()), IntoMember(after.Identity());
  }

  /** Some run ends with two records about one member, both at incarnation `n`, that
      disagree on its readiness. */
  ghost predicate CanContradict(n: Incarnation) {
    exists cs, steps, a, b ::
      && IsRun(cs, steps) && IsRecord(cs[|steps|], a) && IsRecord(cs[|steps|], b)
      && a.id == b.id && a.incarnation == b.incarnation == n && a.ready != b.ready
  }

  /** Two rumors at one incarnation can disagree at the largest one and at no other. */
  lemma RecordsContradictExactlyAtMax(n: Incarnation)
    ensures CanContradict(n) <==> n == MAX_INCARNATION
  {
    if n == MAX_INCARNATION {
      var cs, steps, a, b := FlipAtMaxContradicts(Addr(V4(1), 1), []);
    } else if CanContradict(n) {
      var cs, steps, a, b :|
        && IsRun(cs, steps) && IsRecord(cs[|steps|], a) && IsRecord(cs[|steps|], b)
        && a.id == b.id && a.incarnation == b.incarnation == n && a.ready != b.ready;
      RecordCoherence(cs, steps, |steps|, |steps|, a, b);
      assert false;
    }
  }

  // ---- Joining, leaving and being forgotten -------------------------------------------

  lemma Run(cs: seq<Cluster>, steps: seq<Step>, p: nat, acts: seq<Action>, a: Agent, work: multiset<Work>, sent: set<Message>) returns (cs': seq<Cluster>, steps': seq<Step>)
    requires IsRun(cs, steps) && Ran(cs[|steps|], p, acts, a, work, sent)
    ensures IsRun(cs', steps') && cs <= cs' && |steps'| >= |steps|
    ensures Moved(cs[|steps|], cs'[|steps'|], p, a, work, sent)
  {
    cs', steps' := TaskExtendsRun(cs, steps, p, acts);
  }

  /** What the second of two processes believes once the first has introduced itself. */
  function Met(first: Local, second: Local): Agent {
    ApplyTo(Agent(second, map[], []), first.AliveRumor(), 0)
  }

  /** The first of two processes has joined at the second. */
  lemma TwoMeet(a: Addr, b: Addr) returns (cs: seq<Cluster>, steps: seq<Step>)
    requires !a.ip.IsUnspecified() && !b.ip.IsUnspecified()
    ensures IsRun(cs, steps)
    ensures var c, l, m := cs[|steps|], Local.New(0, a, []), Local.New(1, b, []);
            && |c.procs| == 2 && c.now == 0 && c.net == {Tcp(JoinRequest(l.Identity()))}
            && c.procs[0].up && c.procs[0].local == l
            && c.procs[1].up && c.procs[1].work == multiset{} && AgentAt(c, 1) == Met(l, m)
  {
    var l, m := Local.New(0, a, []), Local.New(1, b, []);
    var join := Tcp(JoinRequest(l.Identity()));
    cs, steps := [EMPTY], [];
    assert IsRun(cs, steps);
    cs, steps := Extend(cs, steps, Start(a, []));
    cs, steps := Extend(cs, steps, Start(b, []));
    var acts, work := JoinRuns(cs[|steps|], 0);
    cs, steps := Run(cs, steps, 0, acts, Agent(l, map[], []), work, {join});
    assert {} + {join} == {join};
    acts := ReceivedMessageIsHandled(cs[|steps|], 1, join);
    assert Handled(Agent(m, map[], []), join, 0) == Met(l, m);
    cs, steps := Run(cs, steps, 1, acts, Met(l, m), multiset{}, {});
    assert {join} + {} == {join};
  }

  /** What the second believes once the first has left. */
  function Bereft(first: Local, second: Local): Agent {
    ApplyTo(Met(first, second), first.AliveRumor().(state := WireState.Dead), 0)
  }

  lemma BereftIs(l: Local, m: Local)
    requires l.id != m.id && !l.addr.ip.IsUnspecified()
    ensures var a := Bereft(l, m);
            && a.local == m && a.table.Keys == {l.id} && a.table[l.id].state == MemberState.Dead(0)
            && forall p :: p in a.queue ==> p.rumor == l.AliveRumor().(state := WireState.Dead)
  {
    var alive, dead := l.AliveRumor(), l.AliveRumor().(state := WireState.Dead);
    var empty, met := Agent(m, map[], []), Met(l, m);
    MergeDoesWhatItSays(empty.table, alive, m.id, 0);
    assert met.table == map[l.id := FromWire(alive, 0)];
    MergeDoesWhatItSays(met.table, dead, m.id, 0);
    ApplyTellsWhatItLearned(empty, alive, 0);
    ApplyTellsWhatItLearned(met, dead, 0);
    assert Bereft(l, m).table[l.id] != met.table[l.id];
    forall p | p in Bereft(l, m).queue ensures p.rumor == dead {
      assert p.rumor.id != l.id ==> p in met.queue && p in empty.queue;
    }
  }

  /** The first has left and stopped, and only the news of its death remains. */
  lemma OneLeaves(a: Addr, b: Addr) returns (cs: seq<Cluster>, steps: seq<Step>)
    requires !a.ip.IsUnspecified() && !b.ip.IsUnspecified()
    ensures IsRun(cs, steps)
    ensures var c, l, m := cs[|steps|], Local.New(0, a, []), Local.New(1, b, []);
            && |c.procs| == 2 && c.now == 0 && c.net == {Udp(Leave(l.Identity()))}
            && !c.procs[0].up && c.procs[0].table == map[] && c.procs[0].queue == [] && c.procs[0].work == multiset{}
            && c.procs[1].up && c.procs[1].work == multiset{} && AgentAt(c, 1) == Bereft(l, m)
  {
    var l, m := Local.New(0, a, []), Local.New(1, b, []);
    var join, leave := Tcp(JoinRequest(l.Identity())), Udp(Leave(l.Identity()));
    cs, steps := TwoMeet(a, b);
    var acts := LeaveRuns(cs[|steps|], 0);
    var l0 := AgentAt(cs[|steps|], 0);
    cs, steps := Run(cs, steps, 0, acts, l0.(local := l.(leaving := true)), cs[|steps|].procs[0].work, {leave});
    assert {join} + {leave} == {join, leave};
    acts := ReceivedMessageIsHandled(cs[|steps|], 1, leave);
    assert Handled(Met(l, m), leave, 0) == Bereft(l, m);
    cs, steps := Run(cs, steps, 1, acts, Bereft(l, m), multiset{}, {});
    cs, steps := Extend(cs, steps, Act(0, Stop));
    cs, steps := Extend(cs, steps, Lose(join));
    assert cs[|steps|].net == {leave};
  }

  lemma OnlyObituaries(c: Cluster, l: Local, m: Local)
    requires |c.procs| == 2 && c.net == {Udp(Leave(l.Identity()))} && l.id == 0 && m.id == 1 && !l.addr.ip.IsUnspecified()
    requires !c.procs[0].up && c.procs[0].table == map[] && c.procs[0].queue == [] && c.procs[0].work == multiset{}
    requires c.procs[1].work == multiset{} && AgentAt(c, 1) == Bereft(l, m)
    ensures Reaping.OnlyObituariesLeft(c, 0) && Reaping.Holders(c, 0) == {1}
  {
    NothingIn(c.procs[0], Reaping.ObituariesOf(0));
    OnlyObituariesIn(c.procs[1], l, m);
    LeaveIsObituary(c.net, l);
    OneHolder(c);
  }

  lemma NothingIn(q: Proc, P: WireMember -> bool)
    requires q.table == map[] && q.queue == [] && q.work == multiset{}
    ensures ProcHolds(q, P)
  {
  }

  lemma LeaveIsObituary(net: set<Message>, l: Local)
    requires net == {Udp(Leave(l.Identity()))}
    ensures NetHolds(net, Reaping.ObituariesOf(0))
  {
  }

  lemma OneHolder(c: Cluster)
    requires |c.procs| == 2 && c.procs[0].table == map[] && c.procs[1].table.Keys == {0}
    ensures Reaping.Holders(c, 0) == {1}
  {
    assert 0 in c.procs[1].table.Keys;
  }

  lemma OnlyObituariesIn(q: Proc, l: Local, m: Local)
    requires l.id == 0 && m.id == 1 && !l.addr.ip.IsUnspecified()
    requires q.work == multiset{} && Agent(q.local, q.table, q.queue) == Bereft(l, m)
    ensures ProcHolds(q, Reaping.ObituariesOf(0)) && q.table.Keys == {0}
  {
    BereftIs(l, m);
    forall i | 0 <= i < |q.queue| ensures q.queue[i].rumor.state == WireState.Dead {
      assert q.queue[i] in Bereft(l, m).queue;
    }
  }

  /** A member joins, leaves and stops; from then on only obituaries of it are left, one
      table holds it, and thirty seconds later none does. */
  lemma AMemberIsForgotten(a: Addr, b: Addr) returns (cs: seq<Cluster>, steps: seq<Step>, i: nat)
    requires !a.ip.IsUnspecified() && !b.ip.IsUnspecified()
    ensures IsRun(cs, steps) && i < |steps|
    ensures Reaping.OnlyObituariesLeft(cs[i], 0) && Reaping.Holders(cs[i], 0) == {1}
    ensures Reaping.Holders(cs[|steps|], 0) == {} && cs[|steps|].now == cs[i].now + 30_000
  {
    var l, m := Local.New(0, a, []), Local.New(1, b, []);
    cs, steps := OneLeaves(a, b);
    i := |steps|;
    OnlyObituaries(cs[i], l, m);
    BereftIs(l, m);
    ghost var gone := cs[i];
    cs, steps := Extend(cs, steps, Tick(30_000));
    var acts := ReapRuns(cs[|steps|], 1, 0);
    ghost var short := cs;
    var x := AgentAt(cs[|steps|], 1);
    cs, steps := Run(cs, steps, 1, acts, Agent(x.local, x.table - {0}, x.queue), multiset{}, {});
    assert cs[i] == short[i] == gone;
  }
}
