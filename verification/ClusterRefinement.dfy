/** The steps of the cluster, taken without interruption, do what the components do: each
    task of one process can run to its end, and leaves the process as the component's
    own operation would. */
module ClusterRefinement {
  import opened Types
  import opened LocalNodes
  import opened MemberTables
  import opened GossipQueues
  import opened Dissemination
  import opened Cluster
  import opened ClusterInvariants
  import opened ClusterTheorems
  import Detector
  import Sync

  // ---- One process, left to itself ------------------------------------------------------

  /** `acts`, one after the other, by process `p`. */
  function DoAll(c: Cluster, p: nat, acts: seq<Action>): Option<Cluster>
    decreases |acts|
  {
    if acts == [] then Some(c)
    else if !Enabled(c, Act(p, acts[0])) then None
    else DoAll(Next(c, Act(p, acts[0])), p, acts[1..])
  }

  lemma {:induction false} DoAllAppend(c: Cluster, p: nat, a: seq<Action>, b: seq<Action>)
    requires DoAll(c, p, a).Some?
    ensures DoAll(c, p, a + b) == DoAll(DoAll(c, p, a).value, p, b)
    decreases |a|
  {
    if a == [] {
      assert a + b == b;
    } else {
      assert (a + b)[1..] == a[1..] + b;
      DoAllAppend(Next(c, Act(p, a[0])), p, a[1..], b);
    }
  }

  lemma OneMoreStep(cs: seq<Cluster>, steps: seq<Step>, p: nat, acts: seq<Action>) returns (c': Cluster)
    requires IsRun(cs, steps) && acts != [] && DoAll(cs[|steps|], p, acts).Some?
    ensures IsRun(cs + [c'], steps + [Act(p, acts[0])])
    ensures DoAll(c', p, acts[1..]) == DoAll(cs[|steps|], p, acts)
  {
    var s := Act(p, acts[0]);
    c' := Next(cs[|steps|], s);
    forall k | 0 <= k < |steps| + 1 ensures StepAt(cs + [c'], steps + [s], k) {
      if k < |steps| {
        assert StepAt(cs, steps, k);
      }
    }
  }

  function Steps(p: nat, acts: seq<Action>): seq<Step> {
    if acts == [] then [] else [Act(p, acts[0])] + Steps(p, acts[1..])
  }

  /** What such a task reaches, a run reaches. */
  lemma {:induction false} TaskExtendsRun(cs: seq<Cluster>, steps: seq<Step>, p: nat, acts: seq<Action>) returns (cs': seq<Cluster>, steps': seq<Step>)
    requires IsRun(cs, steps) && DoAll(cs[|steps|], p, acts).Some?
    ensures IsRun(cs', steps') && cs <= cs' && steps' == steps + Steps(p, acts)
    ensures DoAll(cs[|steps|], p, acts) == Some(cs'[|steps'|])
    decreases |acts|
  {
    if acts == [] {
      cs', steps' := cs, steps + [];
      assert steps + [] == steps;
    } else {
      var s := Act(p, acts[0]);
      var c' := OneMoreStep(cs, steps, p, acts);
      cs', steps' := TaskExtendsRun(cs + [c'], steps + [s], p, acts[1..]);
      assert cs <= cs + [c'] <= cs';
      assert steps + [s] + Steps(p, acts[1..]) == steps + ([s] + Steps(p, acts[1..]));
    }
  }

  /** Between `c` and `c'`, `p` alone has moved, to the values `a` and the tasks `work`, and
      has sent `sent`. */
  ghost predicate Moved(c: Cluster, c': Cluster, p: nat, a: Agent, work: multiset<Work>, sent: set<Message>) {
    && p < |c.procs| == |c'.procs| && c'.now == c.now && c'.net == c.net + sent
    && c'.procs[p].up && AgentAt(c', p) == a && c'.procs[p].work == work
    && forall j :: 0 <= j < |c.procs| && j != p ==> c'.procs[j] == c.procs[j]
  }

  ghost predicate Ran(c: Cluster, p: nat, acts: seq<Action>, a: Agent, work: multiset<Work>, sent: set<Message>) {
    DoAll(c, p, acts).Some? && Moved(c, DoAll(c, p, acts).value, p, a, work, sent)
  }

  lemma Stay(c: Cluster, p: nat)
    requires p < |c.procs| && c.procs[p].up
    ensures Ran(c, p, [], AgentAt(c, p), c.procs[p].work, {})
  {
  }

  /** A process with these values and tasks, up to its history. */
  function With(a: Agent, work: multiset<Work>): Proc { Proc(a.local, true, a.table, a.queue, work, map[], false) }

  /** The values and the tasks after one more step. */
  function Then(a: Agent, now: Time, act: Action): Agent {
    var q := With(a, multiset{});
    Agent(NextLocal(q, act), NextTable(q, now, act), NextQueue(q, act))
  }

  function ThenWork(a: Agent, work: multiset<Work>, act: Action): multiset<Work>
    requires act.PickTarget? || act.ScanSuspect? ==> act.x in a.table
  {
    work - Consumes(act) + Adds(With(a, work), act)
  }

  /** One more step at the end. */
  lemma ThenOne(c: Cluster, p: nat, acts: seq<Action>, a: Agent, work: multiset<Work>, sent: set<Message>, act: Action)
    requires Ran(c, p, acts, a, work, sent) && !act.Stop? && CanAct(With(a, work), c.net + sent, c.now, act)
    ensures Ran(c, p, acts + [act], Then(a, c.now, act), ThenWork(a, work, act), sent + Sent(With(a, work), act))
  {
    var mid := DoAll(c, p, acts).value;
    var q := mid.procs[p];
    SameButForHistory(q, With(a, work), mid.net, c.now, act);
    DoAllAppend(c, p, acts, [act]);
    assert [act][1..] == [];
    assert DoAll(mid, p, [act]) == Some(Next(mid, Act(p, act)));
  }

  /** No step reads a process's history. */
  lemma SameButForHistory(q: Proc, r: Proc, net: set<Message>, now: Time, act: Action)
    requires q.local == r.local && q.up == r.up && q.table == r.table && q.queue == r.queue && q.work == r.work
    ensures CanAct(q, net, now, act) == CanAct(r, net, now, act)
    ensures NextLocal(q, act) == NextLocal(r, act) && NextTable(q, now, act) == NextTable(r, now, act)
    ensures NextQueue(q, act) == NextQueue(r, act) && Sent(q, act) == Sent(r, act)
    ensures (act.PickTarget? || act.ScanSuspect? ==> act.x in q.table) ==> Adds(q, act) == Adds(r, act)
  {
  }

  // ---- Applying a rumor -----------------------------------------------------------------

  lemma QueueRuns(c: Cluster, p: nat, acts: seq<Action>, a: Agent, work: multiset<Work>, sent: set<Message>, r: WireMember, size: nat) returns (acts': seq<Action>)
    requires Ran(c, p, acts, a, work + multiset{ToQueue(r)}, sent)
    ensures acts <= acts' && Ran(c, p, acts', Agent(a.local, a.table, PushQueue(a.queue, r, size)), work, sent)
  {
    var act := Action.Queue(r, size);
    ThenOne(c, p, acts, a, work + multiset{ToQueue(r)}, sent, act);
    assert ThenWork(a, work + multiset{ToQueue(r)}, act) == work && sent + {} == sent;
    acts' := acts + [act];
  }

  lemma AnnounceRuns(c: Cluster, p: nat, acts: seq<Action>, a: Agent, work: multiset<Work>, sent: set<Message>, size: nat) returns (acts': seq<Action>)
    requires Ran(c, p, acts, a, work + multiset{ToAnnounce}, sent)
    ensures acts <= acts' && Ran(c, p, acts', Agent(a.local, a.table, PushQueue(a.queue, a.local.AliveRumor(), size)), work, sent)
  {
    ThenOne(c, p, acts, a, work + multiset{ToAnnounce}, sent, Announce);
    assert ThenWork(a, work + multiset{ToAnnounce}, Announce) == work + multiset{ToQueue(a.local.AliveRumor())} && sent + {} == sent;
    acts' := QueueRuns(c, p, acts + [Announce], a, work, sent, a.local.AliveRumor(), size);
  }

  function Answer(a: Agent, r: WireMember): Agent {
    var l := a.local.Refute(r.incarnation);
    if a.local.leaving then a else Agent(l, a.table, PushQueue(a.queue, l.AliveRumor(), |a.table| + 1))
  }

  lemma AnswerRuns(c: Cluster, p: nat, acts: seq<Action>, a: Agent, work: multiset<Work>, sent: set<Message>, r: WireMember) returns (acts': seq<Action>)
    requires Ran(c, p, acts, a, work + multiset{ToRefute(r)}, sent)
    ensures acts <= acts' && Ran(c, p, acts', Answer(a, r), work, sent)
  {
    var act := Action.Refute(r);
    ThenOne(c, p, acts, a, work + multiset{ToRefute(r)}, sent, act);
    assert sent + {} == sent;
    acts' := acts + [act];
    if a.local.leaving {
      assert ThenWork(a, work + multiset{ToRefute(r)}, act) == work;
    } else {
      assert ThenWork(a, work + multiset{ToRefute(r)}, act) == work + multiset{ToAnnounce};
      acts' := AnnounceRuns(c, p, acts', Agent(a.local.Refute(r.incarnation), a.table, a.queue), work, sent, |a.table| + 1);
    }
  }

  lemma MergeRuns(c: Cluster, p: nat, acts: seq<Action>, a: Agent, work: multiset<Work>, sent: set<Message>, r: WireMember)
    requires Ran(c, p, acts, a, work + multiset{ToMerge(r)}, sent)
    ensures Ran(c, p, acts + [Merge(r)], Agent(a.local, MergeTable(a.table, r, a.local.id, c.now), a.queue),
                work + AfterMerge(With(a, multiset{}), r), sent)
  {
    ThenOne(c, p, acts, a, work + multiset{ToMerge(r)}, sent, Merge(r));
    assert ThenWork(a, work + multiset{ToMerge(r)}, Merge(r)) == work + AfterMerge(With(a, multiset{}), r) && sent + {} == sent;
  }

  lemma NewsRuns(c: Cluster, p: nat, acts: seq<Action>, a: Agent, work: multiset<Work>, sent: set<Message>, r: WireMember) returns (acts': seq<Action>)
    requires Ran(c, p, acts, a, work + multiset{ToMerge(r)}, sent)
    requires OutcomeOf(a.table, r, a.local.id) in {Added, Updated}
    ensures acts <= acts' && Ran(c, p, acts', ApplyTo(a, r, c.now), work, sent)
  {
    var t := MergeTable(a.table, r, a.local.id, c.now);
    MergeRuns(c, p, acts, a, work, sent, r);
    acts' := QueueRuns(c, p, acts + [Merge(r)], Agent(a.local, t, a.queue), work, sent, r, |t| + 1);
  }

  lemma DoubtIsForAnswering(a: Agent, r: WireMember, now: Time)
    requires OutcomeOf(a.table, r, a.local.id).Refute?
    ensures Agent(a.local, MergeTable(a.table, r, a.local.id, now), a.queue) == a
    ensures AfterMerge(With(a, multiset{}), r) == multiset{ToRefute(r)} && ApplyTo(a, r, now) == Answer(a, r)
  {
    MergeDoesWhatItSays(a.table, r, a.local.id, now);
  }

  lemma DoubtRuns(c: Cluster, p: nat, acts: seq<Action>, a: Agent, work: multiset<Work>, sent: set<Message>, r: WireMember) returns (acts': seq<Action>)
    requires Ran(c, p, acts, a, work + multiset{ToMerge(r)}, sent)
    requires OutcomeOf(a.table, r, a.local.id).Refute?
    ensures acts <= acts' && Ran(c, p, acts', ApplyTo(a, r, c.now), work, sent)
  {
    MergeRuns(c, p, acts, a, work, sent, r);
    DoubtIsForAnswering(a, r, c.now);
    acts' := AnswerRuns(c, p, acts + [Merge(r)], a, work, sent, r);
  }

  lemma NoNewsRuns(c: Cluster, p: nat, acts: seq<Action>, a: Agent, work: multiset<Work>, sent: set<Message>, r: WireMember) returns (acts': seq<Action>)
    requires Ran(c, p, acts, a, work + multiset{ToMerge(r)}, sent)
    requires OutcomeOf(a.table, r, a.local.id) == Ignored
    ensures acts <= acts' && Ran(c, p, acts', ApplyTo(a, r, c.now), work, sent)
  {
    MergeRuns(c, p, acts, a, work, sent, r);
    MergeDoesWhatItSays(a.table, r, a.local.id, c.now);
    acts' := acts + [Merge(r)];
    assert work + multiset{} == work;
  }

  /** Merging, and then queueing the news or answering the doubt, lock by lock. */
  lemma ApplyRuns(c: Cluster, p: nat, acts: seq<Action>, a: Agent, work: multiset<Work>, sent: set<Message>, r: WireMember) returns (acts': seq<Action>)
    requires Ran(c, p, acts, a, work + multiset{ToMerge(r)}, sent)
    ensures acts <= acts' && Ran(c, p, acts', ApplyTo(a, r, c.now), work, sent)
  {
    if OutcomeOf(a.table, r, a.local.id) in {Added, Updated} {
      acts' := NewsRuns(c, p, acts, a, work, sent, r);
    } else if OutcomeOf(a.table, r, a.local.id) == Ignored {
      acts' := NoNewsRuns(c, p, acts, a, work, sent, r);
    } else {
      acts' := DoubtRuns(c, p, acts, a, work, sent, r);
    }
  }

  lemma {:induction false} ApplyAllRuns(c: Cluster, p: nat, acts: seq<Action>, a: Agent, work: multiset<Work>, sent: set<Message>, rs: seq<WireMember>) returns (acts': seq<Action>)
    requires Ran(c, p, acts, a, work + Todo(rs), sent)
    ensures acts <= acts' && Ran(c, p, acts', ApplyAll(a, rs, c.now), work, sent)
    decreases |rs|
  {
    if rs == [] {
      acts' := acts;
      assert work + Todo(rs) == work;
    } else {
      assert work + Todo(rs) == work + Todo(rs[1..]) + multiset{ToMerge(rs[0])};
      acts' := ApplyRuns(c, p, acts, a, work + Todo(rs[1..]), sent, rs[0]);
      acts' := ApplyAllRuns(c, p, acts', ApplyTo(a, rs[0], c.now), work, sent, rs[1..]);
    }
  }

  // ---- Receiving --------------------------------------------------------------------------

  /** What receiving a message does to a node: a leave is merged as a death, gossip is
      applied rumor by rumor, an identity and a member list are absorbed, and the member
      lists asked for on the command line are not for the node. */
  function Handled(a: Agent, m: Message, now: Time): Agent {
    match m
    case Udp(Leave(from)) => ApplyTo(a, WireMember(from.id, from.addr, from.incarnation, WireState.Dead, from.ready, from.tags), now)
    case Udp(body) => ApplyAll(a, body.gossip, now)
    case Tcp(JoinRequest(from)) => ApplyTo(a, WireMember(from.id, from.addr, from.incarnation, WireState.Alive, from.ready, from.tags), now)
    case Tcp(JoinResponse(from, members)) => Sync.AbsorbFrom(a, from, members, now)
    case Tcp(SyncRequest(from, members)) => Sync.AbsorbFrom(a, from, members, now)
    case Tcp(SyncResponse(from, members)) => Sync.AbsorbFrom(a, from, members, now)
    case Tcp(_) => a
  }

  lemma {:induction false} MessageRecordsAreHandled(a: Agent, m: Message, now: Time)
    ensures ApplyAll(a, MessageRecords(m), now) == Handled(a, m, now)
  {
    if |MessageRecords(m)| == 1 {
      assert MessageRecords(m)[1..] == [];
    }
  }

  /** A process that receives a message and is left to itself handles it. */
  lemma ReceivedMessageIsHandled(c: Cluster, p: nat, m: Message) returns (acts: seq<Action>)
    requires p < |c.procs| && c.procs[p].up && m in c.net
    ensures [Receive(m)] <= acts && Ran(c, p, acts, Handled(AgentAt(c, p), m, c.now), c.procs[p].work, {})
  {
    var a, work := AgentAt(c, p), c.procs[p].work;
    Stay(c, p);
    assert c.net + {} == c.net;
    ThenOne(c, p, [], a, work, {}, Receive(m));
    assert ThenWork(a, work, Receive(m)) == work + Todo(MessageRecords(m)) && [] + [Receive(m)] == [Receive(m)];
    acts := ApplyAllRuns(c, p, [Receive(m)], a, work, {}, MessageRecords(m));
    MessageRecordsAreHandled(a, m, c.now);
  }

  /** A leave that has reached the network: in any run, any running process that holds the
      leaver and receives the message can go on to hold it dead at the number given. */
  lemma ReceivedLeaveBuries(cs: seq<Cluster>, steps: seq<Step>, p: nat, from: WireIdentity) returns (cs': seq<Cluster>, steps': seq<Step>)
    requires IsRun(cs, steps) && p < |cs[|steps|].procs| && cs[|steps|].procs[p].up
    requires Udp(Leave(from)) in cs[|steps|].net && from.id in cs[|steps|].procs[p].table
    ensures IsRun(cs', steps') && cs <= cs' && steps + [Act(p, Receive(Udp(Leave(from))))] <= steps'
    ensures p < |cs'[|steps'|].procs| && from.id in cs'[|steps'|].procs[p].table
    ensures var e := cs'[|steps'|].procs[p].table[from.id];
            e.state.Dead? && e.incarnation == from.incarnation
  {
    var c := cs[|steps|];
    var r := WireMember(from.id, from.addr, from.incarnation, WireState.Dead, from.ready, from.tags);
    var acts := ReceivedMessageIsHandled(c, p, Udp(Leave(from)));
    cs', steps' := TaskExtendsRun(cs, steps, p, acts);
    LeaverIsBelow(cs, steps, p, from);
    ObituaryKills(c.procs[p].table, r, p, c.now);
    HandledLeave(AgentAt(c, p), from, c.now);
  }

  lemma HandledLeave(a: Agent, from: WireIdentity, now: Time)
    ensures Handled(a, Udp(Leave(from)), now).table ==
      MergeTable(a.table, WireMember(from.id, from.addr, from.incarnation, WireState.Dead, from.ready, from.tags), a.local.id, now)
  {
    MergeDoesWhatItSays(a.table, LeaveRumor(from), a.local.id, now);
  }

  lemma LeaverIsBelow(cs: seq<Cluster>, steps: seq<Step>, p: nat, from: WireIdentity)
    requires IsRun(cs, steps) && p < |cs[|steps|].procs|
    requires Udp(Leave(from)) in cs[|steps|].net && from.id in cs[|steps|].procs[p].table
    ensures from.id != p == cs[|steps|].procs[p].local.id
    ensures cs[|steps|].procs[p].table[from.id].incarnation <= from.incarnation
  {
    RunKeepsInv(cs, steps, |steps|);
    var c := cs[|steps|];
    assert MessageOk(c.procs, Udp(Leave(from)));
    EntryIsTrue(c, p, from.id);
    assert ProcOk(c.procs[p], p);
  }

  // ---- The detector's tasks ---------------------------------------------------------------

  /** A probe of a member held and not dead fails: what was copied is suspected. */
  lemma FailedProbeRuns(c: Cluster, p: nat, x: NodeId) returns (acts: seq<Action>)
    requires p < |c.procs| && c.procs[p].up && x in c.procs[p].table && !c.procs[p].table[x].state.Dead?
    ensures var m := c.procs[p].table[x];
            var r := WireMember(m.id, m.addr, m.incarnation, WireState.Suspect, m.ready, m.tags);
            Ran(c, p, acts, ApplyTo(AgentAt(c, p), r, c.now), c.procs[p].work, {})
  {
    var a, work, w := AgentAt(c, p), c.procs[p].work, ToWire(c.procs[p].table[x]);
    Stay(c, p);
    ThenOne(c, p, [], a, work, {}, PickTarget(x));
    assert ThenWork(a, work, PickTarget(x)) == work + multiset{Probing(w)};
    acts := [] + [PickTarget(x)];
    ThenOne(c, p, acts, a, work + multiset{Probing(w)}, {}, ProbeFailed(w));
    assert ThenWork(a, work + multiset{Probing(w)}, ProbeFailed(w)) == work + multiset{ToMerge(w.(state := WireState.Suspect))};
    acts := ApplyRuns(c, p, acts + [ProbeFailed(w)], a, work, {}, w.(state := WireState.Suspect));
  }

  /** A member suspected for five seconds is declared dead. */
  lemma SweepRuns(c: Cluster, p: nat, x: NodeId) returns (acts: seq<Action>)
    requires p < |c.procs| && c.procs[p].up && x in c.procs[p].table
    requires c.procs[p].table[x].state.Suspect? && c.now >= c.procs[p].table[x].state.since + 5_000
    ensures var m := c.procs[p].table[x];
            var r := WireMember(m.id, m.addr, m.incarnation, WireState.Dead, m.ready, m.tags);
            Ran(c, p, acts, ApplyTo(AgentAt(c, p), r, c.now), c.procs[p].work, {})
  {
    var a, work, w := AgentAt(c, p), c.procs[p].work, ToWire(c.procs[p].table[x]);
    Stay(c, p);
    ThenOne(c, p, [], a, work, {}, ScanSuspect(x));
    assert ThenWork(a, work, ScanSuspect(x)) == work + multiset{Sweeping(w)};
    acts := [] + [ScanSuspect(x)];
    ThenOne(c, p, acts, a, work + multiset{Sweeping(w)}, {}, DeclareDead(w));
    assert ThenWork(a, work + multiset{Sweeping(w)}, DeclareDead(w)) == work + multiset{ToMerge(w.(state := WireState.Dead))};
    acts := ApplyRuns(c, p, acts + [DeclareDead(w)], a, work, {}, w.(state := WireState.Dead));
  }

  /** A member dead for thirty seconds is forgotten, and nothing else changes. */
  lemma ReapRuns(c: Cluster, p: nat, x: NodeId) returns (acts: seq<Action>)
    requires p < |c.procs| && c.procs[p].up && x in c.procs[p].table
    requires c.procs[p].table[x].state.Dead? && c.now >= c.procs[p].table[x].state.since + 30_000
    ensures var a := AgentAt(c, p);
            Ran(c, p, acts, Agent(a.local, a.table - {x}, a.queue), c.procs[p].work, {})
  {
    var a, work := AgentAt(c, p), c.procs[p].work;
    Stay(c, p);
    ThenOne(c, p, [], a, work, {}, ScanDead(x));
    assert ThenWork(a, work, ScanDead(x)) == work + multiset{Work.Reaping(x)};
    acts := [] + [ScanDead(x)];
    ThenOne(c, p, acts, a, work + multiset{Work.Reaping(x)}, {}, Reap(x));
    assert ThenWork(a, work + multiset{Work.Reaping(x)}, Reap(x)) == work;
    acts := acts + [Reap(x)];
  }

  // ---- Health and leaving -------------------------------------------------------------------

  lemma FlipRuns(c: Cluster, p: nat, value: bool) returns (acts: seq<Action>)
    requires p < |c.procs| && c.procs[p].up
    ensures Ran(c, p, acts, FlipTo(AgentAt(c, p), value), c.procs[p].work, {})
  {
    var a, work := AgentAt(c, p), c.procs[p].work;
    Stay(c, p);
    ThenOne(c, p, [], a, work, {}, Flip(value));
    acts := [] + [Flip(value)];
    if a.local.SetReadyChanges(value) {
      assert ThenWork(a, work, Flip(value)) == work + multiset{ToAnnounce};
      acts := AnnounceRuns(c, p, acts, Agent(a.local.SetReady(value), a.table, a.queue), work, {}, |a.table| + 1);
    } else {
      assert ThenWork(a, work, Flip(value)) == work;
    }
  }

  /** Leaving sets the flag and sends the final identity out. */
  lemma LeaveRuns(c: Cluster, p: nat) returns (acts: seq<Action>)
    requires p < |c.procs| && c.procs[p].up
    ensures var a := AgentAt(c, p);
            Ran(c, p, acts, a.(local := a.local.(leaving := true)), c.procs[p].work, {Udp(Leave(a.local.Identity()))})
  {
    var a, work := AgentAt(c, p), c.procs[p].work;
    var b := a.(local := a.local.(leaving := true));
    Stay(c, p);
    ThenOne(c, p, [], a, work, {}, BeginLeave);
    assert ThenWork(a, work, BeginLeave) == work && Then(a, c.now, BeginLeave) == b;
    acts := [] + [BeginLeave];
    ThenOne(c, p, acts, b, work, {}, SendLeave);
    assert ThenWork(b, work, SendLeave) == work && {} + {Udp(Leave(a.local.Identity()))} == {Udp(Leave(a.local.Identity()))};
    acts := acts + [SendLeave];
  }

  // ---- Sending ------------------------------------------------------------------------------

  lemma IntroduceRuns(c: Cluster, p: nat) returns (acts: seq<Action>)
    requires p < |c.procs| && c.procs[p].up
    ensures var a := AgentAt(c, p);
            Ran(c, p, acts, a, c.procs[p].work + multiset{Introduced(a.local.Identity())}, {})
  {
    var a, work := AgentAt(c, p), c.procs[p].work;
    Stay(c, p);
    ThenOne(c, p, [], a, work, {}, Introduce);
    assert ThenWork(a, work, Introduce) == work + multiset{Introduced(a.local.Identity())};
    acts := [] + [Introduce];
  }

  lemma SendUdpRuns(c: Cluster, p: nat, acts: seq<Action>, a: Agent, work: multiset<Work>, body: UdpBody)
    requires Ran(c, p, acts, a, work, {}) && !body.Leave?
    requires Introduced(body.from) in work && Batched(body.gossip) in work
    ensures Ran(c, p, acts + [SendUdp(body)], a, work, {Udp(body)})
  {
    ThenOne(c, p, acts, a, work, {}, SendUdp(body));
    assert ThenWork(a, work, SendUdp(body)) == work && {} + {Udp(body)} == {Udp(body)};
  }

  lemma SendTcpRuns(c: Cluster, p: nat, acts: seq<Action>, a: Agent, work: multiset<Work>, body: TcpBody)
    requires Ran(c, p, acts, a, work, {}) && CanSendTcp(With(a, work), body)
    ensures Ran(c, p, acts + [SendTcp(body)], a, work, {Tcp(body)})
  {
    ThenOne(c, p, acts, a, work, {}, SendTcp(body));
    assert ThenWork(a, work, SendTcp(body)) == work && {} + {Tcp(body)} == {Tcp(body)};
  }

  lemma BatchRuns(c: Cluster, p: nat, acts: seq<Action>, a: Agent, work: multiset<Work>)
    requires Ran(c, p, acts, a, work, {})
    ensures Ran(c, p, acts + [TakeBatch], a.(queue := AfterTake(a.queue)), work + multiset{Batched(Batch(a.queue))}, {})
  {
    ThenOne(c, p, acts, a, work, {}, TakeBatch);
    assert ThenWork(a, work, TakeBatch) == work + multiset{Batched(Batch(a.queue))};
  }

  lemma SnapshotRuns(c: Cluster, p: nat, acts: seq<Action>, a: Agent, work: multiset<Work>, members: seq<WireMember>)
    requires Ran(c, p, acts, a, work, {}) && Sync.IsSnapshot(members, a.table)
    ensures Ran(c, p, acts + [TakeSnapshot(members)], a, work + multiset{Snapshotted(members)}, {})
  {
    ThenOne(c, p, acts, a, work, {}, TakeSnapshot(members));
    assert ThenWork(a, work, TakeSnapshot(members)) == work + multiset{Snapshotted(members)};
  }

  /** A ping, an ack, a request or a report goes out with the identity of the moment and
      the next batch, which the queue counts as sent. */
  lemma DatagramRuns(c: Cluster, p: nat, body: UdpBody) returns (acts: seq<Action>, work: multiset<Work>)
    requires p < |c.procs| && c.procs[p].up && !body.Leave?
    requires body.from == c.procs[p].local.Identity() && body.gossip == Batch(c.procs[p].queue)
    ensures var a := AgentAt(c, p);
            Ran(c, p, acts, a.(queue := AfterTake(a.queue)), work, {Udp(body)})
  {
    var a := AgentAt(c, p);
    acts := IntroduceRuns(c, p);
    work := c.procs[p].work + multiset{Introduced(body.from)};
    BatchRuns(c, p, acts, a, work);
    work := work + multiset{Batched(body.gossip)};
    SendUdpRuns(c, p, acts + [TakeBatch], a.(queue := AfterTake(a.queue)), work, body);
    acts := acts + [TakeBatch] + [SendUdp(body)];
  }

  /** A sync, or an answer to a join or a sync, goes out with the identity and the table of
      the moment; nothing of the node's own changes. */
  lemma TableRuns(c: Cluster, p: nat, body: TcpBody) returns (acts: seq<Action>, work: multiset<Work>)
    requires p < |c.procs| && c.procs[p].up && (body.SyncRequest? || body.SyncResponse? || body.JoinResponse?)
    requires body.from == c.procs[p].local.Identity() && Sync.IsSnapshot(body.members, c.procs[p].table)
    ensures Ran(c, p, acts, AgentAt(c, p), work, {Tcp(body)})
  {
    var a := AgentAt(c, p);
    acts := IntroduceRuns(c, p);
    work := c.procs[p].work + multiset{Introduced(body.from)};
    SnapshotRuns(c, p, acts, a, work, body.members);
    work := work + multiset{Snapshotted(body.members)};
    SendTcpRuns(c, p, acts + [TakeSnapshot(body.members)], a, work, body);
    acts := acts + [TakeSnapshot(body.members)] + [SendTcp(body)];
  }

  lemma JoinRuns(c: Cluster, p: nat) returns (acts: seq<Action>, work: multiset<Work>)
    requires p < |c.procs| && c.procs[p].up
    ensures Ran(c, p, acts, AgentAt(c, p), work, {Tcp(JoinRequest(c.procs[p].local.Identity()))})
  {
    var a := AgentAt(c, p);
    var body := JoinRequest(a.local.Identity());
    acts := IntroduceRuns(c, p);
    work := c.procs[p].work + multiset{Introduced(body.from)};
    SendTcpRuns(c, p, acts, a, work, body);
    acts := acts + [SendTcp(body)];
  }
}
