/** A reaped member stays reaped: once a process is gone and only obituaries of it
    are left, the cluster forgets it in a bounded number of steps. */
module Reaping {
  import opened Types
  import opened LocalNodes
  import opened MemberTables
  import opened GossipQueues
  import opened Cluster
  import opened ClusterInvariants
  import opened ClusterTheorems

  ghost function ObituariesOf(x: NodeId): WireMember -> bool {
    (r: WireMember) => r.id == x ==> r.state == WireState.Dead
  }

  /** The process has stopped, and every record about it that is left anywhere, in
      a table, a queue, a message or a task's hands, says it is dead. */
  ghost predicate OnlyObituariesLeft(c: Cluster, x: NodeId) {
    x < |c.procs| && !c.procs[x].up && Holds(c, ObituariesOf(x))
  }

  /** Suspecting, burying and updating make only obituaries out of obituaries, and no
      other process's word is about `x`. */
  lemma OthersOnlyBury(q: Proc, x: NodeId)
    requires q.up ==> q.local.id != x
    ensures Closed(ObituariesOf(x)) && OwnWordHolds(q, ObituariesOf(x))
  {
  }

  lemma ObituariesStayAct(c: Cluster, p: nat, act: Action, x: NodeId)
    requires Inv(c) && OnlyObituariesLeft(c, x) && Enabled(c, Act(p, act))
    ensures OnlyObituariesLeft(Next(c, Act(p, act)), x)
  {
    assert ProcOk(c.procs[p], p);
    OthersOnlyBury(c.procs[p], x);
    ClosedAllows(c.procs[p], c.net, c.now, act, ObituariesOf(x));
    ActKeepsHolds(c, p, act, ObituariesOf(x));
    StepOnOne(c, Act(p, act), x);
  }

  lemma ObituariesStay(c: Cluster, s: Step, x: NodeId)
    requires Inv(c) && OnlyObituariesLeft(c, x) && Enabled(c, s)
    ensures OnlyObituariesLeft(Next(c, s), x)
  {
    if s.Act? {
      ObituariesStayAct(c, s.p, s.act, x);
    }
  }

  // ---- How much forgetting is left ---------------------------------------------------

  /** One for the entry, and one for every number its clock could still restart at. */
  function Share(t: Table, x: NodeId, top: nat): nat {
    if x !in t then 0 else if t[x].incarnation > top then 1 else 1 + top - t[x].incarnation
  }

  function Weight(procs: seq<Proc>, x: NodeId, top: nat): nat {
    if procs == [] then 0 else Share(procs[0].table, x, top) + Weight(procs[1..], x, top)
  }

  lemma {:induction false} WeightUpdate(procs: seq<Proc>, p: nat, q: Proc, x: NodeId, top: nat)
    requires p < |procs|
    ensures Weight(procs[p := q], x, top) + Share(procs[p].table, x, top) == Weight(procs, x, top) + Share(q.table, x, top)
    decreases |procs|
  {
    if p == 0 {
      assert procs[0 := q][1..] == procs[1..];
    } else {
      assert procs[p := q][1..] == procs[1..][p - 1 := q];
      WeightUpdate(procs[1..], p - 1, q, x, top);
    }
  }

  lemma {:induction false} WeightSnoc(procs: seq<Proc>, q: Proc, x: NodeId, top: nat)
    ensures Weight(procs + [q], x, top) == Weight(procs, x, top) + Share(q.table, x, top)
    decreases |procs|
  {
    if procs == [] {
      assert procs + [q] == [q] && [q][1..] == [];
    } else {
      assert (procs + [q])[1..] == procs[1..] + [q];
      WeightSnoc(procs[1..], q, x, top);
    }
  }

  lemma {:induction false} WeightBound(procs: seq<Proc>, x: NodeId, top: nat)
    ensures Weight(procs, x, top) <= |procs| * (1 + top)
    decreases |procs|
  {
    if procs != [] {
      WeightBound(procs[1..], x, top);
      assert |procs| * (1 + top) == (1 + top) + (|procs| - 1) * (1 + top);
    }
  }

  /** What is left, measured against the last number `x` ever had. */
  function Remaining(c: Cluster, x: NodeId): nat
    requires x < |c.procs|
  {
    Weight(c.procs, x, c.procs[x].local.incarnation)
  }

  /** In a table that holds only obituaries of `x`, an obituary can restart an
      entry's clock only by raising its number, and never opens an entry. */
  lemma ObituaryOnlyRaises(t: Table, r: WireMember, me: NodeId, now: Time, x: NodeId, top: nat)
    requires x in t ==> t[x].state.Dead? && t[x].incarnation <= top
    requires r.id == x ==> r.state == WireState.Dead && r.incarnation <= top
    ensures TableMoves(t, MergeTable(t, r, me, now), x, top)
  {
  }

  /** What the table says about `x` stays, or uses up some of its share. */
  predicate TableMoves(t: Table, t': Table, x: NodeId, top: nat) {
    && (Lookup(t', x) == Lookup(t, x) || Share(t', x, top) < Share(t, x, top))
    && (x in t' ==> x in t)
  }

  lemma TableMove(c: Cluster, p: nat, act: Action, x: NodeId)
    requires Inv(c) && OnlyObituariesLeft(c, x) && Enabled(c, Act(p, act))
    ensures TableMoves(c.procs[p].table, DoAct(c.procs[p], c.now, act).table, x, c.procs[x].local.incarnation)
  {
    if x in c.procs[p].table {
      EntryIsTrue(c, p, x);
      assert ProcHolds(c.procs[p], ObituariesOf(x));
    }
    if act.Merge? {
      MergedIsTrue(c, p, act.r);
      assert ProcHolds(c.procs[p], ObituariesOf(x));
      Held(c.procs[p], ToMerge(act.r), ObituariesOf(x));
      assert ProcOk(c.procs[p], p);
      ObituaryOnlyRaises(c.procs[p].table, act.r, p, c.now, x, c.procs[x].local.incarnation);
    }
  }

  /** Whether the step reaps `x` from a table, restarts its clock there, or changes
      what a table holds about it in any other way. */
  predicate Touches(c: Cluster, s: Step, x: NodeId)
    requires Enabled(c, s)
  {
    s.Act? && Lookup(DoAct(c.procs[s.p], c.now, s.act).table, x) != Lookup(c.procs[s.p].table, x)
  }

  /** A step changes what a table holds about `x` exactly when it is said to. */
  lemma TouchesIsAnyChange(c: Cluster, s: Step, x: NodeId)
    requires Enabled(c, s)
    ensures Touches(c, s, x) <==>
      exists p :: 0 <= p < |c.procs| && Lookup(Next(c, s).procs[p].table, x) != Lookup(c.procs[p].table, x)
  {
    forall p | 0 <= p < |c.procs| && !(s.Act? && s.p == p) ensures Next(c, s).procs[p] == c.procs[p] {
      StepOnOne(c, s, p);
    }
    if s.Act? {
      StepOnOne(c, s, s.p);
    }
  }

  function Holders(c: Cluster, x: NodeId): set<nat> {
    set i | 0 <= i < |c.procs| && x in c.procs[i].table
  }

  lemma ForgettingAct(c: Cluster, p: nat, act: Action, x: NodeId)
    requires Enabled(c, Act(p, act)) && x < |c.procs| && !c.procs[x].up
    requires TableMoves(c.procs[p].table, DoAct(c.procs[p], c.now, act).table, x, c.procs[x].local.incarnation)
    ensures var c' := Next(c, Act(p, act));
            && x < |c'.procs|
            && Holders(c', x) <= Holders(c, x)
            && Remaining(c', x) + (if Touches(c, Act(p, act), x) then 1 else 0) <= Remaining(c, x)
  {
    var q := DoAct(c.procs[p], c.now, act);
    ReplaceOne(c, p, q, Next(c, Act(p, act)).net, x);
  }

  lemma ReplaceOne(c: Cluster, p: nat, q: Proc, net: set<Message>, x: NodeId)
    requires p < |c.procs| && x < |c.procs| && p != x
    requires x in q.table ==> x in c.procs[p].table
    ensures var c' := Cluster(c.procs[p := q], net, c.now);
            && Holders(c', x) <= Holders(c, x)
            && Remaining(c', x) + Share(c.procs[p].table, x, c.procs[x].local.incarnation)
               == Remaining(c, x) + Share(q.table, x, c.procs[x].local.incarnation)
  {
    WeightUpdate(c.procs, p, q, x, c.procs[x].local.incarnation);
  }

  lemma ForgettingStart(c: Cluster, addr: Addr, tags: Tags, x: NodeId)
    requires x < |c.procs| && Enabled(c, Start(addr, tags))
    ensures var c' := Next(c, Start(addr, tags));
            && x < |c'.procs|
            && Holders(c', x) <= Holders(c, x)
            && Remaining(c', x) == Remaining(c, x)
  {
    WeightSnoc(c.procs, NewProc(|c.procs|, addr, tags), x, c.procs[x].local.incarnation);
  }

  /** One step of a run: only obituaries go on being left, no table gains the member,
      and every change to what a table holds about it uses up some of what is left. */
  lemma ForgettingStep(cs: seq<Cluster>, steps: seq<Step>, k: nat, x: NodeId)
    requires IsRun(cs, steps) && k < |steps| && OnlyObituariesLeft(cs[k], x)
    ensures Enabled(cs[k], steps[k]) && OnlyObituariesLeft(cs[k + 1], x)
    ensures Holders(cs[k + 1], x) <= Holders(cs[k], x)
    ensures Remaining(cs[k + 1], x) + (if Touches(cs[k], steps[k], x) then 1 else 0) <= Remaining(cs[k], x)
  {
    var c := cs[k];
    InvAtStep(cs, steps, k);
    ObituariesStay(c, steps[k], x);
    match steps[k] {
      case Act(p, act) =>
        TableMove(c, p, act, x);
        ForgettingAct(c, p, act, x);
      case Start(addr, tags) => ForgettingStart(c, addr, tags, x);
      case _ =>
    }
  }

  /** The steps from state `i` up to state `j` that touch what a table holds about `x`. */
  function TouchCount(cs: seq<Cluster>, steps: seq<Step>, i: nat, j: nat, x: NodeId): nat
    requires i <= j <= |steps| < |cs|
    decreases j - i
  {
    if i == j then 0
    else TouchCount(cs, steps, i, j - 1, x)
         + if Enabled(cs[j - 1], steps[j - 1]) && Touches(cs[j - 1], steps[j - 1], x) then 1 else 0
  }

  lemma {:induction false} ForgettingRun(cs: seq<Cluster>, steps: seq<Step>, i: nat, j: nat, x: NodeId)
    requires IsRun(cs, steps) && i <= j < |cs| && OnlyObituariesLeft(cs[i], x)
    ensures OnlyObituariesLeft(cs[j], x)
    ensures Holders(cs[j], x) <= Holders(cs[i], x)
    ensures Remaining(cs[j], x) + TouchCount(cs, steps, i, j, x) <= Remaining(cs[i], x)
    decreases j
  {
    if i < j {
      ForgettingRun(cs, steps, i, j - 1, x);
      ForgettingStep(cs, steps, j - 1, x);
    }
  }

  /** Reaping sticks. From the moment only obituaries are left, no other record of the
      member ever reappears, no table ever takes it up again, and all the reaps and
      clock restarts together stay below a bound fixed at that moment: the corpse
      cannot be passed around for ever. */
  lemma {:induction false} ReapingSticks(cs: seq<Cluster>, steps: seq<Step>, i: nat, j: nat, x: NodeId, r: WireMember)
    requires IsRun(cs, steps) && i <= j < |cs| && OnlyObituariesLeft(cs[i], x)
    ensures IsRecord(cs[j], r) && r.id == x ==> r.state == WireState.Dead
    ensures Holders(cs[j], x) <= Holders(cs[i], x) && |Holders(cs[j], x)| <= |Holders(cs[i], x)|
    ensures TouchCount(cs, steps, i, j, x) <= Remaining(cs[i], x) <= |cs[i].procs| * (1 + cs[i].procs[x].local.incarnation)
  {
    OnlyObituariesStay(cs, steps, i, j, x, r);
    HoldersNeverGrow(cs, steps, i, j, x);
    TouchesAreBounded(cs, steps, i, j, x);
  }

  lemma HoldersNeverGrow(cs: seq<Cluster>, steps: seq<Step>, i: nat, j: nat, x: NodeId)
    requires IsRun(cs, steps) && i <= j < |cs| && OnlyObituariesLeft(cs[i], x)
    ensures Holders(cs[j], x) <= Holders(cs[i], x) && |Holders(cs[j], x)| <= |Holders(cs[i], x)|
  {
    ForgettingRun(cs, steps, i, j, x);
    SubsetSize(Holders(cs[j], x), Holders(cs[i], x));
  }

  lemma {:induction false} TouchesAreBounded(cs: seq<Cluster>, steps: seq<Step>, i: nat, j: nat, x: NodeId)
    requires IsRun(cs, steps) && i <= j < |cs| && OnlyObituariesLeft(cs[i], x)
    ensures TouchCount(cs, steps, i, j, x) <= Remaining(cs[i], x) <= |cs[i].procs| * (1 + cs[i].procs[x].local.incarnation)
  {
    RemainingIsBounded(cs[i], x);
    ForgettingRun(cs, steps, i, j, x);
  }

  lemma RemainingIsBounded(c: Cluster, x: NodeId)
    requires x < |c.procs|
    ensures Remaining(c, x) <= |c.procs| * (1 + c.procs[x].local.incarnation)
  {
    WeightBound(c.procs, x, c.procs[x].local.incarnation);
  }

  lemma OnlyObituariesStay(cs: seq<Cluster>, steps: seq<Step>, i: nat, j: nat, x: NodeId, r: WireMember)
    requires IsRun(cs, steps) && i <= j < |cs| && OnlyObituariesLeft(cs[i], x)
    ensures IsRecord(cs[j], r) && r.id == x ==> r.state == WireState.Dead
  {
    ForgettingRun(cs, steps, i, j, x);
    if IsRecord(cs[j], r) {
      HoldsForEveryRecord(cs[j], ObituariesOf(x), r);
    }
  }
}
