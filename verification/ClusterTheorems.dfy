/** What the protocol promises over whole runs: leaving is final, a refutation
    wins, and the dead stay forgotten. */
module ClusterTheorems {
  import opened Types
  import opened LocalNodes
  import opened MemberTables
  import opened GossipQueues
  import opened Cluster
  import opened ClusterInvariants
  import opened Dissemination
  import Sync

  // ---- One step, seen from one table ------------------------------------------------

  lemma MergedIsTrue(c: Cluster, p: nat, r: WireMember)
    requires Inv(c) && Enabled(c, Act(p, Merge(r)))
    ensures r.id < |c.procs| && r.incarnation <= c.procs[r.id].local.incarnation && !r.addr.ip.IsUnspecified()
  {
    assert ProcHolds(c.procs[p], Truth(c.procs));
    Held(c.procs[p], ToMerge(r), Truth(c.procs));
    assert Truthful(c.procs, r) && ProcOk(c.procs[r.id], r.id);
  }

  lemma EntryIsTrue(c: Cluster, p: nat, x: NodeId)
    requires Inv(c) && p < |c.procs| && x in c.procs[p].table
    ensures x < |c.procs| && c.procs[p].table[x].id == x != p
    ensures c.procs[p].table[x].incarnation <= c.procs[x].local.incarnation
  {
    assert ProcOk(c.procs[p], p) && ProcHolds(c.procs[p], Truth(c.procs));
    assert Truthful(c.procs, ToWire(c.procs[p].table[x]));
  }

  lemma MergeStep(c: Cluster, p: nat, r: WireMember)
    requires Inv(c) && Enabled(c, Act(p, Merge(r)))
    ensures p < |c.procs| == |Next(c, Act(p, Merge(r))).procs|
    ensures Next(c, Act(p, Merge(r))).procs[p].table == MergeTable(c.procs[p].table, r, p, c.now)
    ensures forall x :: 0 <= x < |c.procs| ==> Next(c, Act(p, Merge(r))).procs[x].local == c.procs[x].local
  {
    assert ProcOk(c.procs[p], p);
  }

  lemma InvAtStep(cs: seq<Cluster>, steps: seq<Step>, k: nat)
    requires IsRun(cs, steps) && k < |steps|
    ensures Inv(cs[k]) && Enabled(cs[k], steps[k]) && cs[k + 1] == Next(cs[k], steps[k])
  {
    assert StepAt(cs, steps, k);
    RunKeepsInv(cs, steps, k);
  }

  lemma RunEntryIsTrue(cs: seq<Cluster>, steps: seq<Step>, k: nat, p: nat, x: NodeId)
    requires IsRun(cs, steps) && k < |cs| && p < |cs[k].procs| && x in cs[k].procs[p].table
    ensures x < |cs[k].procs|
    ensures cs[k].procs[p].table[x].incarnation <= cs[k].procs[x].local.incarnation
  {
    RunKeepsInv(cs, steps, k);
    EntryIsTrue(cs[k], p, x);
  }

  /** A merge at step `k` of a run: what it does to its table, and what the rumor and
      the entry it meets can be. */
  lemma RunMerge(cs: seq<Cluster>, steps: seq<Step>, k: nat, p: nat, r: WireMember)
    requires IsRun(cs, steps) && k < |steps| && steps[k] == Act(p, Merge(r))
    ensures p < |cs[k].procs| == |cs[k + 1].procs|
    ensures cs[k + 1].procs[p].table == MergeTable(cs[k].procs[p].table, r, p, cs[k].now)
    ensures r.id < |cs[k].procs| && r.incarnation <= cs[k].procs[r.id].local.incarnation && !r.addr.ip.IsUnspecified()
    ensures r.id in cs[k].procs[p].table ==>
      r.id != p && cs[k].procs[p].table[r.id].incarnation <= cs[k].procs[r.id].local.incarnation
  {
    InvAtStep(cs, steps, k);
    MergedIsTrue(cs[k], p, r);
    MergeStep(cs[k], p, r);
    if r.id in cs[k].procs[p].table {
      EntryIsTrue(cs[k], p, r.id);
    }
  }

  // ---- One entry, over a run --------------------------------------------------------

  /** `x` stays in `p`'s table from state `i` up to state `j`. */
  ghost predicate HeldThroughout(cs: seq<Cluster>, p: nat, x: NodeId, i: nat, j: nat) {
    i <= j < |cs| && forall k {:trigger cs[k]} :: i <= k <= j ==> p < |cs[k].procs| && x in cs[k].procs[p].table
  }

  lemma EntryUnderAct(q: Proc, now: Time, act: Action, x: NodeId)
    requires act.PickTarget? || act.ScanSuspect? ==> act.x in q.table
    requires x in q.table && x in DoAct(q, now, act).table
    ensures var e, e' := q.table[x], DoAct(q, now, act).table[x];
            || e' == e
            || (act.Merge? && act.r.id == x && MemberKey(e) < RumorKey(act.r) && e' == Overwrite(e, act.r, now))
  {
    assert !act.Stop?;
    assert DoAct(q, now, act).table == NextTable(q, now, act);
  }

  /** An entry that stays changes only by a merge of a rumor that outranks it, and
      then takes that rumor's rank. */
  lemma EntryStep(c: Cluster, s: Step, p: nat, x: NodeId)
    requires Enabled(c, s) && p < |c.procs| && x in c.procs[p].table
    requires p < |Next(c, s).procs| && x in Next(c, s).procs[p].table
    ensures var e, e' := c.procs[p].table[x], Next(c, s).procs[p].table[x];
            || e' == e
            || (s.Act? && s.p == p && s.act.Merge? && s.act.r.id == x
                && MemberKey(e) < RumorKey(s.act.r) && e' == Overwrite(e, s.act.r, c.now))
  {
    StepOnOne(c, s, p);
    if s.Act? && s.p == p {
      EntryUnderAct(c.procs[p], c.now, s.act, x);
    }
  }

  lemma {:induction false} EntryNeverFalls(cs: seq<Cluster>, steps: seq<Step>, p: nat, x: NodeId, i: nat, j: nat)
    requires IsRun(cs, steps) && HeldThroughout(cs, p, x, i, j)
    ensures MemberKey(cs[i].procs[p].table[x]) <= MemberKey(cs[j].procs[p].table[x])
    decreases j
  {
    if i < j {
      EntryNeverFalls(cs, steps, p, x, i, j - 1);
      assert p < |cs[j - 1].procs| && x in cs[j - 1].procs[p].table;
      RunEntryStep(cs, steps, p, x, j - 1);
    }
  }

  lemma OverwriteTakesRank(e: Member, r: WireMember, now: Time)
    ensures MemberKey(Overwrite(e, r, now)) == RumorKey(r) && Overwrite(e, r, now).incarnation == r.incarnation
  {
  }

  /** In a run, an entry that stays is unchanged or replaced by a higher record that
      its member has announced. */
  lemma RunEntryStep(cs: seq<Cluster>, steps: seq<Step>, p: nat, x: NodeId, k: nat)
    requires IsRun(cs, steps) && k < |steps|
    requires p < |cs[k].procs| && x in cs[k].procs[p].table
    requires p < |cs[k + 1].procs| && x in cs[k + 1].procs[p].table
    ensures x < |cs[k].procs|
    ensures var e, e' := cs[k].procs[p].table[x], cs[k + 1].procs[p].table[x];
            e' == e || (MemberKey(e) < MemberKey(e') && e'.incarnation <= cs[k].procs[x].local.incarnation)
  {
    assert Enabled(cs[k], steps[k]) && cs[k + 1] == Next(cs[k], steps[k]) by { InvAtStep(cs, steps, k); }
    RunEntryIsTrue(cs, steps, k, p, x);
    var e, e' := cs[k].procs[p].table[x], cs[k + 1].procs[p].table[x];
    EntryStep(cs[k], steps[k], p, x);
    if e' != e {
      var r := steps[k].act.r;
      RunMerge(cs, steps, k, p, r);
      OverwriteTakesRank(e, r, cs[k].now);
    }
  }

  // ---- Leaving is final ---------------------------------------------------------------

  /** `p` counts `x` as dead at the last number `x` will ever have. */
  ghost predicate CountsAsLeft(c: Cluster, p: nat, x: NodeId) {
    && p < |c.procs| && x < |c.procs| && x in c.procs[p].table
    && c.procs[p].table[x].state.Dead?
    && c.procs[p].table[x].incarnation == c.procs[x].local.incarnation
  }

  /** Nothing outranks such an entry: every record of `x` is at or below its number. */
  lemma {:induction false} LeftEntryStays(cs: seq<Cluster>, steps: seq<Step>, p: nat, x: NodeId, i: nat, j: nat)
    requires IsRun(cs, steps) && HeldThroughout(cs, p, x, i, j)
    requires CountsAsLeft(cs[i], p, x) && cs[i].procs[x].local.leaving
    ensures CountsAsLeft(cs[j], p, x) && cs[j].procs[p].table[x] == cs[i].procs[p].table[x]
    decreases j
  {
    if i < j {
      LeftEntryStays(cs, steps, p, x, i, j - 1);
      assert p < |cs[j].procs| && x in cs[j].procs[p].table;
      RunEntryStep(cs, steps, p, x, j - 1);
      NumbersNeverFall(cs, steps, i, j - 1, x);
      NumbersNeverFall(cs, steps, i, j, x);
      DeadIsTop(cs[j - 1].procs[p].table[x], cs[j].procs[p].table[x]);
    }
  }

  lemma DeadIsTop(e: Member, later: Member)
    requires e.state.Dead? && later.incarnation <= e.incarnation
    ensures MemberKey(later) <= MemberKey(e)
  {
  }

  /** An obituary at or above an entry's number leaves the entry dead at the
      obituary's number. */
  lemma ObituaryKills(t: Table, r: WireMember, me: NodeId, now: Time)
    requires r.id in t && r.id != me && r.state == WireState.Dead && t[r.id].incarnation <= r.incarnation
    ensures var t' := MergeTable(t, r, me, now);
            r.id in t' && t'[r.id].state.Dead? && t'[r.id].incarnation == r.incarnation
  {
  }

  /** Whoever has received a Leave has heard it from a node whose values are final. */
  lemma LeaveCarriesTheFinalNumber(cs: seq<Cluster>, steps: seq<Step>, p: nat, from: WireIdentity, i: nat, k: nat)
    requires IsRun(cs, steps) && i <= k < |cs| && i < |steps|
    requires steps[i] == Act(p, Receive(Udp(Leave(from))))
    ensures from.id < |cs[k].procs| && cs[k].procs[from.id].local.leaving && cs[k].procs[from.id].local.Identity() == from
  {
    InvAtStep(cs, steps, i);
    assert MessageOk(cs[i].procs, Udp(Leave(from)));
    NumbersNeverFall(cs, steps, i, k, from.id);
  }

  /** Receiving a Leave leaves exactly one thing to do: to merge its sender as dead. */
  lemma ReceivedLeaveIsToBeMergedAsDeath(q: Proc, from: WireIdentity)
    ensures Adds(q, Receive(Udp(Leave(from)))) ==
      multiset{ToMerge(WireMember(from.id, from.addr, from.incarnation, WireState.Dead, from.ready, from.tags))}
  {
    var rest := [LeaveRumor(from)][1..];
    assert rest == [];
    assert Todo([LeaveRumor(from)]) == multiset{ToMerge(LeaveRumor(from))} + Todo(rest);
  }

  lemma LeaveIsTakenUp(cs: seq<Cluster>, steps: seq<Step>, p: nat, from: WireIdentity, i: nat)
    requires IsRun(cs, steps) && i < |steps| && steps[i] == Act(p, Receive(Udp(Leave(from))))
    ensures p < |cs[i].procs| && p < |cs[i + 1].procs|
    ensures cs[i + 1].procs[p].work ==
      cs[i].procs[p].work + multiset{ToMerge(WireMember(from.id, from.addr, from.incarnation, WireState.Dead, from.ready, from.tags))}
  {
    assert StepAt(cs, steps, i);
    StepOnOne(cs[i], steps[i], p);
    ReceivedLeaveIsToBeMergedAsDeath(cs[i].procs[p], from);
    assert cs[i].procs[p].work - multiset{} == cs[i].procs[p].work;
  }

  /** A Leave received at step `i`, which hands its task the sender's death to merge, and
      merged at step `j` into an entry that exists makes that entry exactly dead at the
      incarnation the Leave gave, and it stays the same, clock included, for as long as
      it is there, whatever else arrives. The leaving node's own values never change
      again. */
  lemma LeaveIsFinal(cs: seq<Cluster>, steps: seq<Step>, p: nat, from: WireIdentity, i: nat, j: nat, k: nat)
    requires IsRun(cs, steps) && i < j < k < |cs|
    requires steps[i] == Act(p, Receive(Udp(Leave(from))))
    requires steps[j] == Act(p, Merge(WireMember(from.id, from.addr, from.incarnation, WireState.Dead, from.ready, from.tags)))
    requires p < |cs[j].procs| && from.id in cs[j].procs[p].table && HeldThroughout(cs, p, from.id, j + 1, k)
    ensures p < |cs[i].procs| && p < |cs[i + 1].procs|
    ensures cs[i + 1].procs[p].work == cs[i].procs[p].work + multiset{ToMerge(steps[j].act.r)}
    ensures var e := cs[k].procs[p].table[from.id];
            e.state.Dead? && e.incarnation == from.incarnation && e == cs[j + 1].procs[p].table[from.id]
    ensures from.id < |cs[k].procs| && cs[k].procs[from.id].local.leaving && cs[k].procs[from.id].local.Identity() == from
  {
    LeaveCarriesTheFinalNumber(cs, steps, p, from, i, j);
    LeaveCarriesTheFinalNumber(cs, steps, p, from, i, j + 1);
    LeaveCarriesTheFinalNumber(cs, steps, p, from, i, k);
    LeaveIsTakenUp(cs, steps, p, from, i);
    RunMerge(cs, steps, j, p, LeaveRumor(from));
    ObituaryKills(cs[j].procs[p].table, LeaveRumor(from), p, cs[j].now);
    LeftEntryStays(cs, steps, p, from.id, j + 1, k);
  }

  // ---- A refutation wins ----------------------------------------------------------------

  /** When a node that is not leaving answers a doubt at `r`, below the largest
      incarnation, every alive rumor it builds later is above `r`; if answering
      moved its number, the rumor is above every record about it there was. */
  lemma RefutationIsAbove(cs: seq<Cluster>, steps: seq<Step>, x: NodeId, r: WireMember, i: nat, j: nat)
    requires IsRun(cs, steps) && i < j < |steps|
    requires steps[i] == Act(x, Action.Refute(r)) && steps[j] == Act(x, Announce)
    requires x < |cs[i].procs| && !cs[i].procs[x].local.leaving && r.incarnation < MAX_INCARNATION
    ensures x < |cs[j].procs| && x < |cs[j + 1].procs| && x < |cs[i + 1].procs|
    ensures var alive := cs[j].procs[x].local.AliveRumor();
            && ToQueue(alive) in cs[j + 1].procs[x].work
            && alive.state == WireState.Alive && alive.incarnation > r.incarnation
            && (cs[i + 1].procs[x].local.incarnation != cs[i].procs[x].local.incarnation ==>
                  forall a :: IsRecord(cs[i], a) && a.id == x ==> a.incarnation < alive.incarnation)
  {
    RefuteAt(cs, steps, x, r, i);
    NumbersNeverFall(cs, steps, i + 1, j, x);
    AnnounceAt(cs, steps, x, j);
    if cs[i + 1].procs[x].local.incarnation != cs[i].procs[x].local.incarnation {
      OnlyTheOwnerMovesItsNumber(cs, steps, i, x);
    }
  }

  lemma RefuteAt(cs: seq<Cluster>, steps: seq<Step>, x: NodeId, r: WireMember, i: nat)
    requires IsRun(cs, steps) && i < |steps| && steps[i] == Act(x, Action.Refute(r)) && x < |cs[i].procs|
    requires !cs[i].procs[x].local.leaving && r.incarnation < MAX_INCARNATION
    ensures x < |cs[i + 1].procs| && cs[i + 1].procs[x].local.incarnation > r.incarnation
  {
    assert StepAt(cs, steps, i);
    StepOnOne(cs[i], steps[i], x);
    assert DoAct(cs[i].procs[x], cs[i].now, steps[i].act).local == cs[i].procs[x].local.Refute(r.incarnation);
  }

  lemma AnnounceAt(cs: seq<Cluster>, steps: seq<Step>, x: NodeId, j: nat)
    requires IsRun(cs, steps) && j < |steps| && steps[j] == Act(x, Announce) && x < |cs[j].procs|
    ensures x < |cs[j + 1].procs| && ToQueue(cs[j].procs[x].local.AliveRumor()) in cs[j + 1].procs[x].work
  {
    assert StepAt(cs, steps, j);
    StepOnOne(cs[j], steps[j], x);
  }

  /** Any other process that merges an alive rumor above `r` then holds the member
      above `r`, whether its entry was alive, suspect, dead or gone; while the entry
      stays it never falls back to `r`, and no rumor at or below `r` changes it. */
  lemma RefutationWins(cs: seq<Cluster>, steps: seq<Step>, p: nat, alive: WireMember, r: Incarnation, i: nat, j: nat)
    requires IsRun(cs, steps) && i < |steps| && steps[i] == Act(p, Merge(alive)) && alive.id != p
    requires alive.state == WireState.Alive && alive.incarnation > r
    ensures p < |cs[i + 1].procs| && alive.id in cs[i + 1].procs[p].table
    ensures cs[i + 1].procs[p].table[alive.id].incarnation > r
    ensures i < j && HeldThroughout(cs, p, alive.id, i + 1, j) ==> StaysAbove(cs, steps, p, alive.id, r, j)
  {
    RunMerge(cs, steps, i, p, alive);
    if i < j && HeldThroughout(cs, p, alive.id, i + 1, j) {
      EntryNeverFalls(cs, steps, p, alive.id, i + 1, j);
      KeyAbove(cs[i + 1].procs[p].table[alive.id], cs[j].procs[p].table[alive.id], r);
      if j < |steps| && MergesAtMost(steps[j], p, r) {
        RunMerge(cs, steps, j, p, steps[j].act.r);
      }
    }
  }

  predicate MergesAtMost(s: Step, p: nat, r: Incarnation) {
    s.Act? && s.p == p && s.act.Merge? && s.act.r.incarnation <= r
  }

  /** The entry is above `r`, and if the next step merges a rumor at or below `r`
      there, the entry is unchanged. */
  ghost predicate StaysAbove(cs: seq<Cluster>, steps: seq<Step>, p: nat, x: NodeId, r: Incarnation, j: nat)
    requires |cs| == |steps| + 1 && j < |cs| && p < |cs[j].procs| && x in cs[j].procs[p].table
  {
    && cs[j].procs[p].table[x].incarnation > r
    && (j < |steps| && MergesAtMost(steps[j], p, r) ==>
          p < |cs[j + 1].procs| && Lookup(cs[j + 1].procs[p].table, x) == Some(cs[j].procs[p].table[x]))
  }

  lemma KeyAbove(e: Member, later: Member, r: Incarnation)
    requires e.incarnation > r && MemberKey(e) <= MemberKey(later)
    ensures later.incarnation > r
  {
  }

  // ---- Merging and syncing, in a run ---------------------------------------------------

  /** `r` was a record in some state up to the one at `k`. */
  ghost predicate WasRecord(cs: seq<Cluster>, k: nat, r: WireMember)
    requires k < |cs|
  {
    exists i :: 0 <= i <= k && IsRecord(cs[i], r)
  }

  /** Beyond what a flip at the largest incarnation can contradict. */
  predicate Settled(q: Proc, r: WireMember) { r.incarnation < MAX_INCARNATION || !q.flippedAtMax }

  /** Any records about one member from any states of a run are coherent in the
      sense the merge rule needs, except at the largest incarnation of a member
      that flipped there. */
  lemma RecordsAreCoherent(cs: seq<Cluster>, steps: seq<Step>, k: nat, x: NodeId, rumors: set<WireMember>)
    requires IsRun(cs, steps) && k < |cs| && x < |cs[k].procs|
    requires forall r :: r in rumors ==> r.id == x && WasRecord(cs, k, r) && Settled(cs[k].procs[x], r)
    ensures Coherent(rumors)
  {
    forall r | r in rumors ensures Truthful(cs[k].procs, r) {
      var i :| 0 <= i <= k && IsRecord(cs[i], r);
      RecordStaysTrue(cs, steps, i, k, r);
    }
  }

  /** The rumors about `x` that `p` merges from state `i` up to state `j`. */
  function MergedAbout(steps: seq<Step>, p: nat, x: NodeId, i: nat, j: nat): set<WireMember>
    requires i <= j <= |steps|
  {
    if i == j then {}
    else MergedAbout(steps, p, x, i, j - 1) + MergedAt(steps[j - 1], p, x)
  }

  function MergedAt(s: Step, p: nat, x: NodeId): set<WireMember> {
    if s.Act? && s.p == p && s.act.Merge? && s.act.r.id == x then {s.act.r} else {}
  }

  lemma MergedIsRecord(cs: seq<Cluster>, steps: seq<Step>, k: nat, p: nat, x: NodeId, r: WireMember)
    requires IsRun(cs, steps) && k < |steps| && r in MergedAt(steps[k], p, x)
    ensures IsRecord(cs[k], r) && r.id == x
  {
    assert StepAt(cs, steps, k);
    assert ToMerge(r) in cs[k].procs[p].work && r in WorkRecords(ToMerge(r));
    assert ProcHas(cs[k].procs[p], r);
  }

  lemma {:induction false} MergedAreRecords(cs: seq<Cluster>, steps: seq<Step>, p: nat, x: NodeId, i: nat, j: nat, r: WireMember)
    requires IsRun(cs, steps) && i <= j <= |steps| && r in MergedAbout(steps, p, x, i, j)
    ensures r.id == x && WasRecord(cs, j, r)
    decreases j
  {
    if r in MergedAt(steps[j - 1], p, x) {
      MergedIsRecord(cs, steps, j - 1, p, x, r);
    } else {
      MergedAreRecords(cs, steps, p, x, i, j - 1, r);
      var k :| 0 <= k <= j - 1 && IsRecord(cs[k], r);
    }
  }

  /** What the entry was at `i` and everything `p` merged about it since. */
  ghost function Heard(cs: seq<Cluster>, steps: seq<Step>, p: nat, x: NodeId, i: nat, j: nat): set<WireMember>
    requires i <= j <= |steps| < |cs| && p < |cs[i].procs| && x in cs[i].procs[p].table
  {
    MergedAbout(steps, p, x, i, j) + {ToWire(cs[i].procs[p].table[x])}
  }

  /** Over a run, an entry that stays is always one of the highest records it heard. */
  lemma {:induction false} EntryIsHighestHeard(cs: seq<Cluster>, steps: seq<Step>, p: nat, x: NodeId, i: nat, j: nat)
    requires IsRun(cs, steps) && HeldThroughout(cs, p, x, i, j)
    ensures IsMaximum(ToWire(cs[j].procs[p].table[x]), Heard(cs, steps, p, x, i, j))
    decreases j
  {
    if i < j {
      EntryIsHighestHeard(cs, steps, p, x, i, j - 1);
      assert p < |cs[j - 1].procs| && x in cs[j - 1].procs[p].table;
      assert p < |cs[j].procs| && x in cs[j].procs[p].table;
      EntryTakesTheHigher(cs, steps, p, x, j - 1);
      assert Heard(cs, steps, p, x, i, j) == Heard(cs, steps, p, x, i, j - 1) + MergedAt(steps[j - 1], p, x);
    }
  }

  lemma MergedUnderItsAddress(cs: seq<Cluster>, steps: seq<Step>, k: nat, p: nat, x: NodeId, r: WireMember)
    requires IsRun(cs, steps) && k < |steps| && r in MergedAt(steps[k], p, x)
    requires p < |cs[k].procs| && x in cs[k].procs[p].table
    ensures r.addr == cs[k].procs[p].table[x].addr
  {
    MergedIsRecord(cs, steps, k, p, x, r);
    EntryIsRecord(cs, steps, k, p, x);
    IncarnationOwnership(cs, steps, k, r);
    IncarnationOwnership(cs, steps, k, ToWire(cs[k].procs[p].table[x]));
  }

  lemma HigherWins(t: Table, r: WireMember, me: NodeId, now: Time)
    requires r.id in t && r.id != me && t[r.id].id == r.id && t[r.id].addr == r.addr
    ensures var e, t' := ToWire(t[r.id]), MergeTable(t, r, me, now);
            r.id in t' && ToWire(t'[r.id]) == if RumorKey(e) < RumorKey(r) then r else e
  {
  }

  /** One step: the entry stays, or becomes the one rumor merged if that is higher. */
  lemma EntryTakesTheHigher(cs: seq<Cluster>, steps: seq<Step>, p: nat, x: NodeId, k: nat)
    requires IsRun(cs, steps) && k < |steps|
    requires p < |cs[k].procs| && x in cs[k].procs[p].table
    requires p < |cs[k + 1].procs| && x in cs[k + 1].procs[p].table
    ensures var e, e' := ToWire(cs[k].procs[p].table[x]), ToWire(cs[k + 1].procs[p].table[x]);
            && (e' == e || (e' in MergedAt(steps[k], p, x) && RumorKey(e) < RumorKey(e')))
            && forall r :: r in MergedAt(steps[k], p, x) ==> RumorKey(r) <= RumorKey(e')
  {
    if r :| r in MergedAt(steps[k], p, x) {
      RunMerge(cs, steps, k, p, r);
      EntryIsRecord(cs, steps, k, p, x);
      MergedUnderItsAddress(cs, steps, k, p, x, r);
      HigherWins(cs[k].procs[p].table, r, p, cs[k].now);
    } else {
      assert Enabled(cs[k], steps[k]) && cs[k + 1] == Next(cs[k], steps[k]) by { InvAtStep(cs, steps, k); }
      EntryStep(cs[k], steps[k], p, x);
      assert MergedAt(steps[k], p, x) == {};
    }
  }

  /** So in a run the order in which an entry hears things does not matter: it ends as
      the only highest record among them. */
  lemma EntryIsTheMaximumOfWhatItHeard(cs: seq<Cluster>, steps: seq<Step>, p: nat, x: NodeId, i: nat, j: nat, r: WireMember)
    requires IsRun(cs, steps) && HeldThroughout(cs, p, x, i, j) && x < |cs[j].procs|
    requires forall a :: a in Heard(cs, steps, p, x, i, j) ==> Settled(cs[j].procs[x], a)
    ensures ToWire(cs[j].procs[p].table[x]) == r <==> IsMaximum(r, Heard(cs, steps, p, x, i, j))
  {
    var heard, top := Heard(cs, steps, p, x, i, j), ToWire(cs[j].procs[p].table[x]);
    EntryIsHighestHeard(cs, steps, p, x, i, j);
    EntryIsRecord(cs, steps, i, p, x);
    forall a | a in heard ensures a.id == x && WasRecord(cs, j, a) {
      if a in MergedAbout(steps, p, x, i, j) {
        MergedAreRecords(cs, steps, p, x, i, j, a);
      }
    }
    RecordsAreCoherent(cs, steps, j, x, heard);
    if IsMaximum(r, heard) {
      MaximumIsUnique(r, top, heard);
    }
  }

  function AgentAt(c: Cluster, p: nat): Agent
    requires p < |c.procs|
  {
    Agent(c.procs[p].local, c.procs[p].table, c.procs[p].queue)
  }

  lemma TablesAreSound(cs: seq<Cluster>, steps: seq<Step>, k: nat, p: nat)
    requires IsRun(cs, steps) && k < |cs| && p < |cs[k].procs|
    ensures TableSound(AgentAt(cs[k], p)) && cs[k].procs[p].local.id == p
  {
    RunKeepsInv(cs, steps, k);
    var c := cs[k];
    assert ProcOk(c.procs[p], p) && ProcHolds(c.procs[p], Truth(c.procs));
    forall x | x in c.procs[p].table ensures !c.procs[p].table[x].addr.ip.IsUnspecified() {
      assert Truthful(c.procs, ToWire(c.procs[p].table[x]));
      assert ProcOk(c.procs[c.procs[p].table[x].id], c.procs[p].table[x].id);
    }
  }

  /** Two tables of one state conflict about a member only at the largest incarnation,
      and only if it flipped there. */
  lemma TablesCohere(cs: seq<Cluster>, steps: seq<Step>, k: nat, p: nat, q: nat, id: NodeId)
    requires IsRun(cs, steps) && k < |cs| && p < |cs[k].procs| && q < |cs[k].procs|
    requires Sync.Conflict(Lookup(cs[k].procs[p].table, id), Lookup(cs[k].procs[q].table, id))
    ensures id < |cs[k].procs| && cs[k].procs[id].flippedAtMax
    ensures cs[k].procs[p].table[id].incarnation == MAX_INCARNATION
  {
    var t, u := cs[k].procs[p].table, cs[k].procs[q].table;
    EntryIsRecord(cs, steps, k, p, id);
    EntryIsRecord(cs, steps, k, q, id);
    RecordCoherence(cs, steps, k, k, ToWire(t[id]), ToWire(u[id]));
  }

  /** In every state of every run, an uninterrupted exchange between any two processes
      leaves both with the same view of every third member that has not flipped at
      the largest incarnation, and each holding the other at no less than it
      introduced itself with. */
  lemma SyncInAnyRunMakesViewsEqual(cs: seq<Cluster>, steps: seq<Step>, k: nat, p: nat, q: nat, a': Agent, b': Agent, sa: seq<WireMember>, sb: seq<WireMember>, atA: Time, atB: Time)
    requires IsRun(cs, steps) && k < |cs| && p < |cs[k].procs| && q < |cs[k].procs| && p != q
    requires Sync.Exchange(AgentAt(cs[k], p), AgentAt(cs[k], q), a', b', sa, sb, atA, atB)
    ensures forall id: NodeId :: id != p && id != q && (id < |cs[k].procs| ==> !cs[k].procs[id].flippedAtMax) ==>
      Sync.ViewOf(Lookup(a'.table, id)) == Sync.ViewOf(Lookup(b'.table, id))
    ensures q in a'.table && a'.table[q].incarnation >= cs[k].procs[q].local.incarnation
    ensures p in b'.table && b'.table[p].incarnation >= cs[k].procs[p].local.incarnation
  {
    var a, b := AgentAt(cs[k], p), AgentAt(cs[k], q);
    TablesAreSound(cs, steps, k, p);
    TablesAreSound(cs, steps, k, q);
    Sync.SyncMakesViewsEqual(a, b, a', b', sa, sb, atA, atB);
    forall id: NodeId | Sync.Conflict(Lookup(a.table, id), Lookup(b.table, id))
      ensures id < |cs[k].procs| && cs[k].procs[id].flippedAtMax
    {
      TablesCohere(cs, steps, k, p, q, id);
    }
  }

  lemma EntryIsRecord(cs: seq<Cluster>, steps: seq<Step>, k: nat, p: nat, id: NodeId)
    requires IsRun(cs, steps) && k < |cs| && p < |cs[k].procs| && id in cs[k].procs[p].table
    ensures IsRecord(cs[k], ToWire(cs[k].procs[p].table[id]))
    ensures cs[k].procs[p].table[id].id == id < |cs[k].procs|
  {
    RunKeepsInv(cs, steps, k);
    EntryIsTrue(cs[k], p, id);
    assert ProcHas(cs[k].procs[p], ToWire(cs[k].procs[p].table[id]));
  }
}
