/** Where things in a run come from: every doubt, every death and every removal has its
    cause earlier in the run. */
module ClusterHistory {
  import opened Types
  import opened LocalNodes
  import opened MemberTables
  import opened GossipQueues
  import opened Cluster
  import opened ClusterInvariants
  import opened ClusterTheorems

  /** What one of its steps adds to what a process holds. */
  ghost predicate AddedBy(c: Cluster, s: Step, p: nat, w: Work) {
    && s.Act? && s.p == p && Enabled(c, s)
    && w in Adds(c.procs[p], s.act)
  }

  lemma HeldOrAdded(c: Cluster, s: Step, p: nat, w: Work)
    requires Enabled(c, s) && p < |Next(c, s).procs| && w in Next(c, s).procs[p].work
    ensures AddedBy(c, s, p, w) || (p < |c.procs| && w in c.procs[p].work)
  {
  }

  /** Whatever a task holds, an earlier step of its process put there. */
  lemma {:induction false} WorkWasAdded(cs: seq<Cluster>, steps: seq<Step>, k: nat, p: nat, w: Work) returns (i: nat)
    requires IsRun(cs, steps) && k < |cs| && p < |cs[k].procs| && w in cs[k].procs[p].work
    ensures i < k && AddedBy(cs[i], steps[i], p, w)
    decreases k
  {
    if k == 0 {
      assert false;
    }
    i := k - 1;
    assert StepAt(cs, steps, i);
    HeldOrAdded(cs[i], steps[i], p, w);
    if !AddedBy(cs[i], steps[i], p, w) {
      i := WorkWasAdded(cs, steps, k - 1, p, w);
    }
  }

  lemma DoubtsAreAdded(c: Cluster, s: Step, p: nat, r: WireMember)
    requires AddedBy(c, s, p, ToRefute(r)) && c.procs[p].local.id == p
    ensures r.id == p && r.state != WireState.Alive
  {
    if s.act.Receive? {
      TodoHas(MessageRecords(s.act.m), ToRefute(r));
    }
  }

  lemma SweepsAreAdded(c: Cluster, s: Step, p: nat, r: WireMember)
    requires AddedBy(c, s, p, Sweeping(r)) && WellFormed(c.procs[p].table)
    ensures Buries(c, s, r.id)
  {
    if s.act.Receive? {
      TodoHas(MessageRecords(s.act.m), Sweeping(r));
    }
  }

  lemma ReapsAreAdded(c: Cluster, s: Step, p: nat, x: NodeId)
    requires AddedBy(c, s, p, Work.Reaping(x))
    ensures s == Act(p, ScanDead(x)) && LongDead(c, p, x)
  {
    if s.act.Receive? {
      TodoHas(MessageRecords(s.act.m), Work.Reaping(x));
    }
  }

  // ---- Numbers move for a reason ----------------------------------------------------

  lemma IdIsPlace(cs: seq<Cluster>, steps: seq<Step>, k: nat, p: nat)
    requires IsRun(cs, steps) && k < |cs| && p < |cs[k].procs|
    ensures cs[k].procs[p].local.id == p && WellFormed(cs[k].procs[p].table)
  {
    RunKeepsInv(cs, steps, k);
    assert ProcOk(cs[k].procs[p], p);
  }

  /** A node only ever refutes a record that doubts the node itself. */
  lemma RefutesOnlyDoubts(cs: seq<Cluster>, steps: seq<Step>, k: nat, x: NodeId, r: WireMember)
    requires IsRun(cs, steps) && k < |steps| && steps[k] == Act(x, Action.Refute(r))
    ensures r.id == x && r.state != WireState.Alive && IsRecord(cs[k], r)
  {
    assert StepAt(cs, steps, k);
    var i := WorkWasAdded(cs, steps, k, x, ToRefute(r));
    IdIsPlace(cs, steps, i, x);
    DoubtsAreAdded(cs[i], steps[i], x, r);
    assert r in WorkRecords(ToRefute(r));
    assert ProcHas(cs[k].procs[x], r);
  }

  /** While no record anywhere doubts it and its readiness does not change, a node's number
      stays what it is, whatever else it hears, its own alive rumors included. */
  lemma {:induction false} UndoubtedNumberStays(cs: seq<Cluster>, steps: seq<Step>, i: nat, j: nat, x: NodeId)
    requires IsRun(cs, steps) && i <= j < |cs| && x < |cs[i].procs|
    requires forall k, r :: i <= k < j && IsRecord(cs[k], r) && r.id == x ==> r.state == WireState.Alive
    requires forall k :: i <= k < j ==> !(steps[k].Act? && steps[k].p == x && steps[k].act.Flip?)
    ensures x < |cs[j].procs| && cs[j].procs[x].local.incarnation == cs[i].procs[x].local.incarnation
    decreases j
  {
    if i < j {
      UndoubtedNumberStays(cs, steps, i, j - 1, x);
      NumbersNeverFall(cs, steps, j - 1, j, x);
      if cs[j].procs[x].local.incarnation != cs[j - 1].procs[x].local.incarnation {
        OnlyTheOwnerMovesItsNumber(cs, steps, j - 1, x);
        RefutesOnlyDoubts(cs, steps, j - 1, x, steps[j - 1].act.r);
      }
    }
  }

  /** The step changes the readiness of `x` at the largest incarnation. */
  ghost predicate FlipsAtTheTop(c: Cluster, s: Step, x: NodeId) {
    && s.Act? && s.p == x < |c.procs| && s.act.Flip?
    && c.procs[x].local.incarnation == 0xFFFF_FFFF && !c.procs[x].local.leaving && c.procs[x].local.ready != s.act.ready
  }

  lemma FlagIsSetByAFlip(c: Cluster, s: Step, x: NodeId)
    requires Enabled(c, s) && x < |Next(c, s).procs| && Next(c, s).procs[x].flippedAtMax
    ensures FlipsAtTheTop(c, s, x) || (x < |c.procs| && c.procs[x].flippedAtMax)
  {
  }

  /** Records of a member may contradict each other only after it changed its readiness at
      the largest incarnation. */
  lemma {:induction false} FlippedMeansItFlipped(cs: seq<Cluster>, steps: seq<Step>, k: nat, x: NodeId) returns (i: nat)
    requires IsRun(cs, steps) && k < |cs| && x < |cs[k].procs| && cs[k].procs[x].flippedAtMax
    ensures i < k && FlipsAtTheTop(cs[i], steps[i], x)
    decreases k
  {
    if k == 0 {
      assert false;
    }
    i := k - 1;
    assert StepAt(cs, steps, i);
    FlagIsSetByAFlip(cs[i], steps[i], x);
    if !FlipsAtTheTop(cs[i], steps[i], x) {
      i := FlippedMeansItFlipped(cs, steps, k - 1, x);
    }
  }

  // ---- Doubts and deaths have causes ------------------------------------------------

  /** The step announces that `x` is leaving, or finds it suspected for five seconds. */
  ghost predicate Buries(c: Cluster, s: Step, x: NodeId) {
    && s.Act? && s.p < |c.procs|
    && ((s.p == x && s.act.SendLeave? && c.procs[x].local.leaving)
        || (s.act == ScanSuspect(x) && x in c.procs[s.p].table
            && c.procs[s.p].table[x].state.Suspect? && c.now >= c.procs[s.p].table[x].state.since + 5_000))
  }

  ghost predicate Buried(cs: seq<Cluster>, steps: seq<Step>, k: nat, x: NodeId)
    requires k <= |steps| < |cs|
  {
    exists i :: 0 <= i < k && Buries(cs[i], steps[i], x)
  }

  /** Some process's probe of `x` failed. */
  ghost predicate Doubted(steps: seq<Step>, k: nat, x: NodeId)
    requires k <= |steps|
  {
    exists i :: 0 <= i < k && steps[i].Act? && steps[i].act.ProbeFailed? && steps[i].act.r.id == x
  }

  ghost function Caused(cs: seq<Cluster>, steps: seq<Step>, k: nat): WireMember -> bool
    requires k <= |steps| < |cs|
  {
    (r: WireMember) =>
      && (r.state == WireState.Dead ==> Buried(cs, steps, k, r.id))
      && (r.state == WireState.Suspect ==> Doubted(steps, k, r.id))
  }

  lemma SweptWasSuspected(cs: seq<Cluster>, steps: seq<Step>, k: nat, p: nat, r: WireMember)
    requires IsRun(cs, steps) && k < |cs| && p < |cs[k].procs| && Sweeping(r) in cs[k].procs[p].work
    ensures Buried(cs, steps, k, r.id)
  {
    var i := WorkWasAdded(cs, steps, k, p, Sweeping(r));
    IdIsPlace(cs, steps, i, p);
    SweepsAreAdded(cs[i], steps[i], p, r);
  }

  lemma StepAllowsCaused(cs: seq<Cluster>, steps: seq<Step>, k: nat)
    requires IsRun(cs, steps) && k < |steps| && steps[k].Act?
    ensures Enabled(cs[k], steps[k])
    ensures Allows(cs[k].procs[steps[k].p], steps[k].act, Caused(cs, steps, k + 1))
  {
    assert StepAt(cs, steps, k);
    var p, act := steps[k].p, steps[k].act;
    IdIsPlace(cs, steps, k, p);
    if act.DeclareDead? {
      SweptWasSuspected(cs, steps, k, p, act.r);
      assert Buried(cs, steps, k + 1, act.r.id) by {
        var i :| 0 <= i < k && Buries(cs[i], steps[i], act.r.id);
      }
    } else if act.SendLeave? {
      assert Buries(cs[k], steps[k], p);
    } else if act.ProbeFailed? {
      assert Doubted(steps, k + 1, act.r.id);
    }
  }

  lemma CausesAdd(cs: seq<Cluster>, steps: seq<Step>, k: nat, r: WireMember)
    requires k < |steps| < |cs| && Caused(cs, steps, k)(r)
    ensures Caused(cs, steps, k + 1)(r)
  {
    if r.state == WireState.Dead {
      var i :| 0 <= i < k && Buries(cs[i], steps[i], r.id);
    } else if r.state == WireState.Suspect {
      var i :| 0 <= i < k && steps[i].Act? && steps[i].act.ProbeFailed? && steps[i].act.r.id == r.id;
    }
  }

  lemma OtherStepsHold(c: Cluster, s: Step, P: WireMember -> bool)
    requires Enabled(c, s) && !s.Act? && Holds(c, P)
    ensures Holds(Next(c, s), P)
  {
  }

  lemma CausesStep(cs: seq<Cluster>, steps: seq<Step>, k: nat)
    requires IsRun(cs, steps) && k < |steps| && Holds(cs[k], Caused(cs, steps, k))
    ensures Holds(cs[k + 1], Caused(cs, steps, k + 1))
  {
    var c, s, P, Q := cs[k], steps[k], Caused(cs, steps, k), Caused(cs, steps, k + 1);
    InvAtStep(cs, steps, k);
    forall r | P(r) ensures Q(r) { CausesAdd(cs, steps, k, r); }
    HoldsStillTrue(c, P, Q);
    if s.Act? {
      StepAllowsCaused(cs, steps, k);
      assert ProcOk(c.procs[s.p], s.p);
      ActKeepsHolds(c, s.p, s.act, Q);
    } else {
      OtherStepsHold(c, s, Q);
    }
  }

  lemma {:induction false} CausesHold(cs: seq<Cluster>, steps: seq<Step>, k: nat)
    requires IsRun(cs, steps) && k < |cs|
    ensures Holds(cs[k], Caused(cs, steps, k))
    decreases k
  {
    if k > 0 {
      CausesHold(cs, steps, k - 1);
      CausesStep(cs, steps, k - 1);
    }
  }

  /** In every run, a member is anywhere said to be dead only after it announced that it
      was leaving or some process held it suspected for five seconds, and said to be
      suspect only after a probe of it failed. */
  lemma DeathHasACause(cs: seq<Cluster>, steps: seq<Step>, k: nat, r: WireMember)
    requires IsRun(cs, steps) && k < |cs| && IsRecord(cs[k], r)
    ensures r.state == WireState.Dead ==> Buried(cs, steps, k, r.id)
    ensures r.state == WireState.Suspect ==> Doubted(steps, k, r.id)
  {
    CausesHold(cs, steps, k);
    HoldsForEveryRecord(cs[k], Caused(cs, steps, k), r);
  }

  // ---- Removals have causes -----------------------------------------------------------

  /** The entry, as it was there, had been dead for thirty seconds. */
  ghost predicate LongDead(c: Cluster, p: nat, x: NodeId) {
    && p < |c.procs| && x in c.procs[p].table
    && c.procs[p].table[x].state.Dead? && c.now >= c.procs[p].table[x].state.since + 30_000
  }

  lemma OnlyReapsRemove(c: Cluster, s: Step, p: nat, x: NodeId)
    requires Enabled(c, s) && p < |c.procs| && x in c.procs[p].table
    requires p < |Next(c, s).procs| && Next(c, s).procs[p].up && x !in Next(c, s).procs[p].table
    ensures s == Act(p, Reap(x))
  {
    StepOnOne(c, s, p);
  }

  /** In every run, a process that goes on running forgets a member only by a reap, which
      found it dead for thirty seconds in that very table earlier. */
  lemma ForgottenOnlyWhenLongDead(cs: seq<Cluster>, steps: seq<Step>, k: nat, p: nat, x: NodeId) returns (i: nat)
    requires IsRun(cs, steps) && k < |steps|
    requires p < |cs[k].procs| && x in cs[k].procs[p].table
    requires p < |cs[k + 1].procs| && cs[k + 1].procs[p].up && x !in cs[k + 1].procs[p].table
    ensures steps[k] == Act(p, Reap(x))
    ensures i < k && steps[i] == Act(p, ScanDead(x)) && LongDead(cs[i], p, x)
  {
    assert StepAt(cs, steps, k);
    OnlyReapsRemove(cs[k], steps[k], p, x);
    i := WorkWasAdded(cs, steps, k, p, Work.Reaping(x));
    ReapsAreAdded(cs[i], steps[i], p, x);
  }
}
