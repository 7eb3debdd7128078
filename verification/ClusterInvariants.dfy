/** What holds in every state of every run of the cluster. */
module ClusterInvariants {
  import opened Types
  import opened LocalNodes
  import opened MemberTables
  import opened GossipQueues
  import opened Cluster

  // ---- Statements about every record ----------------------------------------------

  ghost predicate ProcHolds(q: Proc, P: WireMember -> bool) {
    && (forall id :: id in q.table ==> P(ToWire(q.table[id])))
    && (forall i :: 0 <= i < |q.queue| ==> P(q.queue[i].rumor))
    && (forall w :: w in q.work ==> WorkHolds(w, P))
  }

  ghost predicate WorkHolds(w: Work, P: WireMember -> bool) { AllHold(WorkRecords(w), P) }

  ghost predicate AllHold(rs: seq<WireMember>, P: WireMember -> bool) {
    forall i :: 0 <= i < |rs| ==> P(rs[i])
  }

  ghost predicate NetHolds(net: set<Message>, P: WireMember -> bool) {
    forall m :: m in net ==> AllHold(MessageRecords(m), P)
  }

  ghost predicate Holds(c: Cluster, P: WireMember -> bool) {
    NetHolds(c.net, P) && forall i :: 0 <= i < |c.procs| ==> ProcHolds(c.procs[i], P)
  }

  lemma HoldsForEveryRecord(c: Cluster, P: WireMember -> bool, r: WireMember)
    requires Holds(c, P) && IsRecord(c, r)
    ensures P(r)
  {
    if NetHas(c.net, r) {
      var m :| m in c.net && r in MessageRecords(m);
      assert AllHold(MessageRecords(m), P);
    } else {
      var i :| 0 <= i < |c.procs| && ProcHas(c.procs[i], r);
      var q := c.procs[i];
      if w :| w in q.work && r in WorkRecords(w) {
        assert WorkHolds(w, P);
      }
    }
  }

  function Readdressed(r: WireMember, x: WireMember): WireMember { r.(addr := x.addr) }

  /** An entry updated under its own address. */
  ghost predicate KeptByUpdates(P: WireMember -> bool) {
    forall r, x {:trigger Readdressed(r, x)} :: P(r) && P(x) && r.id == x.id ==> P(Readdressed(r, x))
  }

  /** What tasks make out of records they hold: a suspicion of a member not dead, an
      obituary of a suspect, and an entry updated under its own address. */
  ghost predicate Closed(P: WireMember -> bool) {
    && (forall r {:trigger Suspected(r)} :: P(r) && r.state != WireState.Dead ==> P(Suspected(r)))
    && (forall r {:trigger Obituary(r)} :: P(r) && r.state == WireState.Suspect ==> P(Obituary(r)))
    && KeptByUpdates(P)
  }

  /** Whatever new this one step says has the property. */
  ghost predicate Allows(q: Proc, act: Action, P: WireMember -> bool) {
    && (act.ProbeFailed? ==> P(Suspected(act.r)))
    && (act.DeclareDead? ==> P(Obituary(act.r)))
    && KeptByUpdates(P)
    && P(q.local.AliveRumor())
    && (act.SendLeave? ==> P(LeaveRumor(q.local.Identity())))
  }

  /** What a running process says about itself. */
  ghost predicate OwnWordHolds(q: Proc, P: WireMember -> bool) {
    q.up ==> P(q.local.AliveRumor()) && (q.local.leaving ==> P(LeaveRumor(q.local.Identity())))
  }

  /** The copies tasks hold are of the kind they were made from. */
  ghost predicate ItemOk(w: Work) {
    match w
    case Probing(r) => r.state != WireState.Dead
    case Sweeping(r) => r.state == WireState.Suspect
    case Batched(g) => |g| <= MAX_PIGGYBACK
    case _ => true
  }

  ghost predicate WorkOk(q: Proc) {
    WellFormed(q.table) && forall w :: w in q.work ==> ItemOk(w)
  }

  lemma {:induction false} TodoHas(rumors: seq<WireMember>, w: Work)
    requires w in Todo(rumors)
    ensures w.ToMerge? && w.rumor in rumors
    decreases |rumors|
  {
    if rumors != [] && w != ToMerge(rumors[0]) {
      TodoHas(rumors[1..], w);
    }
  }

  lemma AddsAreOk(q: Proc, net: set<Message>, now: Time, act: Action, w: Work)
    requires CanAct(q, net, now, act) && w in Adds(q, act)
    ensures ItemOk(w)
  {
    match act {
      case Receive(m) => TodoHas(MessageRecords(m), w);
      case Merge(r) => assert w in AfterMerge(q, r);
      case PickTarget(x) => assert w == Probing(ToWire(q.table[x]));
      case ScanSuspect(x) => assert w == Sweeping(ToWire(q.table[x]));
      case TakeBatch => assert w == Batched(Batch(q.queue));
      case _ =>
    }
  }

  lemma ActKeepsWorkOk(q: Proc, net: set<Message>, now: Time, act: Action)
    requires CanAct(q, net, now, act) && WorkOk(q)
    ensures WorkOk(DoAct(q, now, act))
  {
    if !act.Stop? {
      forall w | w in DoAct(q, now, act).work ensures ItemOk(w) {
        if w !in q.work {
          AddsAreOk(q, net, now, act, w);
        }
      }
    }
  }

  lemma MergeHolds(q: Proc, P: WireMember -> bool, r: WireMember, now: Time)
    requires ProcHolds(q, P) && WellFormed(q.table) && KeptByUpdates(P) && P(r)
    ensures var t := MergeTable(q.table, r, q.local.id, now);
            forall id :: id in t ==> P(ToWire(t[id]))
  {
    if r.id in q.table {
      var m := q.table[r.id];
      assert ToWire(Overwrite(m, r, now)) == Readdressed(r, ToWire(m));
    }
    assert ToWire(FromWire(r, now)) == r;
  }

  lemma QueueHolds(q: Proc, P: WireMember -> bool, r: WireMember, size: nat)
    requires ProcHolds(q, P) && P(r)
    ensures var queue := PushQueue(q.queue, r, size);
            forall i :: 0 <= i < |queue| ==> P(queue[i].rumor)
  {
    var queue := PushQueue(q.queue, r, size);
    forall i | 0 <= i < |queue| ensures P(queue[i].rumor) {
      if i < |queue| - 1 {
        WithoutHas(q.queue, r.id);
        assert queue[i] in Without(q.queue, r.id);
        var j :| 0 <= j < |q.queue| && q.queue[j] == queue[i];
      }
    }
  }

  lemma TakeHolds(q: Proc, P: WireMember -> bool)
    requires ProcHolds(q, P)
    ensures forall i :: 0 <= i < |AfterTake(q.queue)| ==> P(AfterTake(q.queue)[i].rumor)
    ensures AllHold(Batch(q.queue), P)
  {
    forall i | 0 <= i < |AfterTake(q.queue)| ensures P(AfterTake(q.queue)[i].rumor) {
      var x := TakeKeepsRumors(q.queue, AfterTake(q.queue)[i]);
      var j :| 0 <= j < |q.queue| && q.queue[j] == x;
    }
    forall i | 0 <= i < |Batch(q.queue)| ensures P(Batch(q.queue)[i]) {
      var x := BatchComesFromQueue(q.queue, Batch(q.queue)[i]);
      var j :| 0 <= j < |q.queue| && q.queue[j] == x;
    }
  }

  lemma Held(q: Proc, w: Work, P: WireMember -> bool)
    requires ProcHolds(q, P) && w in q.work && WorkRecords(w) != []
    ensures P(WorkRecords(w)[0])
  {
    assert WorkHolds(w, P);
  }

  /** Work that hands a record on as it is, or builds one out of it. */
  lemma PassedOnHolds(q: Proc, net: set<Message>, now: Time, act: Action, P: WireMember -> bool, w: Work)
    requires CanAct(q, net, now, act) && ProcHolds(q, P) && Allows(q, act, P)
    requires act.Merge? || act.ProbeFailed? || act.DeclareDead?
    requires w in Adds(q, act)
    ensures WorkHolds(w, P)
  {
    match act {
      case Merge(r) =>
        Held(q, ToMerge(r), P);
        assert WorkRecords(w) == [r];
      case ProbeFailed(r) =>
        assert WorkRecords(w) == [Suspected(r)];
      case DeclareDead(r) =>
        assert WorkRecords(w) == [Obituary(r)];
    }
  }

  /** Work copied out of the table or the queue. */
  lemma CopiedHolds(q: Proc, net: set<Message>, now: Time, act: Action, P: WireMember -> bool, w: Work)
    requires CanAct(q, net, now, act) && ProcHolds(q, P)
    requires act.PickTarget? || act.ScanSuspect? || act.TakeBatch? || act.TakeSnapshot?
    requires w in Adds(q, act)
    ensures WorkHolds(w, P)
  {
    match act {
      case PickTarget(x) => assert WorkRecords(w) == [ToWire(q.table[x])];
      case ScanSuspect(x) => assert WorkRecords(w) == [ToWire(q.table[x])];
      case TakeBatch => TakeHolds(q, P);
      case TakeSnapshot(members) =>
        forall i | 0 <= i < |members| ensures P(members[i]) {
          assert P(ToWire(q.table[members[i].id]));
        }
    }
  }

  lemma AddsHold(q: Proc, net: set<Message>, now: Time, act: Action, P: WireMember -> bool, w: Work)
    requires CanAct(q, net, now, act) && WorkOk(q)
    requires ProcHolds(q, P) && NetHolds(net, P) && Allows(q, act, P)
    requires w in Adds(q, act)
    ensures WorkHolds(w, P)
  {
    if act.Merge? || act.ProbeFailed? || act.DeclareDead? {
      PassedOnHolds(q, net, now, act, P, w);
    } else if act.PickTarget? || act.ScanSuspect? || act.TakeBatch? || act.TakeSnapshot? {
      CopiedHolds(q, net, now, act, P, w);
    } else if act.Receive? {
      TodoHas(MessageRecords(act.m), w);
      assert AllHold(MessageRecords(act.m), P);
    } else {
      assert w == ToAnnounce || w == ToQueue(q.local.AliveRumor()) || w.Reaping? || w == Introduced(q.local.Identity());
    }
  }

  lemma NextTableHolds(q: Proc, net: set<Message>, now: Time, act: Action, P: WireMember -> bool)
    requires CanAct(q, net, now, act) && WorkOk(q) && ProcHolds(q, P) && Allows(q, act, P)
    ensures forall id :: id in NextTable(q, now, act) ==> P(ToWire(NextTable(q, now, act)[id]))
  {
    if act.Merge? {
      Held(q, ToMerge(act.r), P);
      MergeHolds(q, P, act.r, now);
    }
  }

  lemma NextQueueHolds(q: Proc, net: set<Message>, now: Time, act: Action, P: WireMember -> bool)
    requires CanAct(q, net, now, act) && ProcHolds(q, P)
    ensures forall i :: 0 <= i < |NextQueue(q, act)| ==> P(NextQueue(q, act)[i].rumor)
  {
    if act.Queue? {
      Held(q, ToQueue(act.r), P);
      QueueHolds(q, P, act.r, act.clusterSize);
    } else if act.TakeBatch? {
      TakeHolds(q, P);
    }
  }

  lemma NextWorkHolds(q: Proc, net: set<Message>, now: Time, act: Action, P: WireMember -> bool)
    requires CanAct(q, net, now, act) && WorkOk(q)
    requires ProcHolds(q, P) && NetHolds(net, P) && Allows(q, act, P)
    ensures forall w :: w in q.work - Consumes(act) + Adds(q, act) ==> WorkHolds(w, P)
  {
    forall w | w in q.work - Consumes(act) + Adds(q, act) ensures WorkHolds(w, P) {
      if w !in q.work {
        AddsHold(q, net, now, act, P, w);
      }
    }
  }

  lemma ClosedAllows(q: Proc, net: set<Message>, now: Time, act: Action, P: WireMember -> bool)
    requires CanAct(q, net, now, act) && WorkOk(q) && ProcHolds(q, P) && Closed(P) && OwnWordHolds(q, P)
    ensures Allows(q, act, P)
  {
    if act.ProbeFailed? {
      Held(q, Probing(act.r), P);
      assert ItemOk(Probing(act.r));
    } else if act.DeclareDead? {
      Held(q, Sweeping(act.r), P);
      assert ItemOk(Sweeping(act.r));
    }
  }

  /** Every step makes its records out of records it had and what it says new: whatever
      holds of all of these goes on holding of all of them. */
  lemma ActHolds(q: Proc, net: set<Message>, now: Time, act: Action, P: WireMember -> bool)
    requires CanAct(q, net, now, act) && WorkOk(q)
    requires ProcHolds(q, P) && NetHolds(net, P) && Allows(q, act, P)
    ensures ProcHolds(DoAct(q, now, act), P)
  {
    NextTableHolds(q, net, now, act, P);
    NextQueueHolds(q, net, now, act, P);
    NextWorkHolds(q, net, now, act, P);
  }

  lemma SentHolds(q: Proc, net: set<Message>, now: Time, act: Action, P: WireMember -> bool)
    requires CanAct(q, net, now, act) && ProcHolds(q, P) && Allows(q, act, P)
    ensures NetHolds(Sent(q, act), P)
  {
    match act {
      case SendUdp(body) => assert WorkHolds(Batched(body.gossip), P);
      case SendTcp(body) => SendTcpHolds(q, body, P);
      case _ =>
    }
  }

  lemma SendTcpHolds(q: Proc, body: TcpBody, P: WireMember -> bool)
    requires CanSendTcp(q, body) && ProcHolds(q, P)
    ensures AllHold(MessageRecords(Tcp(body)), P)
  {
    if !body.MembersRequest? {
      assert WorkHolds(Introduced(body.from), P) && P(WorkRecords(Introduced(body.from))[0]);
    }
    if !body.MembersRequest? && !body.JoinRequest? {
      assert WorkHolds(Snapshotted(body.members), P);
    }
  }

  lemma ReplaceHolds(c: Cluster, p: nat, q: Proc, sent: set<Message>, P: WireMember -> bool)
    requires p < |c.procs| && Holds(c, P) && ProcHolds(q, P) && NetHolds(sent, P)
    ensures Holds(Cluster(c.procs[p := q], c.net + sent, c.now), P)
  {
  }

  lemma ActKeepsHolds(c: Cluster, p: nat, act: Action, P: WireMember -> bool)
    requires Enabled(c, Act(p, act)) && WorkOk(c.procs[p])
    requires Holds(c, P) && Allows(c.procs[p], act, P)
    ensures Holds(Next(c, Act(p, act)), P)
  {
    ActHolds(c.procs[p], c.net, c.now, act, P);
    SentHolds(c.procs[p], c.net, c.now, act, P);
    ReplaceHolds(c, p, DoAct(c.procs[p], c.now, act), Sent(c.procs[p], act), P);
  }

  // ---- The invariant ----------------------------------------------------------------

  /** `r` says of its member what that member stood for at that incarnation, under
      its own address and tags, and no more than it has announced so far. At the
      largest incarnation the readiness half lapses for a member that flipped there. */
  ghost predicate Truthful(procs: seq<Proc>, r: WireMember) {
    r.id < |procs| && TrueOf(procs[r.id], r)
  }

  ghost predicate TrueOf(q: Proc, r: WireMember) {
    && r.addr == q.local.addr && r.tags == q.local.tags
    && r.incarnation <= q.local.incarnation
    && r.incarnation in q.said
    && (r.incarnation < MAX_INCARNATION || !q.flippedAtMax ==> q.said[r.incarnation] == r.ready)
  }

  ghost function Truth(procs: seq<Proc>): WireMember -> bool { r => Truthful(procs, r) }

  ghost predicate ProcOk(q: Proc, id: NodeId) {
    && q.local.id == id && id !in q.table
    && !q.local.addr.ip.IsUnspecified() && CheckTags(q.local.tags)
    && q.local.incarnation in q.said && q.said[q.local.incarnation] == q.local.ready
    && (forall k :: k in q.said ==> k <= q.local.incarnation)
    && WorkOk(q)
  }

  /** A Leave is only sent by a node that is leaving, and nothing it says of itself
      changes after that. A datagram's gossip is one batch. */
  ghost predicate MessageOk(procs: seq<Proc>, m: Message) {
    m.Udp? ==>
      if m.udp.Leave? then
        && m.udp.from.id < |procs|
        && procs[m.udp.from.id].local.leaving
        && m.udp.from == procs[m.udp.from.id].local.Identity()
      else |m.udp.gossip| <= MAX_PIGGYBACK && Truthful(procs, IntoMember(m.udp.from))
  }

  ghost predicate Inv(c: Cluster) {
    && (forall i :: 0 <= i < |c.procs| ==> ProcOk(c.procs[i], i))
    && (forall m :: m in c.net ==> MessageOk(c.procs, m))
    && Holds(c, Truth(c.procs))
  }

  lemma TruthIsClosed(procs: seq<Proc>)
    ensures Closed(Truth(procs))
  {
  }

  lemma HoldsWeaker(q: Proc, net: set<Message>, P: WireMember -> bool, Q: WireMember -> bool)
    requires forall r {:trigger P(r)} {:trigger Q(r)} :: P(r) ==> Q(r)
    ensures ProcHolds(q, P) ==> ProcHolds(q, Q)
    ensures NetHolds(net, P) ==> NetHolds(net, Q)
  {
    forall w | w in q.work && WorkHolds(w, P) ensures WorkHolds(w, Q) {}
    forall m | m in net && AllHold(MessageRecords(m), P) ensures AllHold(MessageRecords(m), Q) {}
  }

  /** Nothing a process does makes an earlier truthful record about it untruthful. */
  lemma ActKeepsOwnTruth(procs: seq<Proc>, p: nat, net: set<Message>, now: Time, act: Action, r: WireMember)
    requires p < |procs| && ProcOk(procs[p], p) && CanAct(procs[p], net, now, act)
    requires Truthful(procs, r)
    ensures Truthful(procs[p := DoAct(procs[p], now, act)], r)
  {
    if r.id == p {
      ActKeepsTrueOf(procs[p], now, act, r);
    }
  }

  lemma ActKeepsTrueOf(q: Proc, now: Time, act: Action, r: WireMember)
    requires act.PickTarget? || act.ScanSuspect? ==> act.x in q.table
    requires q.local.incarnation in q.said && q.said[q.local.incarnation] == q.local.ready
    requires TrueOf(q, r)
    ensures TrueOf(DoAct(q, now, act), r)
  {
  }

  lemma ActKeepsSaid(q: Proc, now: Time, act: Action)
    requires act.PickTarget? || act.ScanSuspect? ==> act.x in q.table
    requires q.local.incarnation in q.said && q.said[q.local.incarnation] == q.local.ready
    requires forall k :: k in q.said ==> k <= q.local.incarnation
    ensures var l, said := NextLocal(q, act), DoAct(q, now, act).said;
            && l.id == q.local.id && l.addr == q.local.addr && l.tags == q.local.tags
            && forall k :: k in said ==> k <= l.incarnation
  {
  }

  lemma ActKeepsProcOk(q: Proc, id: NodeId, net: set<Message>, now: Time, act: Action)
    requires ProcOk(q, id) && CanAct(q, net, now, act)
    ensures ProcOk(DoAct(q, now, act), id)
  {
    ActKeepsWorkOk(q, net, now, act);
    ActKeepsSaid(q, now, act);
    assert id !in NextTable(q, now, act);
  }

  lemma ActKeepsMessageOk(procs: seq<Proc>, p: nat, net: set<Message>, now: Time, act: Action, m: Message)
    requires p < |procs| && ProcOk(procs[p], p) && CanAct(procs[p], net, now, act)
    requires MessageOk(procs, m)
    ensures MessageOk(procs[p := DoAct(procs[p], now, act)], m)
  {
    if m.Udp? && !m.udp.Leave? {
      ActKeepsOwnTruth(procs, p, net, now, act, IntoMember(m.udp.from));
    }
  }

  lemma SentIsOk(procs: seq<Proc>, p: nat, net: set<Message>, now: Time, act: Action, m: Message)
    requires p < |procs| && ProcOk(procs[p], p) && CanAct(procs[p], net, now, act)
    requires ProcHolds(procs[p], Truth(procs)) && m in Sent(procs[p], act)
    ensures MessageOk(procs, m)
  {
    if act.SendUdp? {
      Held(procs[p], Introduced(act.datagram.from), Truth(procs));
      assert ItemOk(Batched(act.datagram.gossip));
    }
  }

  lemma ActKeepsTruth(c: Cluster, p: nat, act: Action)
    requires Inv(c) && Enabled(c, Act(p, act))
    ensures forall r {:trigger Truthful(c.procs, r)} {:trigger Truthful(Next(c, Act(p, act)).procs, r)} ::
      Truthful(c.procs, r) ==> Truthful(Next(c, Act(p, act)).procs, r)
  {
    forall r | Truthful(c.procs, r) ensures Truthful(Next(c, Act(p, act)).procs, r) {
      assert ProcOk(c.procs[p], p);
      ActKeepsOwnTruth(c.procs, p, c.net, c.now, act, r);
    }
  }

  lemma OwnWordIsTrue(procs: seq<Proc>, p: nat)
    requires p < |procs| && ProcOk(procs[p], p)
    ensures OwnWordHolds(procs[p], Truth(procs))
  {
  }

  lemma HoldsStillTrue(c: Cluster, P: WireMember -> bool, Q: WireMember -> bool)
    requires Holds(c, P)
    requires forall r {:trigger P(r)} {:trigger Q(r)} :: P(r) ==> Q(r)
    ensures Holds(c, Q)
  {
    forall i | 0 <= i < |c.procs| ensures ProcHolds(c.procs[i], Q) {
      HoldsWeaker(c.procs[i], c.net, P, Q);
    }
    forall m | m in c.net ensures AllHold(MessageRecords(m), Q) {
      assert AllHold(MessageRecords(m), P);
    }
  }

  lemma ActKeepsMessagesOk(c: Cluster, p: nat, act: Action, m: Message)
    requires Inv(c) && Enabled(c, Act(p, act)) && m in Next(c, Act(p, act)).net
    ensures MessageOk(Next(c, Act(p, act)).procs, m)
  {
    assert ProcOk(c.procs[p], p) && ProcHolds(c.procs[p], Truth(c.procs));
    if m !in c.net {
      SentIsOk(c.procs, p, c.net, c.now, act, m);
    }
    ActKeepsMessageOk(c.procs, p, c.net, c.now, act, m);
  }

  lemma ActKeepsInv(c: Cluster, p: nat, act: Action)
    requires Inv(c) && Enabled(c, Act(p, act))
    ensures Inv(Next(c, Act(p, act)))
  {
    var c' := Next(c, Act(p, act));
    assert Holds(c', Truth(c'.procs)) by {
      assert ProcOk(c.procs[p], p);
      TruthIsClosed(c.procs);
      OwnWordIsTrue(c.procs, p);
      ClosedAllows(c.procs[p], c.net, c.now, act, Truth(c.procs));
      ActKeepsHolds(c, p, act, Truth(c.procs));
      ActKeepsTruth(c, p, act);
      HoldsStillTrue(c', Truth(c.procs), Truth(c'.procs));
    }
    forall m | m in c'.net ensures MessageOk(c'.procs, m) {
      ActKeepsMessagesOk(c, p, act, m);
    }
    forall i | 0 <= i < |c'.procs| ensures ProcOk(c'.procs[i], i) {
      assert ProcOk(c.procs[i], i);
      if i == p {
        ActKeepsProcOk(c.procs[p], p, c.net, c.now, act);
      }
    }
  }

  lemma StartKeepsInv(c: Cluster, addr: Addr, tags: Tags)
    requires Inv(c) && Enabled(c, Start(addr, tags))
    ensures Inv(Next(c, Start(addr, tags)))
  {
    var c' := Next(c, Start(addr, tags));
    var P, P' := Truth(c.procs), Truth(c'.procs);
    forall r | P(r) ensures P'(r) {}
    forall i | 0 <= i < |c'.procs| ensures ProcOk(c'.procs[i], i) && ProcHolds(c'.procs[i], P') {
      if i < |c.procs| {
        HoldsWeaker(c.procs[i], c.net, P, P');
      }
    }
    HoldsWeaker(c'.procs[|c.procs|], c.net, P, P');
  }

  /** A step concerns one process at most. */
  lemma StepOnOne(c: Cluster, s: Step, x: NodeId)
    requires Enabled(c, s) && x < |c.procs|
    ensures x < |Next(c, s).procs|
    ensures s.Act? && s.p == x ==> Next(c, s).procs[x] == DoAct(c.procs[x], c.now, s.act)
    ensures !(s.Act? && s.p == x) ==> Next(c, s).procs[x] == c.procs[x]
  {
  }

  /** What one of its steps can do to a node's own values. */
  lemma ActOnLocal(q: Proc, now: Time, act: Action)
    requires act.PickTarget? || act.ScanSuspect? ==> act.x in q.table
    ensures var l, l' := q.local, DoAct(q, now, act).local;
            && l'.incarnation >= l.incarnation
            && (l.leaving ==> l' == l)
            && (l'.incarnation != l.incarnation ==> act.Refute? || act.Flip?)
  {
  }

  lemma StepKeepsInv(c: Cluster, s: Step)
    requires Inv(c) && Enabled(c, s)
    ensures Inv(Next(c, s))
  {
    match s {
      case Start(addr, tags) => StartKeepsInv(c, addr, tags);
      case Act(p, act) => ActKeepsInv(c, p, act);
      case Tick(_) =>
      case Lose(_) =>
    }
  }

  lemma {:induction false} RunKeepsInv(cs: seq<Cluster>, steps: seq<Step>, k: nat)
    requires IsRun(cs, steps) && k < |cs|
    ensures Inv(cs[k])
    decreases k
  {
    if k > 0 {
      RunKeepsInv(cs, steps, k - 1);
      assert StepAt(cs, steps, k - 1);
      StepKeepsInv(cs[k - 1], steps[k - 1]);
    }
  }

  // ---- Incarnations belong to their owners -------------------------------------------

  /** In every state of every run, no record anywhere carries an incarnation above
      its member's own, nor an address or tags that are not its member's. */
  lemma IncarnationOwnership(cs: seq<Cluster>, steps: seq<Step>, k: nat, r: WireMember)
    requires IsRun(cs, steps) && k < |cs| && IsRecord(cs[k], r)
    ensures r.id < |cs[k].procs|
    ensures var x := cs[k].procs[r.id].local;
            r.incarnation <= x.incarnation && r.addr == x.addr && r.tags == x.tags
  {
    RunKeepsInv(cs, steps, k);
    HoldsForEveryRecord(cs[k], Truth(cs[k].procs), r);
  }

  /** A process's own number moves only when it refutes or flips its readiness,
      and only up; from the step on, nothing else in the cluster is at that number. */
  lemma OnlyTheOwnerMovesItsNumber(cs: seq<Cluster>, steps: seq<Step>, k: nat, x: NodeId)
    requires IsRun(cs, steps) && k < |steps| && x < |cs[k].procs| && x < |cs[k + 1].procs|
    requires cs[k + 1].procs[x].local.incarnation != cs[k].procs[x].local.incarnation
    ensures steps[k].Act? && steps[k].p == x && (steps[k].act.Refute? || steps[k].act.Flip?)
    ensures cs[k + 1].procs[x].local.incarnation > cs[k].procs[x].local.incarnation
    ensures forall r :: IsRecord(cs[k], r) && r.id == x ==> r.incarnation < cs[k + 1].procs[x].local.incarnation
  {
    assert StepAt(cs, steps, k);
    StepOnOne(cs[k], steps[k], x);
    ActOnLocal(cs[k].procs[x], cs[k].now, steps[k].act);
    RunKeepsInv(cs, steps, k);
    forall r | IsRecord(cs[k], r) && r.id == x ensures r.incarnation < cs[k + 1].procs[x].local.incarnation {
      HoldsForEveryRecord(cs[k], Truth(cs[k].procs), r);
    }
  }

  lemma {:induction false} NumbersNeverFall(cs: seq<Cluster>, steps: seq<Step>, i: nat, j: nat, x: NodeId)
    requires IsRun(cs, steps) && i <= j < |cs| && x < |cs[i].procs|
    ensures x < |cs[j].procs|
    ensures cs[i].procs[x].local.incarnation <= cs[j].procs[x].local.incarnation
    ensures cs[i].procs[x].local.leaving ==> cs[j].procs[x].local == cs[i].procs[x].local
    decreases j
  {
    if i < j {
      NumbersNeverFall(cs, steps, i, j - 1, x);
      assert StepAt(cs, steps, j - 1);
      StepOnOne(cs[j - 1], steps[j - 1], x);
      if steps[j - 1].Act? && steps[j - 1].p == x {
        ActOnLocal(cs[j - 1].procs[x], cs[j - 1].now, steps[j - 1].act);
      }
    }
  }

  // ---- Records never contradict each other ---------------------------------------------

  /** What is once truly said stays true. */
  lemma {:induction false} TruthStays(cs: seq<Cluster>, steps: seq<Step>, i: nat, j: nat, r: WireMember)
    requires IsRun(cs, steps) && i <= j < |cs| && Truthful(cs[i].procs, r)
    ensures Truthful(cs[j].procs, r)
    decreases j
  {
    if i < j {
      TruthStays(cs, steps, i, j - 1, r);
      assert StepAt(cs, steps, j - 1);
      RunKeepsInv(cs, steps, j - 1);
      if steps[j - 1].Act? {
        ActKeepsTruth(cs[j - 1], steps[j - 1].p, steps[j - 1].act);
      }
    }
  }

  lemma RecordStaysTrue(cs: seq<Cluster>, steps: seq<Step>, i: nat, j: nat, r: WireMember)
    requires IsRun(cs, steps) && i <= j < |cs| && IsRecord(cs[i], r)
    ensures Truthful(cs[j].procs, r)
  {
    RunKeepsInv(cs, steps, i);
    HoldsForEveryRecord(cs[i], Truth(cs[i].procs), r);
    TruthStays(cs, steps, i, j, r);
  }

  /** Over every run, two records about one member at one incarnation, wherever and
      whenever they are, agree on readiness, tags and address, unless they are at
      the largest incarnation and the member changed its readiness there. */
  lemma RecordCoherence(cs: seq<Cluster>, steps: seq<Step>, i: nat, j: nat, a: WireMember, b: WireMember)
    requires IsRun(cs, steps) && i <= j < |cs| && IsRecord(cs[i], a) && IsRecord(cs[j], b)
    requires a.id == b.id && a.incarnation == b.incarnation
    ensures a.addr == b.addr && a.tags == b.tags
    ensures a.id < |cs[j].procs|
    ensures a.incarnation < MAX_INCARNATION || !cs[j].procs[a.id].flippedAtMax ==> a.ready == b.ready
    ensures cs[j].procs[a.id].local.incarnation < MAX_INCARNATION ==> !cs[j].procs[a.id].flippedAtMax
  {
    RecordStaysTrue(cs, steps, i, j, a);
    RecordStaysTrue(cs, steps, j, j, b);
    FlippedMeansAtMax(cs, steps, j, a.id);
  }

  ghost predicate FlippedOk(q: Proc) { q.flippedAtMax ==> q.local.incarnation == MAX_INCARNATION }

  lemma ActKeepsFlippedOk(q: Proc, now: Time, act: Action)
    requires act.PickTarget? || act.ScanSuspect? ==> act.x in q.table
    requires FlippedOk(q)
    ensures FlippedOk(DoAct(q, now, act))
  {
    var l: Incarnation := NextLocal(q, act).incarnation;
    assert q.local.incarnation <= l;
  }

  lemma StepKeepsFlippedOk(c: Cluster, s: Step, x: NodeId)
    requires Enabled(c, s) && x < |Next(c, s).procs| && (x < |c.procs| ==> FlippedOk(c.procs[x]))
    ensures FlippedOk(Next(c, s).procs[x])
  {
    if x < |c.procs| {
      StepOnOne(c, s, x);
      if s.Act? && s.p == x {
        ActKeepsFlippedOk(c.procs[x], c.now, s.act);
      }
    }
  }

  lemma {:induction false} FlippedMeansAtMax(cs: seq<Cluster>, steps: seq<Step>, k: nat, x: NodeId)
    requires IsRun(cs, steps) && k < |cs| && x < |cs[k].procs|
    ensures FlippedOk(cs[k].procs[x])
    decreases k
  {
    if k > 0 {
      assert StepAt(cs, steps, k - 1);
      if x < |cs[k - 1].procs| {
        FlippedMeansAtMax(cs, steps, k - 1, x);
      }
      StepKeepsFlippedOk(cs[k - 1], steps[k - 1], x);
    }
  }

  /** A flip contradicts what the node has said before exactly when it happens at
      the largest incarnation. */
  lemma FlipContradictsOnlyAtMax(cs: seq<Cluster>, steps: seq<Step>, k: nat, x: NodeId, ready: bool)
    requires IsRun(cs, steps) && k < |steps| && steps[k] == Act(x, Flip(ready))
    ensures x < |cs[k].procs| && x < |cs[k + 1].procs|
    ensures cs[k].procs[x].local.SetReadyChanges(ready) ==>
      ((exists i :: i in cs[k].procs[x].said && (i !in cs[k + 1].procs[x].said || cs[k + 1].procs[x].said[i] != cs[k].procs[x].said[i]))
       <==> cs[k].procs[x].local.incarnation == MAX_INCARNATION)
  {
    assert StepAt(cs, steps, k);
    RunKeepsInv(cs, steps, k);
    var q, q' := cs[k].procs[x], cs[k + 1].procs[x];
    assert ProcOk(q, x);
    if q.local.SetReadyChanges(ready) && q.local.incarnation == MAX_INCARNATION {
      assert MAX_INCARNATION in q.said && q'.said[MAX_INCARNATION] != q.said[MAX_INCARNATION];
    }
  }
}
