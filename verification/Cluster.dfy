/** Every process of a cluster and the network between them, as one transition
    system. Each lock a task takes is one step; between two steps of one task
    any other step of any process may happen, so what a task carries from one
    lock to the next is part of the state. */
module Cluster {
  import opened Types
  import opened LocalNodes
  import opened MemberTables
  import opened GossipQueues
  import Detector

  datatype Message = Udp(udp: UdpBody) | Tcp(tcp: TcpBody)

  /** What a task of one process holds between two of its steps. */
  datatype Work =
    | ToMerge(rumor: WireMember)            // decoded or built, about to be merged
    | ToQueue(rumor: WireMember)            // changed the table, or is our own; about to be queued
    | ToRefute(rumor: WireMember)           // merged and found to doubt ourselves
    | ToAnnounce                            // our number or readiness moved; the rumor is not yet built
    | Probing(target: WireMember)           // the copy of the member being probed
    | Sweeping(suspect: WireMember)         // the copy of a member whose suspicion expired
    | Reaping(id: NodeId)                   // found dead for long enough, not yet removed
    | Introduced(from: WireIdentity)        // our identity, read for a message
    | Batched(gossip: seq<WireMember>)      // rumors taken for a datagram
    | Snapshotted(members: seq<WireMember>) // a copy of the table

  /** One process. Its id is its place in starting order. `said` records, for each
      incarnation it has had, the readiness it stood for there, and `flippedAtMax`
      whether it changed readiness when its incarnation could not rise any more;
      no step reads either. */
  datatype Proc = Proc(
    local: Local, up: bool, table: Table, queue: Queue, work: multiset<Work>,
    said: map<Incarnation, bool>, flippedAtMax: bool)

  /** The network is the set of messages a delivery may still pick: it loses them
      at will and delivers them in any order, any number of times, to anyone. */
  datatype Cluster = Cluster(procs: seq<Proc>, net: set<Message>, now: Time)

  // ---- Records ------------------------------------------------------------------

  /** The records a message can make its receiver merge, first to last. The sender's
      identity on pings and acks is never merged, and a member list sent to the
      command line never reaches a node. */
  function MessageRecords(m: Message): seq<WireMember> {
    match m
    case Udp(Ping(_, _, gossip)) => gossip
    case Udp(Ack(_, _, gossip)) => gossip
    case Udp(PingReq(_, _, _, gossip)) => gossip
    case Udp(PingReqAck(_, _, _, gossip)) => gossip
    case Udp(Leave(from)) => [LeaveRumor(from)]
    case Tcp(JoinRequest(from)) => [IntoMember(from)]
    case Tcp(JoinResponse(from, members)) => [IntoMember(from)] + members
    case Tcp(MembersRequest) => []
    case Tcp(MembersResponse(_, _)) => []
    case Tcp(SyncRequest(from, members)) => [IntoMember(from)] + members
    case Tcp(SyncResponse(from, members)) => [IntoMember(from)] + members
  }

  function WorkRecords(w: Work): seq<WireMember> {
    match w
    case ToMerge(r) => [r]
    case ToQueue(r) => [r]
    case ToRefute(r) => [r]
    case ToAnnounce => []
    case Probing(r) => [r]
    case Sweeping(r) => [r]
    case Reaping(_) => []
    case Introduced(from) => [IntoMember(from)]
    case Batched(gossip) => gossip
    case Snapshotted(members) => members
  }

  /** `r` is somewhere in this process: in the table, queued, or held by a task. */
  ghost predicate ProcHas(q: Proc, r: WireMember) {
    || (r.id in q.table && ToWire(q.table[r.id]) == r)
    || (exists i :: 0 <= i < |q.queue| && q.queue[i].rumor == r)
    || (exists w :: w in q.work && r in WorkRecords(w))
  }

  ghost predicate NetHas(net: set<Message>, r: WireMember) {
    exists m :: m in net && r in MessageRecords(m)
  }

  /** `r` is a record: a belief about its member that some process holds or can
      still be made to merge. */
  ghost predicate IsRecord(c: Cluster, r: WireMember) {
    NetHas(c.net, r) || exists i :: 0 <= i < |c.procs| && ProcHas(c.procs[i], r)
  }

  // ---- Steps --------------------------------------------------------------------

  datatype Step =
    | Start(addr: Addr, tags: Tags)
    | Tick(to: Time)
    | Lose(m: Message)
    | Act(p: nat, act: Action)

  datatype Action =
    | Stop
    | Receive(m: Message)
    | GiveUp(w: Work)
    | Merge(r: WireMember)
    | Queue(r: WireMember, clusterSize: nat)
    | Refute(r: WireMember)
    | Announce
    | Flip(ready: bool)
    | BeginLeave
    | SendLeave
    | PickTarget(x: NodeId)
    | ProbeFailed(r: WireMember)
    | ScanSuspect(x: NodeId)
    | DeclareDead(r: WireMember)
    | ScanDead(x: NodeId)
    | Reap(x: NodeId)
    | Introduce
    | TakeBatch
    | TakeSnapshot(members: seq<WireMember>)
    | SendUdp(datagram: UdpBody)
    | SendTcp(frame: TcpBody)

  function Todo(rumors: seq<WireMember>): multiset<Work> {
    if rumors == [] then multiset{} else multiset{ToMerge(rumors[0])} + Todo(rumors[1..])
  }

  function Suspected(r: WireMember): WireMember { r.(state := WireState.Suspect) }

  function Obituary(r: WireMember): WireMember { r.(state := WireState.Dead) }

  predicate Carries(q: Proc, from: WireIdentity, w: Work) {
    Introduced(from) in q.work && w in q.work
  }

  predicate CanSendUdp(q: Proc, body: UdpBody) {
    !body.Leave? && Carries(q, body.from, Batched(body.gossip))
  }

  predicate CanSendTcp(q: Proc, body: TcpBody) {
    match body
    case JoinRequest(from) => Introduced(from) in q.work
    case MembersRequest => true
    case JoinResponse(from, members) => Carries(q, from, Snapshotted(members))
    case MembersResponse(from, members) => Carries(q, from, Snapshotted(members))
    case SyncRequest(from, members) => Carries(q, from, Snapshotted(members))
    case SyncResponse(from, members) => Carries(q, from, Snapshotted(members))
  }

  /** Every rumor of `s` is the wire form of an entry of `t`. */
  predicate CopiesOf(s: seq<WireMember>, t: Table) {
    forall i :: 0 <= i < |s| ==> s[i].id in t && s[i] == ToWire(t[s[i].id])
  }

  predicate CanAct(q: Proc, net: set<Message>, now: Time, act: Action) {
    q.up &&
    match act
    case Stop => true
    case Receive(m) => m in net
    case GiveUp(w) => w in q.work
    case Merge(r) => ToMerge(r) in q.work
    case Queue(r, _) => ToQueue(r) in q.work
    case Refute(r) => ToRefute(r) in q.work
    case Announce => ToAnnounce in q.work
    case Flip(_) => true
    case BeginLeave => true
    case SendLeave => q.local.leaving
    case PickTarget(x) => x in q.table && !q.table[x].state.Dead?
    case ProbeFailed(r) => Probing(r) in q.work
    case ScanSuspect(x) => x in q.table && Detector.SuspicionExpired(q.table[x], now)
    case DeclareDead(r) => Sweeping(r) in q.work
    case ScanDead(x) => x in q.table && Detector.DeathExpired(q.table[x], now)
    case Reap(x) => Reaping(x) in q.work
    case Introduce => true
    case TakeBatch => true
    case TakeSnapshot(members) => CopiesOf(members, q.table)
    case SendUdp(body) => CanSendUdp(q, body)
    case SendTcp(body) => CanSendTcp(q, body)
  }

  /** The step's effect on the node's own number, readiness and shutdown flag. */
  function NextLocal(q: Proc, act: Action): Local {
    match act
    case Refute(r) => q.local.Refute(r.incarnation)
    case Flip(ready) => q.local.SetReady(ready)
    case BeginLeave => q.local.Leave()
    case _ => q.local
  }

  function NextTable(q: Proc, now: Time, act: Action): Table {
    match act
    case Merge(r) => MergeTable(q.table, r, q.local.id, now)
    case Reap(x) => q.table - {x}
    case _ => q.table
  }

  function NextQueue(q: Proc, act: Action): Queue {
    match act
    case Queue(r, clusterSize) => PushQueue(q.queue, r, clusterSize)
    case TakeBatch => AfterTake(q.queue)
    case _ => q.queue
  }

  /** What a task gives up by taking the step. */
  function Consumes(act: Action): multiset<Work> {
    match act
    case GiveUp(w) => multiset{w}
    case Merge(r) => multiset{ToMerge(r)}
    case Queue(r, _) => multiset{ToQueue(r)}
    case Refute(r) => multiset{ToRefute(r)}
    case Announce => multiset{ToAnnounce}
    case ProbeFailed(r) => multiset{Probing(r)}
    case DeclareDead(r) => multiset{Sweeping(r)}
    case Reap(x) => multiset{Reaping(x)}
    case _ => multiset{}
  }

  function AfterMerge(q: Proc, r: WireMember): multiset<Work> {
    match OutcomeOf(q.table, r, q.local.id)
    case Ignored => multiset{}
    case Added => multiset{ToQueue(r)}
    case Updated => multiset{ToQueue(r)}
    case Refute(_) => multiset{ToRefute(r)}
  }

  /** What a task holds once it has taken the step. */
  function Adds(q: Proc, act: Action): multiset<Work>
    requires act.PickTarget? || act.ScanSuspect? ==> act.x in q.table
  {
    match act
    case Receive(m) => Todo(MessageRecords(m))
    case Merge(r) => AfterMerge(q, r)
    case Refute(_) => if q.local.leaving then multiset{} else multiset{ToAnnounce}
    case Announce => multiset{ToQueue(q.local.AliveRumor())}
    case Flip(ready) => if q.local.SetReadyChanges(ready) then multiset{ToAnnounce} else multiset{}
    case PickTarget(x) => multiset{Probing(ToWire(q.table[x]))}
    case ProbeFailed(r) => multiset{ToMerge(Suspected(r))}
    case ScanSuspect(x) => multiset{Sweeping(ToWire(q.table[x]))}
    case DeclareDead(r) => multiset{ToMerge(Obituary(r))}
    case ScanDead(x) => multiset{Reaping(x)}
    case Introduce => multiset{Introduced(q.local.Identity())}
    case TakeBatch => multiset{Batched(Batch(q.queue))}
    case TakeSnapshot(members) => multiset{Snapshotted(members)}
    case _ => multiset{}
  }

  predicate FlipsAtMax(q: Proc, act: Action) {
    act.Flip? && q.local.SetReadyChanges(act.ready) && q.local.incarnation == MAX_INCARNATION
  }

  /** The process after one of its steps. Its memory goes with it when it stops. */
  function DoAct(q: Proc, now: Time, act: Action): Proc
    requires act.PickTarget? || act.ScanSuspect? ==> act.x in q.table
  {
    if act.Stop? then q.(up := false, table := map[], queue := [], work := multiset{})
    else
      var l := NextLocal(q, act);
      Proc(l, q.up, NextTable(q, now, act), NextQueue(q, act), q.work - Consumes(act) + Adds(q, act),
           q.said[l.incarnation := l.ready], q.flippedAtMax || FlipsAtMax(q, act))
  }

  function Sent(q: Proc, act: Action): set<Message> {
    match act
    case SendLeave => {Udp(Leave(q.local.Identity()))}
    case SendUdp(body) => {Udp(body)}
    case SendTcp(body) => {Tcp(body)}
    case _ => {}
  }

  predicate Enabled(c: Cluster, s: Step) {
    match s
    case Start(addr, tags) => !addr.ip.IsUnspecified() && CheckTags(tags)
    case Tick(to) => to >= c.now
    case Lose(m) => m in c.net
    case Act(p, act) => p < |c.procs| && CanAct(c.procs[p], c.net, c.now, act)
  }

  function NewProc(id: NodeId, addr: Addr, tags: Tags): Proc {
    Proc(Local.New(id, addr, tags), true, map[], [], multiset{}, map[0 := true], false)
  }

  function Next(c: Cluster, s: Step): Cluster
    requires Enabled(c, s)
  {
    match s
    case Start(addr, tags) => c.(procs := c.procs + [NewProc(|c.procs|, addr, tags)])
    case Tick(to) => c.(now := to)
    case Lose(m) => c.(net := c.net - {m})
    case Act(p, act) =>
      c.(procs := c.procs[p := DoAct(c.procs[p], c.now, act)], net := c.net + Sent(c.procs[p], act))
  }

  const EMPTY: Cluster := Cluster([], {}, 0)

  /** The states `cs` and the steps between them, from the empty cluster on. */
  ghost predicate IsRun(cs: seq<Cluster>, steps: seq<Step>) {
    && |cs| == |steps| + 1
    && cs[0] == EMPTY
    && forall k :: 0 <= k < |steps| ==> StepAt(cs, steps, k)
  }

  ghost predicate StepAt(cs: seq<Cluster>, steps: seq<Step>, k: nat)
    requires k < |steps| < |cs|
  {
    Enabled(cs[k], steps[k]) && cs[k + 1] == Next(cs[k], steps[k])
  }
}
