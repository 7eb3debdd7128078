/** Probes and their answers: the registry of probes in flight, and how pings, acks
    and relayed requests travel between processes (udp.rs and the probe of
    detector.rs). */
module Probing {
  import opened Types

  const SEQ_SPACE: nat := 0x1_0000_0000

  // ---- The registry ---------------------------------------------------------------

  /** Whose liveness the probe is about. `since` names the registration itself, the way
      a channel does: it is the place of that registration in the log. */
  datatype Waiter = Waiter(subject: NodeId, since: nat)

  type Waiting = map<SeqNo, Waiter>

  predicate Resolves(waiting: Waiting, number: SeqNo, subject: NodeId) {
    number in waiting && waiting[number].subject == subject
  }

  /** An ack or a relay's report, as the receive loop hands it over. */
  datatype Answer = Answer(number: SeqNo, subject: NodeId)

  /** The registry once these answers have come in, one after the other. */
  function WaitingAfter(waiting: Waiting, answers: seq<Answer>): Waiting
    decreases |answers|
  {
    if answers == [] then waiting
    else
      var a := answers[0];
      WaitingAfter(if Resolves(waiting, a.number, a.subject) then waiting - {a.number} else waiting, answers[1..])
  }

  class PendingAcks {
    var waiting: Waiting
    var nextSeq: SeqNo

    constructor ()
      ensures waiting == map[] && nextSeq == 0
    {
      waiting, nextSeq := map[], 0;
    }

    method NextSeq() returns (number: SeqNo)
      modifies this`nextSeq
      ensures number == old(nextSeq) && nextSeq == (number + 1) % SEQ_SPACE
    {
      number := nextSeq;
      nextSeq := if nextSeq == 0xFFFF_FFFF then 0 else nextSeq + 1;
    }

    method Register(number: SeqNo, waiter: Waiter)
      modifies this`waiting
      ensures waiting == old(waiting)[number := waiter]
    {
      waiting := waiting[number := waiter];
    }

    method Forget(number: SeqNo)
      modifies this`waiting
      ensures waiting == old(waiting) - {number}
    {
      waiting := waiting - {number};
    }

    /** Only an answer about the member that was asked about wakes the probe, and
        it takes the registration with it, so nothing can wake that again. */
    method Resolve(number: SeqNo, subject: NodeId) returns (woken: Option<Waiter>)
      modifies this`waiting
      ensures woken == if Resolves(old(waiting), number, subject) then Some(old(waiting)[number]) else None
      ensures waiting == if woken.Some? then old(waiting) - {number} else old(waiting)
    {
      if number in waiting && waiting[number].subject == subject {
        woken := Some(waiting[number]);
        waiting := waiting - {number};
      } else {
        woken := None;
      }
    }

    /** The answers the receive loop hands over while a probe under `number` waits. */
    method Await(number: SeqNo, answers: seq<Answer>) returns (acked: bool)
      requires number in waiting
      modifies this`waiting
      ensures acked <==> Answer(number, old(waiting)[number].subject) in answers
      ensures waiting == WaitingAfter(old(waiting), answers) - {number}
    {
      ghost var before := waiting;
      acked := false;
      for i := 0 to |answers|
        invariant WaitingAfter(waiting, answers[i..]) == WaitingAfter(before, answers)
        invariant acked <==> Answer(number, before[number].subject) in answers[..i]
        invariant !acked ==> number in waiting && waiting[number] == before[number]
        invariant acked ==> number !in waiting
      {
        var woken := Resolve(answers[i].number, answers[i].subject);
        if woken.Some? && answers[i].number == number {
          acked := true;
        }
        assert answers[i..][0] == answers[i] && answers[i..][1..] == answers[i + 1..];
        assert answers[..i + 1] == answers[..i] + [answers[i]];
      }
      assert answers[..|answers|] == answers;
      Forget(number);
    }

    /** One ping: true exactly when it was sent and an answer about the target came in
        under its number while it waited. Either way it is not waiting any more. */
    method Ping(target: NodeId, channel: nat, number: SeqNo, isSent: bool, answers: seq<Answer>) returns (acked: bool)
      modifies this`waiting
      ensures acked <==> isSent && Answer(number, target) in answers
      ensures waiting == (if isSent then WaitingAfter(old(waiting)[number := Waiter(target, channel)], answers) else old(waiting)) - {number}
    {
      Register(number, Waiter(target, channel));
      if !isSent {
        Forget(number);
        return false;
      }
      acked := Await(number, answers);
    }

    /** One request to several relays under one number: the first to report is enough. */
    method PingReq(target: NodeId, channel: nat, number: SeqNo, sends: seq<bool>, answers: seq<Answer>) returns (acked: bool)
      modifies this`waiting
      ensures acked <==> true in sends && Answer(number, target) in answers
      ensures waiting == (if true in sends then WaitingAfter(old(waiting)[number := Waiter(target, channel)], answers) else old(waiting)) - {number}
    {
      Register(number, Waiter(target, channel));
      var sent := 0;
      for i := 0 to |sends|
        invariant sent > 0 <==> true in sends[..i]
        invariant sent >= 0
      {
        if sends[i] {
          sent := sent + 1;
        }
        assert sends[..i + 1] == sends[..i] + [sends[i]];
      }
      assert sends[..|sends|] == sends;
      if sent == 0 {
        Forget(number);
        return false;
      }
      acked := Await(number, answers);
    }

    /** A whole probe: a ping, and if that got nothing and there are relays, a request
        to them under the next number. `sends` says which relays the request went out
        to. It succeeds exactly when one of its two rounds was sent and an answer
        about the target came in under that round's number. */
    method Probe(target: NodeId, channels: (nat, nat), isSent: bool, direct: seq<Answer>, sends: seq<bool>, relayed: seq<Answer>) returns (acked: bool)
      modifies this
      ensures acked <==>
        || (isSent && Answer(old(nextSeq), target) in direct)
        || (true in sends && Answer((old(nextSeq) + 1) % SEQ_SPACE, target) in relayed)
      ensures nextSeq == (old(nextSeq) + if (isSent && Answer(old(nextSeq), target) in direct) || sends == [] then 1 else 2) % SEQ_SPACE
    {
      var number := NextSeq();
      acked := Ping(target, channels.0, number, isSent, direct);
      if acked || sends == [] {
        return;
      }
      number := NextSeq();
      acked := PingReq(target, channels.1, number, sends, relayed);
    }
  }

  /** A waiting probe is acked exactly when one of the answers wakes it as it comes in,
      so a success is always a wake-up of that probe's own registration. */
  lemma {:induction false} AckedExactlyWhenWoken(waiting: Waiting, number: SeqNo, answers: seq<Answer>)
    requires number in waiting
    ensures Answer(number, waiting[number].subject) in answers <==>
      exists i :: 0 <= i < |answers| && WakesAt(waiting, number, answers, i)
    decreases |answers|
  {
    if answers != [] {
      var a, rest := answers[0], answers[1..];
      if a == Answer(number, waiting[number].subject) {
        assert WakesAt(waiting, number, answers, 0);
      } else {
        var after := if Resolves(waiting, a.number, a.subject) then waiting - {a.number} else waiting;
        AckedExactlyWhenWoken(after, number, rest);
        forall i | 0 < i < |answers| ensures WakesAt(waiting, number, answers, i) <==> WakesAt(after, number, rest, i - 1) {
          assert answers[..i][1..] == rest[..i - 1];
        }
        assert !WakesAt(waiting, number, answers, 0);
        assert (exists i :: 0 <= i < |rest| && WakesAt(after, number, rest, i)) ==>
            exists i :: 0 <= i < |answers| && WakesAt(waiting, number, answers, i) by {
          if j :| 0 <= j < |rest| && WakesAt(after, number, rest, j) {
            assert WakesAt(waiting, number, answers, j + 1);
          }
        }
      }
    }
  }

  /** Answer `i`, coming in after the ones before it, wakes the probe under `number`. */
  ghost predicate WakesAt(waiting: Waiting, number: SeqNo, answers: seq<Answer>, i: nat)
    requires i < |answers|
  {
    answers[i].number == number && Resolves(WaitingAfter(waiting, answers[..i]), number, answers[i].subject)
  }

  // ---- Processes and packets ----------------------------------------------------------

  /** A relay's own probe, and whom to report it to. */
  datatype Relay = Relay(asker: Addr, askerNumber: SeqNo, askedAt: nat, target: NodeId, number: SeqNo, since: nat)

  datatype Node = Node(addr: Addr, drawn: nat, waiting: Waiting, relays: set<Relay>)

  datatype Body =
    | Ping(number: SeqNo)
    | Ack(number: SeqNo, from: NodeId)
    | PingReq(number: SeqNo, target: NodeId)
    | PingReqAck(number: SeqNo, target: NodeId)

  /** A datagram between two addresses. `since` is the place in the log of the
      registration it goes back to; no step reads it. */
  datatype Packet = Packet(src: Addr, dst: Addr, body: Body, since: nat)

  /** What has happened so far, in order. */
  datatype Event =
    | Registered(node: NodeId, number: SeqNo, subject: NodeId)
    | Answered(node: NodeId)
    | Woken(node: NodeId, number: SeqNo, since: nat)

  datatype World = World(nodes: seq<Node>, net: set<Packet>, log: seq<Event>)

  datatype Step =
    | Start(addr: Addr)
    | Lose(packet: Packet)
    | BeginProbe(i: NodeId, subject: NodeId)
    | SendPing(i: NodeId, since: nat, dst: Addr)
    | SendPingReq(i: NodeId, since: nat, dst: Addr)
    | TimeOut(i: NodeId, number: SeqNo)
    | AnswerPing(i: NodeId, packet: Packet)
    | TakeAck(i: NodeId, packet: Packet)
    | TakePingReq(i: NodeId, packet: Packet)
    | TakePingReqAck(i: NodeId, packet: Packet)
    | Report(i: NodeId, relay: Relay)

  /** `number` was registered at place `since`, and by `i`. */
  predicate RegisteredBy(log: seq<Event>, since: nat, i: NodeId) {
    since < |log| && log[since].Registered? && log[since].node == i
  }

  predicate Arrives(w: World, i: NodeId, packet: Packet) {
    i < |w.nodes| && packet in w.net && packet.dst == w.nodes[i].addr
  }

  /** A ping goes out under a number its sender registered, to any address; a relay
      request names the member that number was registered for. Anybody with the
      address a packet is sent to may receive it, and a registration may be
      dropped at any time. Nobody probes itself: it is never in its own table. */
  predicate Enabled(w: World, s: Step) {
    match s
    case Start(_) => true
    case Lose(packet) => packet in w.net
    case BeginProbe(i, subject) => i < |w.nodes| && subject != i
    case SendPing(i, since, _) => i < |w.nodes| && RegisteredBy(w.log, since, i)
    case SendPingReq(i, since, _) => i < |w.nodes| && RegisteredBy(w.log, since, i)
    case TimeOut(i, _) => i < |w.nodes|
    case AnswerPing(i, packet) => Arrives(w, i, packet) && packet.body.Ping?
    case TakeAck(i, packet) => Arrives(w, i, packet) && packet.body.Ack?
    case TakePingReq(i, packet) => Arrives(w, i, packet) && packet.body.PingReq? && packet.body.target != i
    case TakePingReqAck(i, packet) => Arrives(w, i, packet) && packet.body.PingReqAck?
    case Report(i, relay) => i < |w.nodes| && relay in w.nodes[i].relays && Woken(i, relay.number, relay.since) in w.log
  }

  /** Draw a number and register it. */
  function Register(w: World, i: NodeId, subject: NodeId): World
    requires i < |w.nodes|
  {
    var n := w.nodes[i];
    var number := n.drawn % SEQ_SPACE;
    w.(nodes := w.nodes[i := n.(drawn := n.drawn + 1, waiting := n.waiting[number := Waiter(subject, |w.log|)])],
       log := w.log + [Registered(i, number, subject)])
  }

  /** An answer about `subject` has come in under `number`. */
  function Resolve(w: World, i: NodeId, number: SeqNo, subject: NodeId): World
    requires i < |w.nodes|
  {
    var n := w.nodes[i];
    if Resolves(n.waiting, number, subject) then
      w.(nodes := w.nodes[i := n.(waiting := n.waiting - {number})],
         log := w.log + [Woken(i, number, n.waiting[number].since)])
    else w
  }

  function Send(w: World, packet: Packet): World { w.(net := w.net + {packet}) }

  function Next(w: World, s: Step): World
    requires Enabled(w, s)
  {
    match s
    case Start(addr) => w.(nodes := w.nodes + [Node(addr, 0, map[], {})])
    case Lose(packet) => w.(net := w.net - {packet})
    case BeginProbe(i, subject) => Register(w, i, subject)
    case SendPing(i, since, dst) => Send(w, Packet(w.nodes[i].addr, dst, Body.Ping(w.log[since].number), since))
    case SendPingReq(i, since, dst) =>
      Send(w, Packet(w.nodes[i].addr, dst, Body.PingReq(w.log[since].number, w.log[since].subject), since))
    case TimeOut(i, number) => w.(nodes := w.nodes[i := w.nodes[i].(waiting := w.nodes[i].waiting - {number})])
    case AnswerPing(i, packet) =>
      Send(w.(log := w.log + [Answered(i)]), Packet(w.nodes[i].addr, packet.src, Body.Ack(packet.body.number, i), packet.since))
    case TakeAck(i, packet) => Resolve(w, i, packet.body.number, packet.body.from)
    case TakePingReq(i, packet) => BeginRelay(w, i, packet)
    case TakePingReqAck(i, packet) => Resolve(w, i, packet.body.number, packet.body.target)
    case Report(i, relay) =>
      Send(w, Packet(w.nodes[i].addr, relay.asker, Body.PingReqAck(relay.askerNumber, relay.target), relay.askedAt))
  }

  /** A relay probes the target under a number of its own. */
  function BeginRelay(w: World, i: NodeId, packet: Packet): World
    requires i < |w.nodes| && packet.body.PingReq?
  {
    var w' := Register(w, i, packet.body.target);
    var n := w'.nodes[i];
    var relay := Relay(packet.src, packet.body.number, packet.since, packet.body.target, w.nodes[i].drawn % SEQ_SPACE, |w.log|);
    w'.(nodes := w'.nodes[i := n.(relays := n.relays + {relay})])
  }

  const EMPTY: World := World([], {}, [])

  ghost predicate IsRun(ws: seq<World>, steps: seq<Step>) {
    && |ws| == |steps| + 1 && ws[0] == EMPTY
    && forall k :: 0 <= k < |steps| ==> StepAt(ws, steps, k)
  }

  ghost predicate StepAt(ws: seq<World>, steps: seq<Step>, k: nat)
    requires k < |steps| < |ws|
  {
    Enabled(ws[k], steps[k]) && ws[k + 1] == Next(ws[k], steps[k])
  }

  // ---- What makes answers trustworthy ---------------------------------------------------

  /** One address per process, and no process has drawn more numbers than there are. */
  ghost predicate Orderly(w: World) {
    && (forall i, j :: 0 <= i < j < |w.nodes| ==> w.nodes[i].addr != w.nodes[j].addr)
    && (forall i :: 0 <= i < |w.nodes| ==> w.nodes[i].drawn <= SEQ_SPACE)
  }

  /** `x` answered a ping after place `since` in the log. */
  ghost predicate AnsweredAfter(log: seq<Event>, since: nat, x: NodeId) {
    exists b :: since < b < |log| && log[b] == Answered(x)
  }

  /** Place `since` registers `number`, at a process with address `addr`. */
  ghost predicate RegisteredAt(w: World, since: nat, number: SeqNo, addr: Addr) {
    && since < |w.log| && w.log[since].Registered? && w.log[since].number == number
    && w.log[since].node < |w.nodes| && w.nodes[w.log[since].node].addr == addr
  }

  ghost predicate PacketOk(w: World, packet: Packet) {
    match packet.body
    case Ping(number) => RegisteredAt(w, packet.since, number, packet.src)
    case Ack(number, from) =>
      RegisteredAt(w, packet.since, number, packet.dst) && AnsweredAfter(w.log, packet.since, from)
    case PingReq(number, target) =>
      RegisteredAt(w, packet.since, number, packet.src) && w.log[packet.since].subject == target
    case PingReqAck(number, target) =>
      RegisteredAt(w, packet.since, number, packet.dst) && AnsweredAfter(w.log, packet.since, target)
  }

  ghost predicate RelayOk(w: World, i: NodeId, relay: Relay) {
    && RegisteredAt(w, relay.askedAt, relay.askerNumber, relay.asker)
    && relay.askedAt < relay.since < |w.log| && w.log[relay.since] == Registered(i, relay.number, relay.target)
  }

  ghost predicate WaiterOk(w: World, i: NodeId, number: SeqNo, waiter: Waiter) {
    waiter.since < |w.log| && w.log[waiter.since] == Registered(i, number, waiter.subject)
  }

  ghost predicate NodeOk(w: World, i: NodeId)
    requires i < |w.nodes|
  {
    && (forall n :: n in w.nodes[i].waiting ==> WaiterOk(w, i, n, w.nodes[i].waiting[n]))
    && (forall relay :: relay in w.nodes[i].relays ==> RelayOk(w, i, relay))
  }

  ghost predicate RegistrationsOk(w: World) {
    && (forall a :: 0 <= a < |w.log| && w.log[a].Registered? ==>
          w.log[a].node < |w.nodes| && w.log[a].number < w.nodes[w.log[a].node].drawn)
    && (forall a, b :: 0 <= a < b < |w.log| && w.log[a].Registered? && w.log[b].Registered? ==>
          w.log[a].node != w.log[b].node || w.log[a].number != w.log[b].number)
  }

  /** What the wake-up at place `k` rests on: the registration it names, and an answer
      of the subject itself in between. */
  ghost predicate WokenRightly(log: seq<Event>, k: nat)
    requires k < |log| && log[k].Woken?
  {
    var e := log[k];
    && e.since < k && log[e.since].Registered? && log[e.since].node == e.node && log[e.since].number == e.number
    && exists b :: e.since < b < k && log[b] == Answered(log[e.since].subject)
  }

  ghost predicate WakesOk(w: World) {
    && (forall k :: 0 <= k < |w.log| && w.log[k].Woken? ==> WokenRightly(w.log, k))
    && (forall k :: 0 <= k < |w.log| && w.log[k].Woken? ==>
          w.log[k].node < |w.nodes| && w.log[k].number !in w.nodes[w.log[k].node].waiting)
    && (forall j, k :: 0 <= j < k < |w.log| && w.log[j].Woken? && w.log[k].Woken? ==> w.log[j].since != w.log[k].since)
  }

  ghost predicate Inv(w: World) {
    && RegistrationsOk(w) && WakesOk(w)
    && (forall packet :: packet in w.net ==> PacketOk(w, packet))
    && (forall i :: 0 <= i < |w.nodes| ==> NodeOk(w, i))
  }

  // ---- Steps keep it ----------------------------------------------------------------

  /** The log only grows and addresses stay, so nothing said about earlier places changes. */
  ghost predicate Extends(w: World, w': World) {
    && w.log <= w'.log && |w.nodes| <= |w'.nodes|
    && forall i :: 0 <= i < |w.nodes| ==> w'.nodes[i].addr == w.nodes[i].addr
  }

  lemma PacketStaysOk(w: World, w': World, packet: Packet)
    requires Extends(w, w') && PacketOk(w, packet)
    ensures PacketOk(w', packet)
  {
    if packet.body.Ack? {
      AnswerStays(w, w', packet.since, packet.body.from);
    } else if packet.body.PingReqAck? {
      AnswerStays(w, w', packet.since, packet.body.target);
    }
  }

  lemma AnswerStays(w: World, w': World, since: nat, x: NodeId)
    requires w.log <= w'.log && AnsweredAfter(w.log, since, x)
    ensures AnsweredAfter(w'.log, since, x)
  {
    var b :| since < b < |w.log| && w.log[b] == Answered(x);
    assert w'.log[b] == w.log[b];
  }

  lemma NodeStaysOk(w: World, w': World, i: NodeId)
    requires Extends(w, w') && i < |w.nodes| && NodeOk(w, i)
    requires w'.nodes[i] == w.nodes[i]
    ensures NodeOk(w', i)
  {
  }

  /** A step of one process touches neither the packets there are nor another process. */
  lemma OthersStayOk(w: World, w': World, i: NodeId)
    requires Inv(w) && Extends(w, w') && w'.net <= w.net && |w'.nodes| == |w.nodes|
    requires forall j :: 0 <= j < |w.nodes| && j != i ==> w'.nodes[j] == w.nodes[j]
    ensures forall packet :: packet in w'.net ==> PacketOk(w', packet)
    ensures forall j :: 0 <= j < |w'.nodes| && j != i ==> NodeOk(w', j)
  {
    forall packet | packet in w'.net ensures PacketOk(w', packet) { PacketStaysOk(w, w', packet); }
    forall j | 0 <= j < |w'.nodes| && j != i ensures NodeOk(w', j) { NodeStaysOk(w, w', j); }
  }

  lemma RegistrationsStay(w: World, w': World)
    requires RegistrationsOk(w) && Extends(w, w') && |w'.nodes| == |w.nodes|
    requires forall k :: |w.log| <= k < |w'.log| ==> !w'.log[k].Registered?
    requires forall j :: 0 <= j < |w.nodes| ==> w'.nodes[j].drawn == w.nodes[j].drawn
    ensures RegistrationsOk(w')
  {
    assert forall k :: 0 <= k < |w'.log| && w'.log[k].Registered? ==> k < |w.log| && w.log[k] == w'.log[k];
  }

  lemma StepExtends(w: World, s: Step)
    requires Enabled(w, s)
    ensures Extends(w, Next(w, s))
  {
  }

  lemma NumberIsNew(w: World, i: NodeId, subject: NodeId)
    requires RegistrationsOk(w) && i < |w.nodes| && w.nodes[i].drawn < SEQ_SPACE
    ensures RegistrationsOk(Register(w, i, subject))
  {
  }

  lemma RegisterKeepsInv(w: World, i: NodeId, subject: NodeId)
    requires Inv(w) && i < |w.nodes| && w.nodes[i].drawn < SEQ_SPACE
    ensures Inv(Register(w, i, subject))
  {
    var w' := Register(w, i, subject);
    OthersStayOk(w, w', i);
    assert NodeOk(w', i) by { assert NodeOk(w, i); }
    NumberIsNew(w, i, subject);
    WakesStay(w, w');
  }

  /** Wake-ups so far stay in order when the log grows by something that is not one. */
  lemma WakesStay(w: World, w': World)
    requires WakesOk(w) && RegistrationsOk(w) && Extends(w, w')
    requires forall k :: |w.log| <= k < |w'.log| ==> !w'.log[k].Woken?
    requires forall i, n :: 0 <= i < |w.nodes| && n in w'.nodes[i].waiting ==>
      n in w.nodes[i].waiting || n >= w.nodes[i].drawn
    ensures WakesOk(w')
  {
    forall k | 0 <= k < |w'.log| && w'.log[k].Woken?
      ensures WokenRightly(w'.log, k) && w'.log[k].node < |w'.nodes| && w'.log[k].number !in w'.nodes[w'.log[k].node].waiting
    {
      assert w.log[k] == w'.log[k] && WokenRightly(w.log, k);
      WakeStays(w.log, w'.log, k);
      var e := w.log[k];
      assert w.log[e.since].number < w.nodes[e.node].drawn;
    }
    assert forall k :: 0 <= k < |w'.log| && w'.log[k].Woken? ==> k < |w.log| && w.log[k] == w'.log[k];
  }

  lemma WakeStays(log: seq<Event>, log': seq<Event>, k: nat)
    requires log <= log' && k < |log| && log[k].Woken? && WokenRightly(log, k)
    ensures WokenRightly(log', k)
  {
    var b :| log[k].since < b < k && log[b] == Answered(log[log[k].since].subject);
    assert log'[b] == log[b] && log'[log[k].since] == log[log[k].since];
  }

  /** The heart of it: an answer that reached the right process and names the subject
      it registered for goes back to that very registration. */
  lemma ResolveKeepsInv(w: World, i: NodeId, packet: Packet, subject: NodeId)
    requires Inv(w) && Orderly(w) && i < |w.nodes| && packet in w.net && packet.dst == w.nodes[i].addr
    requires packet.body.Ack? ==> subject == packet.body.from
    requires packet.body.PingReqAck? ==> subject == packet.body.target
    requires packet.body.Ack? || packet.body.PingReqAck?
    ensures Inv(Resolve(w, i, packet.body.number, subject))
  {
    var number := packet.body.number;
    if Resolves(w.nodes[i].waiting, number, subject) {
      assert NodeOk(w, i) && PacketOk(w, packet);
      var waiter := w.nodes[i].waiting[number];
      assert WaiterOk(w, i, number, waiter);
      SameRegistration(w, i, packet, waiter);
      WakeKeepsInv(w, i, number, waiter);
    }
  }

  /** One address per process and no wrapped number: the place the packet goes back to
      is the place the waiter was registered at. */
  lemma SameRegistration(w: World, i: NodeId, packet: Packet, waiter: Waiter)
    requires Orderly(w) && RegistrationsOk(w) && i < |w.nodes| && packet.dst == w.nodes[i].addr
    requires RegisteredAt(w, packet.since, packet.body.number, packet.dst)
    requires WaiterOk(w, i, packet.body.number, waiter)
    ensures packet.since == waiter.since
  {
    assert w.log[packet.since].node == i;
  }

  lemma WakeKeepsInv(w: World, i: NodeId, number: SeqNo, waiter: Waiter)
    requires Inv(w) && i < |w.nodes| && number in w.nodes[i].waiting && w.nodes[i].waiting[number] == waiter
    requires WaiterOk(w, i, number, waiter) && AnsweredAfter(w.log, waiter.since, waiter.subject)
    ensures Inv(Woke(w, i, number, waiter))
  {
    var w' := Woke(w, i, number, waiter);
    OthersStayOk(w, w', i);
    assert NodeOk(w', i) by { assert NodeOk(w, i); }
    RegistrationsStay(w, w');
    WakeAddsOne(w, i, number, waiter);
  }

  function Woke(w: World, i: NodeId, number: SeqNo, waiter: Waiter): World
    requires i < |w.nodes|
  {
    w.(nodes := w.nodes[i := w.nodes[i].(waiting := w.nodes[i].waiting - {number})],
       log := w.log + [Woken(i, number, waiter.since)])
  }

  /** A registration that is still waiting has not been woken yet. */
  lemma WaitingIsUnwoken(w: World, i: NodeId, number: SeqNo, waiter: Waiter, k: nat)
    requires WakesOk(w) && i < |w.nodes| && number in w.nodes[i].waiting && WaiterOk(w, i, number, waiter)
    requires k < |w.log| && w.log[k].Woken?
    ensures w.log[k].since != waiter.since
  {
    assert WokenRightly(w.log, k);
  }

  lemma NewWakeIsRight(w: World, i: NodeId, number: SeqNo, waiter: Waiter)
    requires i < |w.nodes| && WaiterOk(w, i, number, waiter) && AnsweredAfter(w.log, waiter.since, waiter.subject)
    ensures WokenRightly(Woke(w, i, number, waiter).log, |w.log|)
  {
    var log' := Woke(w, i, number, waiter).log;
    var b :| waiter.since < b < |w.log| && w.log[b] == Answered(waiter.subject);
    assert log'[b] == w.log[b] && log'[waiter.since] == w.log[waiter.since];
  }

  lemma WakeAddsOne(w: World, i: NodeId, number: SeqNo, waiter: Waiter)
    requires WakesOk(w) && i < |w.nodes| && number in w.nodes[i].waiting
    requires WaiterOk(w, i, number, waiter) && AnsweredAfter(w.log, waiter.since, waiter.subject)
    ensures WakesOk(Woke(w, i, number, waiter))
  {
    var w', last := Woke(w, i, number, waiter), |w.log|;
    forall k | 0 <= k < |w'.log| && w'.log[k].Woken? ensures WokenRightly(w'.log, k) {
      if k < last {
        assert w.log[k] == w'.log[k] && WokenRightly(w.log, k);
        WakeStays(w.log, w'.log, k);
      } else {
        NewWakeIsRight(w, i, number, waiter);
      }
    }
    forall k | 0 <= k < last && w'.log[k].Woken? ensures w'.log[k].since != waiter.since {
      WaitingIsUnwoken(w, i, number, waiter, k);
    }
    assert forall k :: 0 <= k < last ==> w'.log[k] == w.log[k];
  }

  /** Steps that leave the registry of every process alone or only shrink it, and
      record at most an answer. */
  lemma QuietStepKeepsInv(w: World, w': World)
    requires Inv(w) && Extends(w, w')
    requires |w'.nodes| == |w.nodes|
    requires forall k :: |w.log| <= k < |w'.log| ==> w'.log[k].Answered?
    requires forall i :: 0 <= i < |w.nodes| ==>
      w'.nodes[i].drawn == w.nodes[i].drawn && w'.nodes[i].relays == w.nodes[i].relays
      && forall n :: n in w'.nodes[i].waiting ==> n in w.nodes[i].waiting && w'.nodes[i].waiting[n] == w.nodes[i].waiting[n]
    requires forall packet :: packet in w'.net && packet !in w.net ==> PacketOk(w', packet)
    ensures Inv(w')
  {
    forall p | p in w'.net ensures PacketOk(w', p) {
      if p in w.net { PacketStaysOk(w, w', p); }
    }
    forall i | 0 <= i < |w'.nodes| ensures NodeOk(w', i) {
      assert NodeOk(w, i);
      forall relay | relay in w'.nodes[i].relays ensures RelayOk(w', i, relay) { assert RelayOk(w, i, relay); }
      forall n | n in w'.nodes[i].waiting ensures WaiterOk(w', i, n, w'.nodes[i].waiting[n]) {
        assert WaiterOk(w, i, n, w.nodes[i].waiting[n]);
      }
    }
    WakesStay(w, w');
    RegistrationsStay(w, w');
  }

  lemma AnswerKeepsInv(w: World, i: NodeId, packet: Packet)
    requires Inv(w) && Enabled(w, AnswerPing(i, packet))
    ensures Inv(Next(w, AnswerPing(i, packet)))
  {
    var w' := Next(w, AnswerPing(i, packet));
    assert PacketOk(w, packet);
    assert w'.log[|w.log|] == Answered(i) && packet.since < |w.log|;
    assert AnsweredAfter(w'.log, packet.since, i);
    QuietStepKeepsInv(w, w');
  }

  /** A relay reports only when its own probe was woken, and that rests on an answer
      after its own registration, which is later than the one it was asked under. */
  lemma ReportKeepsInv(w: World, i: NodeId, relay: Relay)
    requires Inv(w) && Enabled(w, Report(i, relay))
    ensures Inv(Next(w, Report(i, relay)))
  {
    var w' := Next(w, Report(i, relay));
    assert NodeOk(w, i) && RelayOk(w, i, relay);
    var k :| 0 <= k < |w.log| && w.log[k] == Woken(i, relay.number, relay.since);
    assert WokenRightly(w.log, k);
    var b :| relay.since < b < k && w.log[b] == Answered(relay.target);
    assert AnsweredAfter(w'.log, relay.askedAt, relay.target);
    QuietStepKeepsInv(w, w');
  }

  lemma RelayKeepsInv(w: World, i: NodeId, packet: Packet)
    requires Inv(w) && Enabled(w, TakePingReq(i, packet)) && w.nodes[i].drawn < SEQ_SPACE
    ensures Inv(Next(w, TakePingReq(i, packet)))
  {
    var mid := Register(w, i, packet.body.target);
    var w' := BeginRelay(w, i, packet);
    RegisterKeepsInv(w, i, packet.body.target);
    assert PacketOk(mid, packet) && packet.since < |w.log| by { PacketStaysOk(w, mid, packet); assert PacketOk(w, packet); }
    AddRelayKeepsInv(mid, i, Relay(packet.src, packet.body.number, packet.since, packet.body.target, w.nodes[i].drawn % SEQ_SPACE, |w.log|));
  }

  lemma AddRelayKeepsInv(w: World, i: NodeId, relay: Relay)
    requires Inv(w) && i < |w.nodes| && RelayOk(w, i, relay)
    ensures Inv(w.(nodes := w.nodes[i := w.nodes[i].(relays := w.nodes[i].relays + {relay})]))
  {
    var w' := w.(nodes := w.nodes[i := w.nodes[i].(relays := w.nodes[i].relays + {relay})]);
    forall p | p in w'.net ensures PacketOk(w', p) { PacketStaysOk(w, w', p); }
    forall j | 0 <= j < |w'.nodes| ensures NodeOk(w', j) {
      assert NodeOk(w, j);
      forall x | x in w'.nodes[j].relays ensures RelayOk(w', j, x) { assert RelayOk(w, j, x); }
    }
    WakesStay(w, w');
  }

  lemma StartKeepsInv(w: World, addr: Addr)
    requires Inv(w)
    ensures Inv(Next(w, Start(addr)))
  {
    var w' := Next(w, Start(addr));
    forall p | p in w'.net ensures PacketOk(w', p) { PacketStaysOk(w, w', p); }
    forall i | 0 <= i < |w.nodes| ensures NodeOk(w', i) { NodeStaysOk(w, w', i); }
    WakesStay(w, w');
  }

  lemma StepKeepsInv(w: World, s: Step)
    requires Inv(w) && Enabled(w, s) && Orderly(w) && Orderly(Next(w, s))
    ensures Inv(Next(w, s))
  {
    match s {
      case Start(addr) => StartKeepsInv(w, addr);
      case BeginProbe(i, subject) =>
        assert Next(w, s).nodes[i].drawn == w.nodes[i].drawn + 1;
        RegisterKeepsInv(w, i, subject);
      case TakePingReq(i, packet) =>
        assert Next(w, s).nodes[i].drawn == w.nodes[i].drawn + 1;
        RelayKeepsInv(w, i, packet);
      case TakeAck(i, packet) => ResolveKeepsInv(w, i, packet, packet.body.from);
      case TakePingReqAck(i, packet) => ResolveKeepsInv(w, i, packet, packet.body.target);
      case AnswerPing(i, packet) => AnswerKeepsInv(w, i, packet);
      case Report(i, relay) => ReportKeepsInv(w, i, relay);
      case SendPing(_, _, _) => SendKeepsInv(w, s);
      case SendPingReq(_, _, _) => SendKeepsInv(w, s);
      case Lose(_) => QuietStepKeepsInv(w, Next(w, s));
      case TimeOut(_, _) => QuietStepKeepsInv(w, Next(w, s));
    }
  }

  lemma SendKeepsInv(w: World, s: Step)
    requires Inv(w) && Enabled(w, s) && (s.SendPing? || s.SendPingReq?)
    ensures Inv(Next(w, s))
  {
    QuietStepKeepsInv(w, Next(w, s));
  }

  lemma OrderlyBefore(w: World, s: Step)
    requires Enabled(w, s) && Orderly(Next(w, s))
    ensures Orderly(w)
  {
    var w' := Next(w, s);
    assert forall i :: 0 <= i < |w.nodes| ==> w'.nodes[i].addr == w.nodes[i].addr && w'.nodes[i].drawn >= w.nodes[i].drawn;
  }

  lemma {:induction false} RunKeepsInv(ws: seq<World>, steps: seq<Step>, k: nat)
    requires IsRun(ws, steps) && k < |ws| && Orderly(ws[k])
    ensures Inv(ws[k])
    decreases k
  {
    if k == 0 {
      EmptyIsOk();
    } else {
      assert StepAt(ws, steps, k - 1);
      OrderlyBefore(ws[k - 1], steps[k - 1]);
      RunKeepsInv(ws, steps, k - 1);
      StepLeadsTo(ws[k - 1], steps[k - 1], ws[k]);
    }
  }

  lemma EmptyIsOk()
    ensures Inv(EMPTY)
  {
  }

  lemma StepLeadsTo(w: World, s: Step, w': World)
    requires Inv(w) && Orderly(w) && Orderly(w') && Enabled(w, s) && w' == Next(w, s)
    ensures Inv(w')
  {
    StepKeepsInv(w, s);
  }

  /** Every wake-up in a run with one address per process and at most 2^32 numbers
      drawn by each rests on exactly the registration it names, with an answer to a
      ping by the subject itself in between. No registration is woken twice. */
  lemma ProbeSuccessIsCaused(ws: seq<World>, steps: seq<Step>, k: nat, at: nat)
    requires IsRun(ws, steps) && k < |ws| && Orderly(ws[k])
    requires at < |ws[k].log| && ws[k].log[at].Woken?
    ensures var log, e := ws[k].log, ws[k].log[at];
            && e.since < at && log[e.since].Registered? && log[e.since].node == e.node && log[e.since].number == e.number
            && (exists b :: e.since < b < at && log[b] == Answered(log[e.since].subject))
            && (forall a :: 0 <= a < |log| && log[a].Registered? && log[a].node == e.node && log[a].number == e.number ==> a == e.since)
            && (forall j :: 0 <= j < |log| && log[j].Woken? && log[j].node == e.node && log[j].number == e.number ==> j == at)
  {
    RunKeepsInv(ws, steps, k);
    var log := ws[k].log;
    assert WokenRightly(log, at);
    forall j | 0 <= j < |log| && log[j].Woken? && log[j].node == log[at].node && log[j].number == log[at].number
      ensures j == at
    {
      assert WokenRightly(log, j);
    }
  }
}
