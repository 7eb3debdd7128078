/** How far the numbers of probes, and the addresses they are sent to, can be relied on. */
module ProbeTheorems {
  import opened Types
  import opened Probing

  // ---- What the log says about numbers and waiters, in every run ------------------------

  /** How many numbers `i` has drawn before place `k` of the log. */
  function Draws(log: seq<Event>, i: NodeId, k: nat): nat
    requires k <= |log|
  {
    if k == 0 then 0
    else Draws(log, i, k - 1) + if log[k - 1].Registered? && log[k - 1].node == i then 1 else 0
  }

  lemma {:induction false} DrawsStay(log: seq<Event>, log': seq<Event>, i: NodeId, k: nat)
    requires log <= log' && k <= |log|
    ensures Draws(log', i, k) == Draws(log, i, k)
    decreases k
  {
    if k > 0 {
      DrawsStay(log, log', i, k - 1);
    }
  }

  lemma {:induction false} StrangersDrawNothing(log: seq<Event>, i: NodeId, k: nat)
    requires k <= |log| && forall a :: 0 <= a < k && log[a].Registered? ==> log[a].node != i
    ensures Draws(log, i, k) == 0
    decreases k
  {
    if k > 0 {
      StrangersDrawNothing(log, i, k - 1);
    }
  }

  lemma {:induction false} DrawsGrow(log: seq<Event>, i: NodeId, a: nat, k: nat)
    requires a <= k <= |log|
    ensures Draws(log, i, a) <= Draws(log, i, k)
    decreases k
  {
    if a < k {
      DrawsGrow(log, i, a, k - 1);
    }
  }

  /** A registration takes the number of draws before it, cut to 32 bits. */
  ghost predicate Numbered(w: World) {
    && (forall a :: 0 <= a < |w.log| && w.log[a].Registered? ==> NumberedAt(w, a))
    && (forall i :: 0 <= i < |w.nodes| ==> w.nodes[i].drawn == Draws(w.log, i, |w.log|))
  }

  ghost predicate NumberedAt(w: World, a: nat)
    requires a < |w.log| && w.log[a].Registered?
  {
    var e := w.log[a];
    e.node < |w.nodes| && e.subject != e.node && e.number == Draws(w.log, e.node, a) % SEQ_SPACE
  }

  /** Who waits was registered, and who was woken too. */
  ghost predicate Traced(w: World) {
    && (forall i, n :: 0 <= i < |w.nodes| && n in w.nodes[i].waiting ==> WaiterOk(w, i, n, w.nodes[i].waiting[n]))
    && (forall k :: 0 <= k < |w.log| && w.log[k].Woken? ==> w.log[k].since < k && w.log[w.log[k].since].Registered?)
  }

  /** What one step adds to the log, and who draws a number for it. */
  ghost predicate Grows(w: World, w': World) {
    && |w.nodes| <= |w'.nodes|
    && (w'.log == w.log || (|w'.log| == |w.log| + 1 && w.log <= w'.log))
    && (forall j :: 0 <= j < |w.nodes| ==> w'.nodes[j].drawn == w.nodes[j].drawn + if DrawnBy(w, w', j) then 1 else 0)
    && (forall j :: |w.nodes| <= j < |w'.nodes| ==> w'.nodes[j].drawn == 0)
    && (|w'.log| > |w.log| && w'.log[|w.log|].Registered? ==>
          var e := w'.log[|w.log|];
          e.node < |w.nodes| && e.subject != e.node && e.number == w.nodes[e.node].drawn % SEQ_SPACE)
  }

  predicate DrawnBy(w: World, w': World, j: NodeId) {
    |w'.log| > |w.log| && w'.log[|w.log|].Registered? && w'.log[|w.log|].node == j
  }

  lemma StepGrows(w: World, s: Step)
    requires Enabled(w, s)
    ensures Grows(w, Next(w, s))
  {
  }

  lemma GrowthKeepsNumbered(w: World, w': World)
    requires Numbered(w) && Grows(w, w')
    ensures Numbered(w')
  {
    forall a | 0 <= a < |w'.log| && w'.log[a].Registered? ensures NumberedAt(w', a) {
      DrawsStay(w.log, w'.log, w'.log[a].node, if a < |w.log| then a else |w.log|);
      assert a < |w.log| ==> w'.log[a] == w.log[a] && NumberedAt(w, a);
    }
    forall i | 0 <= i < |w'.nodes| ensures w'.nodes[i].drawn == Draws(w'.log, i, |w'.log|) {
      GrowthKeepsCount(w, w', i);
    }
  }

  lemma {:induction false} GrowthKeepsCount(w: World, w': World, i: NodeId)
    requires Numbered(w) && Grows(w, w') && i < |w'.nodes|
    ensures w'.nodes[i].drawn == Draws(w'.log, i, |w'.log|)
  {
    DrawsStay(w.log, w'.log, i, |w.log|);
    if i >= |w.nodes| {
      assert forall a :: 0 <= a < |w.log| && w.log[a].Registered? ==> NumberedAt(w, a);
      StrangersDrawNothing(w.log, i, |w.log|);
    }
  }

  lemma StepKeepsTraced(w: World, s: Step)
    requires Traced(w) && Enabled(w, s)
    ensures Traced(Next(w, s))
  {
    var w' := Next(w, s);
    forall i, n | 0 <= i < |w'.nodes| && n in w'.nodes[i].waiting ensures WaiterOk(w', i, n, w'.nodes[i].waiting[n]) {
      if i < |w.nodes| && n in w.nodes[i].waiting && w'.nodes[i].waiting[n] == w.nodes[i].waiting[n] {
        assert WaiterOk(w, i, n, w.nodes[i].waiting[n]);
      }
    }
    forall k | 0 <= k < |w'.log| && w'.log[k].Woken? ensures w'.log[k].since < k && w'.log[w'.log[k].since].Registered? {
      if k < |w.log| {
        assert w'.log[k] == w.log[k];
      } else {
        assert WaiterOk(w, s.i, s.packet.body.number, w.nodes[s.i].waiting[s.packet.body.number]);
      }
    }
  }

  lemma {:induction false} RunIsNumberedAndTraced(ws: seq<World>, steps: seq<Step>, k: nat)
    requires IsRun(ws, steps) && k < |ws|
    ensures Numbered(ws[k]) && Traced(ws[k])
    decreases k
  {
    if k > 0 {
      RunIsNumberedAndTraced(ws, steps, k - 1);
      assert StepAt(ws, steps, k - 1);
      StepGrows(ws[k - 1], steps[k - 1]);
      GrowthKeepsNumbered(ws[k - 1], ws[k]);
      StepKeepsTraced(ws[k - 1], steps[k - 1]);
    }
  }

  // ---- When numbers repeat ----------------------------------------------------------------

  /** In every run, two registrations by one process carry the same number exactly when
      as many numbers were drawn before the one as before the other, up to multiples
      of 2^32. */
  lemma {:induction false} NumbersRepeatExactlyWhenDrawsWrap(ws: seq<World>, steps: seq<Step>, k: nat, a: nat, b: nat)
    requires IsRun(ws, steps) && k < |ws| && a < |ws[k].log| && b < |ws[k].log|
    requires ws[k].log[a].Registered? && ws[k].log[b].Registered? && ws[k].log[a].node == ws[k].log[b].node
    ensures var log, i := ws[k].log, ws[k].log[a].node;
            log[a].number == log[b].number <==> Draws(log, i, a) % SEQ_SPACE == Draws(log, i, b) % SEQ_SPACE
  {
    RunIsNumberedAndTraced(ws, steps, k);
    assert NumberedAt(ws[k], a) && NumberedAt(ws[k], b);
  }

  /** The probe registered at place `a` is still waiting for its answer. */
  ghost predicate InFlight(w: World, a: nat) {
    && a < |w.log| && w.log[a].Registered? && w.log[a].node < |w.nodes|
    && var waiting := w.nodes[w.log[a].node].waiting;
       w.log[a].number in waiting && waiting[w.log[a].number].since == a
  }

  /** In every run, the number a process draws next is that of a probe still in flight
      exactly when it drew that probe's number a multiple of 2^32 draws ago. */
  lemma {:induction false} NextNumberIsInUseExactlyWhen(ws: seq<World>, steps: seq<Step>, k: nat, i: NodeId)
    requires IsRun(ws, steps) && k < |ws| && i < |ws[k].nodes|
    ensures var w, drawn := ws[k], ws[k].nodes[i].drawn;
            drawn % SEQ_SPACE in w.nodes[i].waiting <==>
              exists a: nat :: InFlight(w, a) && w.log[a].node == i && Draws(w.log, i, a) % SEQ_SPACE == drawn % SEQ_SPACE
  {
    RunIsNumberedAndTraced(ws, steps, k);
    var w, next := ws[k], ws[k].nodes[i].drawn % SEQ_SPACE;
    if next in w.nodes[i].waiting {
      var a := w.nodes[i].waiting[next].since;
      assert WaiterOk(w, i, next, w.nodes[i].waiting[next]);
      assert NumberedAt(w, a) && InFlight(w, a);
    }
    forall a: nat | InFlight(w, a) && w.log[a].node == i ensures w.log[a].number == Draws(w.log, i, a) % SEQ_SPACE {
      assert NumberedAt(w, a);
    }
  }

  // ---- Who can wake a probe -----------------------------------------------------------------

  /** The step hands over an answer, direct or relayed, under the number of the probe
      registered at `a`, to the process that registered it, about the member it was
      registered for, while it is in flight. */
  ghost predicate Answers(w: World, s: Step, a: nat) {
    && InFlight(w, a)
    && (s.TakeAck? || s.TakePingReqAck?) && s.i == w.log[a].node
    && match s.packet.body
       case Ack(number, from) => s.TakeAck? && number == w.log[a].number && from == w.log[a].subject
       case PingReqAck(number, target) => s.TakePingReqAck? && number == w.log[a].number && target == w.log[a].subject
       case _ => false
  }

  /** In every run, a step wakes the probe registered at `a` exactly when it is an answer
      about the very member that probe was registered for; nothing else wakes anybody,
      and any other answer changes nothing at all. */
  lemma OnlyAnswersAboutTheSubjectWake(ws: seq<World>, steps: seq<Step>, k: nat, a: nat)
    requires IsRun(ws, steps) && k < |steps|
    ensures Enabled(ws[k], steps[k]) && ws[k].log <= ws[k + 1].log
    ensures a < |ws[k].log| && ws[k].log[a].Registered? ==>
      (ws[k + 1].log == ws[k].log + [Woken(ws[k].log[a].node, ws[k].log[a].number, a)] <==> Answers(ws[k], steps[k], a))
    ensures |ws[k].log| < |ws[k + 1].log| && ws[k + 1].log[|ws[k].log|].Woken? ==>
      Answers(ws[k], steps[k], ws[k + 1].log[|ws[k].log|].since)
    ensures (steps[k].TakeAck? || steps[k].TakePingReqAck?) && ws[k + 1].log == ws[k].log ==> ws[k + 1] == ws[k]
  {
    assert StepAt(ws, steps, k);
    StepExtends(ws[k], steps[k]);
    RunIsNumberedAndTraced(ws, steps, k);
    WakeIsAnAnswer(ws[k], steps[k], a);
  }

  lemma WakeIsAnAnswer(w: World, s: Step, a: nat)
    requires Enabled(w, s) && Traced(w) && Numbered(w)
    ensures var w' := Next(w, s);
            && (a < |w.log| && w.log[a].Registered? ==>
                  (w'.log == w.log + [Woken(w.log[a].node, w.log[a].number, a)] <==> Answers(w, s, a)))
            && (|w.log| < |w'.log| && w'.log[|w.log|].Woken? ==> Answers(w, s, w'.log[|w.log|].since))
            && ((s.TakeAck? || s.TakePingReqAck?) && w'.log == w.log ==> w' == w)
  {
    var w' := Next(w, s);
    if s.TakeAck? || s.TakePingReqAck? {
      var n, number := w.nodes[s.i], s.packet.body.number;
      if number in n.waiting {
        assert WaiterOk(w, s.i, number, n.waiting[number]);
        assert NumberedAt(w, n.waiting[number].since);
      }
    }
    if a < |w.log| && w.log[a].Registered? && w'.log == w.log + [Woken(w.log[a].node, w.log[a].number, a)] {
      assert w'.log[|w.log|] == Woken(w.log[a].node, w.log[a].number, a);
    }
  }

  // ---- Building runs --------------------------------------------------------------------------

  lemma Extend(ws: seq<World>, steps: seq<Step>, s: Step) returns (ws': seq<World>, steps': seq<Step>)
    requires IsRun(ws, steps) && Enabled(ws[|steps|], s)
    ensures IsRun(ws', steps') && |steps'| == |steps| + 1 && ws'[|steps'|] == Next(ws[|steps|], s)
    ensures ws'[|steps|] == ws[|steps|] && steps'[|steps|] == s
  {
    ws', steps' := ws + [Next(ws[|steps|], s)], steps + [s];
    forall k | 0 <= k < |steps'| ensures StepAt(ws', steps', k) {
      if k < |steps| {
        assert StepAt(ws, steps, k);
      }
    }
  }

  function FreshNodes(addrs: seq<Addr>): (nodes: seq<Node>)
    ensures |nodes| == |addrs| && forall i :: 0 <= i < |addrs| ==> nodes[i] == Node(addrs[i], 0, map[], {})
  {
    if addrs == [] then [] else FreshNodes(addrs[..|addrs| - 1]) + [Node(addrs[|addrs| - 1], 0, map[], {})]
  }

  lemma {:induction false} StartAll(addrs: seq<Addr>) returns (ws: seq<World>, steps: seq<Step>)
    ensures IsRun(ws, steps) && ws[|steps|] == World(FreshNodes(addrs), {}, [])
    decreases |addrs|
  {
    if addrs == [] {
      ws, steps := [EMPTY], [];
    } else {
      ws, steps := StartAll(addrs[..|addrs| - 1]);
      ws, steps := Extend(ws, steps, Start(addrs[|addrs| - 1]));
    }
  }

  /** `w'` comes from `w` by `n` more probes that `i` begins; the last 2^32 of them at
      most are in flight. */
  ghost predicate Drew(w: World, w': World, i: NodeId, subject: NodeId, n: nat) {
    && i < |w.nodes| == |w'.nodes| && w'.net == w.net
    && (forall j :: 0 <= j < |w.nodes| && j != i ==> w'.nodes[j] == w.nodes[j])
    && w'.nodes[i].addr == w.nodes[i].addr && w'.nodes[i].drawn == w.nodes[i].drawn + n
    && |w'.log| == |w.log| + n && w.log <= w'.log
    && (forall k :: |w.log| <= k < |w'.log| ==> w'.log[k] == Registered(i, NumberOf(w, i, k), subject))
    && (forall k :: |w.log| <= k < |w'.log| && |w'.log| - k <= SEQ_SPACE ==>
          NumberOf(w, i, k) in w'.nodes[i].waiting && w'.nodes[i].waiting[NumberOf(w, i, k)] == Waiter(subject, k))
  }

  /** The number of a registration at place `k`, with nothing but draws by `i` since `w`. */
  function NumberOf(w: World, i: NodeId, k: nat): SeqNo
    requires i < |w.nodes| && |w.log| <= k
  {
    (w.nodes[i].drawn + (k - |w.log|)) % SEQ_SPACE
  }

  lemma NumbersDiffer(d: nat, x: nat, y: nat)
    requires x < y < x + SEQ_SPACE
    ensures (d + x) % SEQ_SPACE != (d + y) % SEQ_SPACE
  {
  }

  lemma OneMoreDraw(w: World, w': World, i: NodeId, subject: NodeId, n: nat)
    requires Drew(w, w', i, subject, n)
    ensures Drew(w, Register(w', i, subject), i, subject, n + 1)
  {
    var w'' := Register(w', i, subject);
    forall k | |w.log| <= k < |w''.log| && |w''.log| - k <= SEQ_SPACE
      ensures NumberOf(w, i, k) in w''.nodes[i].waiting && w''.nodes[i].waiting[NumberOf(w, i, k)] == Waiter(subject, k)
    {
      if k < |w'.log| {
        NumbersDiffer(w.nodes[i].drawn, k - |w.log|, n);
      }
    }
  }

  lemma {:induction false} DrawMany(ws: seq<World>, steps: seq<Step>, i: NodeId, subject: NodeId, n: nat) returns (ws': seq<World>, steps': seq<Step>)
    requires IsRun(ws, steps) && i < |ws[|steps|].nodes| && i != subject
    ensures IsRun(ws', steps') && Drew(ws[|steps|], ws'[|steps'|], i, subject, n)
    decreases n
  {
    if n == 0 {
      ws', steps' := ws, steps;
    } else {
      ws', steps' := DrawMany(ws, steps, i, subject, n - 1);
      OneMoreDraw(ws[|steps|], ws'[|steps'|], i, subject, n - 1);
      ws', steps' := Extend(ws', steps', BeginProbe(i, subject));
    }
  }

  /** After 2^32 probes that nobody answered and none of which has given up, the next one
      takes the number of the first, which is in flight until then and not after. */
  lemma ANumberIsTakenFromAProbeInFlight(addr: Addr, subject: NodeId) returns (ws: seq<World>, steps: seq<Step>)
    requires subject != 0
    ensures IsRun(ws, steps) && steps != [] && steps[|steps| - 1] == BeginProbe(0, subject)
    ensures var w, w' := ws[|steps| - 1], ws[|steps|];
            && InFlight(w, 0) && !InFlight(w', 0) && InFlight(w', |w.log|)
            && w'.log == w.log + [Registered(0, 0, subject)] && w.log[0] == Registered(0, 0, subject)
  {
    ws, steps := StartAll([addr]);
    ws, steps := DrawMany(ws, steps, 0, subject, SEQ_SPACE);
    ws, steps := Extend(ws, steps, BeginProbe(0, subject));
  }

  // ---- When a probe can be fooled ---------------------------------------------------------------

  ghost predicate Addressed(w: World, addrs: seq<Addr>) {
    |w.nodes| == |addrs| && forall i :: 0 <= i < |addrs| ==> w.nodes[i].addr == addrs[i]
  }

  ghost predicate DrewAtMost(w: World, most: nat) {
    forall i :: 0 <= i < |w.nodes| ==> w.nodes[i].drawn <= most
  }

  /** The wake-up at place `at` does not rest on an answer by the member asked about since
      it was asked about. */
  ghost predicate FooledAt(log: seq<Event>, at: nat) {
    at < |log| && log[at].Woken? && !WokenRightly(log, at)
  }

  ghost predicate HasFooled(ws: seq<World>, steps: seq<Step>, addrs: seq<Addr>, most: nat) {
    && IsRun(ws, steps) && Addressed(ws[|steps|], addrs) && DrewAtMost(ws[|steps|], most)
    && exists at: nat :: FooledAt(ws[|steps|].log, at)
  }

  predicate Repeats(addrs: seq<Addr>) {
    exists i, j :: 0 <= i < j < |addrs| && addrs[i] == addrs[j]
  }

  /** Two processes with one address, one after the other: the second is woken by an
      answer to the first one's ping, although nobody has answered since it asked. */
  lemma SharedAddressFoolsAProbe(addrs: seq<Addr>, i: nat, j: nat) returns (ws: seq<World>, steps: seq<Step>)
    requires i < j < |addrs| && addrs[i] == addrs[j]
    ensures HasFooled(ws, steps, addrs, 1)
    ensures ws[|steps|].log == [Registered(i, 0, j), Answered(i), Registered(j, 0, i), Woken(j, 0, 2)]
  {
    var a := addrs[i];
    var ping, ack := Packet(a, a, Body.Ping(0), 0), Packet(a, a, Body.Ack(0, i), 0);
    ws, steps := StartAll(addrs);
    ws, steps := Extend(ws, steps, BeginProbe(i, j));
    ws, steps := Extend(ws, steps, SendPing(i, 0, a));
    assert ping in ws[|steps|].net;
    ws, steps := Extend(ws, steps, AnswerPing(i, ping));
    assert ack in ws[|steps|].net;
    ws, steps := Extend(ws, steps, BeginProbe(j, i));
    ws, steps := Extend(ws, steps, TakeAck(j, ack));
    assert FooledAt(ws[|steps|].log, 3);
  }

  /** One process that draws 2^32 numbers while an answer to its first ping is under way:
      the last of them is the first again, and the old answer wakes it. */
  lemma WrappedNumberFoolsAProbe(addrs: seq<Addr>) returns (ws: seq<World>, steps: seq<Step>)
    requires |addrs| >= 2
    ensures HasFooled(ws, steps, addrs, SEQ_SPACE + 1)
  {
    var ping, ack := Packet(addrs[0], addrs[1], Body.Ping(0), 0), Packet(addrs[1], addrs[0], Body.Ack(0, 1), 0);
    ws, steps := StartAll(addrs);
    ws, steps := Extend(ws, steps, BeginProbe(0, 1));
    ws, steps := Extend(ws, steps, SendPing(0, 0, addrs[1]));
    assert ping in ws[|steps|].net;
    ws, steps := Extend(ws, steps, AnswerPing(1, ping));
    assert ack in ws[|steps|].net;
    var before := ws[|steps|];
    ws, steps := DrawMany(ws, steps, 0, 1, SEQ_SPACE);
    var w := ws[|steps|];
    assert NumberOf(before, 0, |w.log| - 1) == 0;
    ws, steps := Extend(ws, steps, TakeAck(0, ack));
    assert FooledAt(ws[|steps|].log, |w.log|);
  }

  /** What a direct probe is for: over any two addresses, a ping reaches its target and the
      answer wakes the probe. */
  lemma DirectProbeSucceeds(a: Addr, b: Addr) returns (ws: seq<World>, steps: seq<Step>)
    requires a != b
    ensures IsRun(ws, steps) && Addressed(ws[|steps|], [a, b]) && ws[|steps|].nodes[0].waiting == map[]
    ensures ws[|steps|].log == [Registered(0, 0, 1), Answered(1), Woken(0, 0, 0)]
  {
    var ping, ack := Packet(a, b, Body.Ping(0), 0), Packet(b, a, Body.Ack(0, 1), 0);
    ws, steps := StartAll([a, b]);
    ws, steps := Extend(ws, steps, BeginProbe(0, 1));
    ws, steps := Extend(ws, steps, SendPing(0, 0, b));
    assert ping in ws[|steps|].net;
    ws, steps := Extend(ws, steps, AnswerPing(1, ping));
    assert ack in ws[|steps|].net;
    ws, steps := Extend(ws, steps, TakeAck(0, ack));
  }

  /** The first process's own ping of the third is lost, and it has asked the second. */
  lemma RelayIsAsked(a: Addr, b: Addr, c: Addr, ask: Packet) returns (ws: seq<World>, steps: seq<Step>)
    requires a != b && b != c && a != c && ask == Packet(a, b, Body.PingReq(1, 2), 1)
    ensures IsRun(ws, steps)
    ensures ws[|steps|] ==
      World([Node(a, 2, map[1 := Waiter(2, 1)], {}), Node(b, 0, map[], {}), Node(c, 0, map[], {})], {ask},
            [Registered(0, 0, 2), Registered(0, 1, 2)])
  {
    var lost := Packet(a, c, Body.Ping(0), 0);
    ws, steps := StartAll([a, b, c]);
    ws, steps := Extend(ws, steps, BeginProbe(0, 2));
    ws, steps := Extend(ws, steps, SendPing(0, 0, c));
    assert lost in ws[|steps|].net;
    ws, steps := Extend(ws, steps, Lose(lost));
    ws, steps := Extend(ws, steps, TimeOut(0, 0));
    ws, steps := Extend(ws, steps, BeginProbe(0, 2));
    ws, steps := Extend(ws, steps, SendPingReq(0, 1, b));
    var w := ws[|steps|];
    assert w.nodes[0].waiting == map[1 := Waiter(2, 1)];
    assert w.nodes[0] == Node(a, 2, map[1 := Waiter(2, 1)], {});
    assert w.nodes == [w.nodes[0], Node(b, 0, map[], {}), Node(c, 0, map[], {})];
    assert w.net == {ask};
  }

  /** The second process has pinged the third and been answered. */
  lemma RelayIsAnswered(a: Addr, b: Addr, c: Addr) returns (ws: seq<World>, steps: seq<Step>, relay: Relay)
    requires a != b && b != c && a != c
    ensures IsRun(ws, steps) && Addressed(ws[|steps|], [a, b, c])
    ensures ws[|steps|].log == [Registered(0, 0, 2), Registered(0, 1, 2), Registered(1, 0, 2), Answered(2), Woken(1, 0, 2)]
    ensures ws[|steps|].nodes[0].waiting == map[1 := Waiter(2, 1)] && relay in ws[|steps|].nodes[1].relays
    ensures relay == Relay(a, 1, 1, 2, 0, 2)
  {
    var ask, ping, ack := Packet(a, b, Body.PingReq(1, 2), 1), Packet(b, c, Body.Ping(0), 2), Packet(c, b, Body.Ack(0, 2), 2);
    relay := Relay(a, 1, 1, 2, 0, 2);
    ws, steps := RelayIsAsked(a, b, c, ask);
    ws, steps := Extend(ws, steps, TakePingReq(1, ask));
    ws, steps := Extend(ws, steps, SendPing(1, 2, c));
    assert ping in ws[|steps|].net;
    ws, steps := Extend(ws, steps, AnswerPing(2, ping));
    assert ack in ws[|steps|].net;
    ws, steps := Extend(ws, steps, TakeAck(1, ack));
  }

  /** What relays are for: the asker's own ping is lost and given up, and a relay's report
      wakes the second round. */
  lemma RelayedProbeSucceeds(a: Addr, b: Addr, c: Addr) returns (ws: seq<World>, steps: seq<Step>)
    requires a != b && b != c && a != c
    ensures IsRun(ws, steps) && Addressed(ws[|steps|], [a, b, c]) && ws[|steps|].nodes[0].waiting == map[]
    ensures ws[|steps|].log ==
      [Registered(0, 0, 2), Registered(0, 1, 2), Registered(1, 0, 2), Answered(2), Woken(1, 0, 2), Woken(0, 1, 1)]
  {
    var relay;
    ws, steps, relay := RelayIsAnswered(a, b, c);
    var report := Packet(b, a, Body.PingReqAck(1, 2), 1);
    assert ws[|steps|].log[4] == Woken(1, 0, 2);
    ws, steps := Extend(ws, steps, Report(1, relay));
    assert report in ws[|steps|].net;
    ws, steps := Extend(ws, steps, TakePingReqAck(0, report));
  }

  /** A process on its own: only it answers, and it never asks about itself. */
  ghost predicate Alone(w: World) {
    && |w.nodes| <= 1
    && (forall k :: 0 <= k < |w.log| ==> !w.log[k].Woken?)
    && (forall packet :: packet in w.net ==> !packet.body.PingReqAck? && (packet.body.Ack? ==> packet.body.from == 0))
  }

  lemma {:induction false} AloneNobodyWakes(ws: seq<World>, steps: seq<Step>, k: nat)
    requires IsRun(ws, steps) && k < |ws| && |ws[k].nodes| <= 1
    ensures Alone(ws[k])
    decreases k
  {
    if k > 0 {
      assert StepAt(ws, steps, k - 1);
      StepExtends(ws[k - 1], steps[k - 1]);
      AloneNobodyWakes(ws, steps, k - 1);
      RunIsNumberedAndTraced(ws, steps, k - 1);
      StepKeepsAlone(ws[k - 1], steps[k - 1]);
    }
  }

  lemma StepKeepsAlone(w: World, s: Step)
    requires Alone(w) && Numbered(w) && Traced(w) && Enabled(w, s) && |Next(w, s).nodes| <= 1
    ensures Alone(Next(w, s))
  {
    WakeIsAnAnswer(w, s, 0);
    var w' := Next(w, s);
    if |w.log| < |w'.log| && w'.log[|w.log|].Woken? {
      assert false;
    }
  }

  /** Some process of a run in which a probe was woken has drawn a number. */
  lemma WakingTakesADraw(w: World, at: nat)
    requires Numbered(w) && Traced(w) && at < |w.log| && w.log[at].Woken?
    ensures !DrewAtMost(w, 0)
  {
    var a := w.log[at].since;
    assert NumberedAt(w, a);
    var i := w.log[a].node;
    assert Draws(w.log, i, a + 1) >= 1;
    DrawsGrow(w.log, i, a + 1, |w.log|);
    assert w.nodes[i].drawn >= 1;
  }

  /** Given the addresses of all processes and how many numbers each may draw, a probe can
      be woken with no answer since it was registered in some run exactly when two of the
      addresses are the same, or when there are two processes and numbers can wrap. */
  lemma ProbesCanBeFooledExactlyWhen(addrs: seq<Addr>, most: nat)
    ensures (exists ws, steps :: HasFooled(ws, steps, addrs, most)) <==>
      (most >= 1 && Repeats(addrs)) || (most > SEQ_SPACE && |addrs| >= 2)
  {
    if most >= 1 && Repeats(addrs) {
      var i, j :| 0 <= i < j < |addrs| && addrs[i] == addrs[j];
      var ws, steps := SharedAddressFoolsAProbe(addrs, i, j);
      assert HasFooled(ws, steps, addrs, most);
    } else if most > SEQ_SPACE && |addrs| >= 2 {
      var ws, steps := WrappedNumberFoolsAProbe(addrs);
      assert HasFooled(ws, steps, addrs, most);
    } else {
      forall ws, steps ensures !HasFooled(ws, steps, addrs, most) {
        if HasFooled(ws, steps, addrs, most) {
          NoProbeIsFooled(ws, steps, addrs, most);
        }
      }
    }
  }

  lemma NoProbeIsFooled(ws: seq<World>, steps: seq<Step>, addrs: seq<Addr>, most: nat)
    requires IsRun(ws, steps) && Addressed(ws[|steps|], addrs) && DrewAtMost(ws[|steps|], most)
    requires most == 0 || !Repeats(addrs)
    requires most <= SEQ_SPACE || |addrs| < 2
    ensures forall at: nat :: !FooledAt(ws[|steps|].log, at)
  {
    var w := ws[|steps|];
    RunIsNumberedAndTraced(ws, steps, |steps|);
    forall at: nat ensures !FooledAt(w.log, at) {
      if at < |w.log| && w.log[at].Woken? {
        WakingTakesADraw(w, at);
        if |addrs| < 2 {
          AloneNobodyWakes(ws, steps, |steps|);
        } else {
          assert Orderly(w);
          RunKeepsInv(ws, steps, |steps|);
        }
      }
    }
  }
}
