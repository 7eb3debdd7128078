/** This node's own incarnation, readiness and shutdown flag, all behind one
    lock (node.rs). */
module LocalNodes {
  import opened Types

  /** What the lock guards, next to the three values fixed at startup. */
  datatype Local = Local(id: NodeId, addr: Addr, tags: Tags, incarnation: Incarnation, leaving: bool, ready: bool) {

    function Identity(): WireIdentity { WireIdentity(id, addr, incarnation, ready, tags) }

    function AliveRumor(): WireMember { IntoMember(Identity()) }

    /** Move past `rumored`, unless this node is leaving or already is past it. */
    function Refute(rumored: Incarnation): Local {
      if leaving || rumored < incarnation then this else this.(incarnation := Superseding(rumored))
    }

    predicate SetReadyChanges(value: bool) { !leaving && ready != value }

    function SetReady(value: bool): Local {
      if SetReadyChanges(value) then this.(incarnation := Superseding(incarnation), ready := value) else this
    }

    function Leave(): Local { this.(leaving := true) }

    static function New(id: NodeId, addr: Addr, tags: Tags): Local { Local(id, addr, tags, 0, false, true) }
  }

  class LocalNode {
    const id: NodeId
    const addr: Addr
    const tags: Tags
    var incarnation: Incarnation
    var leaving: bool
    var ready: bool

    ghost function Value(): Local
      reads this
    {
      Local(id, addr, tags, incarnation, leaving, ready)
    }

    constructor (id: NodeId, addr: Addr, tags: Tags)
      ensures Value() == Local.New(id, addr, tags)
      ensures incarnation == 0 && !leaving && ready
    {
      this.id, this.addr, this.tags := id, addr, tags;
      incarnation, leaving, ready := 0, false, true;
    }

    method Identity() returns (from: WireIdentity)
      ensures from == Value().Identity()
      ensures from == WireIdentity(id, addr, incarnation, ready, tags)
    {
      from := WireIdentity(id, addr, incarnation, ready, tags);
    }

    method AliveRumor() returns (rumor: WireMember)
      ensures rumor == Value().AliveRumor()
      ensures rumor == WireMember(id, addr, incarnation, WireState.Alive, ready, tags)
    {
      rumor := WireMember(id, addr, incarnation, WireState.Alive, ready, tags);
    }

    /** None when this node is leaving and the rumor should stand. Otherwise the
        number to advertise, which beats the rumor unless the rumor is at the
        largest incarnation there is. */
    method Refute(rumored: Incarnation) returns (now: Option<Incarnation>)
      modifies this
      ensures Value() == old(Value()).Refute(rumored)
      ensures now == if leaving then None else Some(incarnation)
      ensures !leaving ==> rumored < incarnation || rumored == incarnation == MAX_INCARNATION
    {
      if leaving {
        return None;
      }
      if rumored >= incarnation {
        incarnation := Superseding(rumored);
      }
      return Some(incarnation);
    }

    method Leave()
      modifies this
      ensures Value() == old(Value()).Leave()
      ensures leaving && incarnation == old(incarnation) && ready == old(ready)
    {
      leaving := true;
    }

    method SetReady(value: bool) returns (changed: bool)
      modifies this
      ensures Value() == old(Value()).SetReady(value)
      ensures changed == old(Value()).SetReadyChanges(value) == (ready != old(ready))
    {
      if leaving || ready == value {
        return false;
      }
      incarnation := Superseding(incarnation);
      ready := value;
      return true;
    }
  }

  /** A refute moves nothing but the number: just past the rumor, if it has to move at all
      and there is room. */
  lemma RefuteMovesJustPastTheRumor(l: Local, rumored: Incarnation)
    ensures l.Refute(rumored) == l.(incarnation :=
      if l.leaving || rumored < l.incarnation then l.incarnation
      else if rumored < 0xFFFF_FFFF then rumored + 1
      else 0xFFFF_FFFF)
  {
  }

  /** A change of readiness moves the number up by one, if there is room. The same answer
      again, or any answer while leaving, moves nothing. */
  lemma FlipMovesUpByOne(l: Local, value: bool)
    ensures l.SetReady(value) ==
      if l.leaving || l.ready == value then l
      else l.(ready := value, incarnation := if l.incarnation < 0xFFFF_FFFF then l.incarnation + 1 else 0xFFFF_FFFF)
  {
  }

  /** Something another task does to the local node. */
  datatype LocalOp = RefuteOp(rumored: Incarnation) | SetReadyOp(value: bool) | LeaveOp

  function Perform(l: Local, op: LocalOp): Local {
    match op
    case RefuteOp(rumored) => l.Refute(rumored)
    case SetReadyOp(value) => l.SetReady(value)
    case LeaveOp => l.Leave()
  }

  function PerformAll(l: Local, ops: seq<LocalOp>): Local
    decreases |ops|
  {
    if ops == [] then l else PerformAll(Perform(l, ops[0]), ops[1..])
  }

  /** In whatever order the tasks run, the number never falls, and id, address and
      tags never change. Once the node is leaving nothing moves at all. And if
      the number did not move, readiness did not either, except by a flip at the
      largest incarnation: a pair read under the lock is never contradicted. */
  lemma {:induction false} OwnNumberOnlyGrows(l: Local, ops: seq<LocalOp>)
    ensures var l' := PerformAll(l, ops);
            && l'.id == l.id && l'.addr == l.addr && l'.tags == l.tags
            && l.incarnation <= l'.incarnation
            && (l.leaving ==> l' == l)
            && (l'.incarnation == l.incarnation < MAX_INCARNATION ==> l'.ready == l.ready)
    decreases |ops|
  {
    if ops != [] {
      OwnNumberOnlyGrows(Perform(l, ops[0]), ops[1..]);
    }
  }
}
