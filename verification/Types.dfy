/** The values that travel between nodes and the ones each node keeps
    (node.rs and wire.rs). */
module Types {

  datatype Option<+T> = None | Some(value: T)

  /** A process draws its id at random when it starts, so a restart is a new node. */
  type NodeId = nat

  /** An unsigned 32-bit counter that only its owner moves. */
  const MAX_INCARNATION: nat := 0xFFFF_FFFF
  type Incarnation = n: nat | n <= 0xFFFF_FFFF

  /** Milliseconds on a clock that never runs backwards. */
  type Time = nat

  datatype Ip = V4(bits: nat) | V6(bits: nat) {
    predicate IsUnspecified() { bits == 0 }
  }

  type Port = n: nat | n <= 0xFFFF

  datatype Addr = Addr(ip: Ip, port: Port)

  type Tags = seq<string>

  datatype WireState = Alive | Suspect | Dead

  /** `since` is read on this node's own clock and never crosses the wire. */
  datatype MemberState = Alive | Suspect(since: Time) | Dead(since: Time)

  datatype Member = Member(id: NodeId, addr: Addr, incarnation: Incarnation, state: MemberState, ready: bool, tags: Tags)

  /** A rumor: somebody's belief about one member. */
  datatype WireMember = WireMember(id: NodeId, addr: Addr, incarnation: Incarnation, state: WireState, ready: bool, tags: Tags)

  /** A node speaking for itself. */
  datatype WireIdentity = WireIdentity(id: NodeId, addr: Addr, incarnation: Incarnation, ready: bool, tags: Tags)

  function IntoMember(from: WireIdentity): WireMember {
    WireMember(from.id, from.addr, from.incarnation, WireState.Alive, from.ready, from.tags)
  }

  function ToWireState(state: MemberState): WireState {
    match state
    case Alive => WireState.Alive
    case Suspect(_) => WireState.Suspect
    case Dead(_) => WireState.Dead
  }

  /** Reading a state off the wire is the moment this node's clock for it starts. */
  function FromWireState(state: WireState, now: Time): MemberState {
    match state
    case Alive => MemberState.Alive
    case Suspect => MemberState.Suspect(now)
    case Dead => MemberState.Dead(now)
  }

  function ToWire(m: Member): WireMember {
    WireMember(m.id, m.addr, m.incarnation, ToWireState(m.state), m.ready, m.tags)
  }

  function FromWire(r: WireMember, now: Time): Member {
    Member(r.id, r.addr, r.incarnation, FromWireState(r.state, now), r.ready, r.tags)
  }

  function Rank(state: WireState): nat {
    match state
    case Alive => 0
    case Suspect => 1
    case Dead => 2
  }

  /** The next incarnation up, stuck at the largest one. */
  function Superseding(other: Incarnation): Incarnation {
    if other == MAX_INCARNATION then other else other + 1
  }

  /** Letters, digits and three marks are single bytes. */
  lemma TagsAreAscii(tags: Tags)
    requires CheckTags(tags)
    ensures |tags| <= 4
    ensures forall i :: 0 <= i < |tags| ==> 1 <= |tags[i]| <= 16 && forall j :: 0 <= j < |tags[i]| ==> tags[i][j] as int < 128 && tags[i][j] > ','
  {
  }

  lemma SubsetSize<T>(a: set<T>, b: set<T>)
    requires a <= b
    ensures |a| <= |b|
  {
    assert b == a + (b - a);
  }

  // ---- Messages -----------------------------------------------------------------

  /** Sequence numbers are unsigned 32-bit and wrap. */
  type SeqNo = n: nat | n <= 0xFFFF_FFFF

  datatype UdpBody =
    | Ping(number: SeqNo, from: WireIdentity, gossip: seq<WireMember>)
    | Ack(number: SeqNo, from: WireIdentity, gossip: seq<WireMember>)
    | PingReq(number: SeqNo, from: WireIdentity, target: NodeId, gossip: seq<WireMember>)
    | PingReqAck(number: SeqNo, from: WireIdentity, target: NodeId, gossip: seq<WireMember>)
    | Leave(from: WireIdentity)

  datatype TcpBody =
    | JoinRequest(from: WireIdentity)
    | JoinResponse(from: WireIdentity, members: seq<WireMember>)
    | MembersRequest
    | MembersResponse(from: WireIdentity, members: seq<WireMember>)
    | SyncRequest(from: WireIdentity, members: seq<WireMember>)
    | SyncResponse(from: WireIdentity, members: seq<WireMember>)

  /** What a Leave is merged as: dead at the incarnation it gives. */
  function LeaveRumor(from: WireIdentity): WireMember {
    IntoMember(from).(state := WireState.Dead)
  }

  /** The bytes of the authentication tag that every message carries. */
  const TAG_LEN: nat := 32

  // ---- The limits on tags -------------------------------------------------------

  const MAX_TAGS: nat := 4
  const MAX_TAG_LEN: nat := 16

  predicate AllowedInTag(c: char) {
    'a' <= c <= 'z' || 'A' <= c <= 'Z' || '0' <= c <= '9' || c == '-' || c == '_' || c == '.'
  }

  /** The check each process makes on its own tags before it starts. Allowed
      characters are one byte each, so a tag's length is its size. */
  predicate CheckTags(tags: Tags) {
    && |tags| <= MAX_TAGS
    && forall i :: 0 <= i < |tags| ==>
      tags[i] != [] && |tags[i]| <= MAX_TAG_LEN && forall j :: 0 <= j < |tags[i]| ==> AllowedInTag(tags[i][j])
  }
}
