/** How many bytes a datagram takes (the size limits of wire.rs and udp.rs). Only
    sizes are modelled: integers take one byte per seven bits, an id is a length
    byte and sixteen more, an enum is one byte, and a list is its length and its
    elements. */
module Datagrams {
  import opened Types
  import opened LocalNodes
  import opened MemberTables
  import opened GossipQueues
  import opened Cluster
  import opened ClusterInvariants

  const MAX_DATAGRAM_LEN: nat := 1400
  const ID_LEN: nat := 17
  const ENUM_LEN: nat := 1
  const BOOL_LEN: nat := 1
  const VERSION_LEN: nat := 1

  function VarintLen(n: nat): nat { if n < 128 then 1 else 1 + VarintLen(n / 128) }

  function AddrLen(addr: Addr): nat {
    ENUM_LEN + (match addr.ip case V4(_) => 4 case V6(_) => 16) + VarintLen(addr.port)
  }

  function StringLen(s: string): nat { VarintLen(|s|) + |s| }

  function TagsLen(tags: Tags): nat {
    VarintLen(|tags|) + TagBytes(tags)
  }

  function TagBytes(tags: Tags): nat {
    if tags == [] then 0 else StringLen(tags[0]) + TagBytes(tags[1..])
  }

  function IdentityLen(from: WireIdentity): nat {
    ID_LEN + AddrLen(from.addr) + VarintLen(from.incarnation) + BOOL_LEN + TagsLen(from.tags)
  }

  function RumorLen(r: WireMember): nat {
    ID_LEN + AddrLen(r.addr) + VarintLen(r.incarnation) + ENUM_LEN + BOOL_LEN + TagsLen(r.tags)
  }

  function GossipLen(gossip: seq<WireMember>): nat {
    VarintLen(|gossip|) + RumorBytes(gossip)
  }

  function RumorBytes(gossip: seq<WireMember>): nat {
    if gossip == [] then 0 else RumorLen(gossip[0]) + RumorBytes(gossip[1..])
  }

  function BodyLen(body: UdpBody): nat {
    ENUM_LEN +
    match body
    case Ping(number, from, gossip) => VarintLen(number) + IdentityLen(from) + GossipLen(gossip)
    case Ack(number, from, gossip) => VarintLen(number) + IdentityLen(from) + GossipLen(gossip)
    case PingReq(number, from, _, gossip) => VarintLen(number) + IdentityLen(from) + ID_LEN + GossipLen(gossip)
    case PingReqAck(number, from, _, gossip) => VarintLen(number) + IdentityLen(from) + ID_LEN + GossipLen(gossip)
    case Leave(from) => IdentityLen(from)
  }

  /** The version byte, the body and the authentication tag. */
  function DatagramLen(body: UdpBody): nat { VERSION_LEN + BodyLen(body) + TAG_LEN }

  // ---- Bounds -------------------------------------------------------------------

  lemma {:induction false} VarintBounds(n: nat)
    ensures n <= 0xFFFF_FFFF ==> VarintLen(n) <= 5
    ensures n <= 0xFFFF ==> VarintLen(n) <= 3
    ensures n < 128 ==> VarintLen(n) == 1
  {
    if n <= 0xFFFF_FFFF {
      var a, b, c, d := n / 128, n / 128 / 128, n / 128 / 128 / 128, n / 128 / 128 / 128 / 128;
      assert d < 128;
      assert VarintLen(d) == 1 && VarintLen(c) <= 2 && VarintLen(b) <= 3 && VarintLen(a) <= 4;
      if n <= 0xFFFF {
        assert b < 128;
        assert VarintLen(b) == 1 && VarintLen(a) <= 2;
      }
    }
  }

  function Pow128(k: nat): (p: nat)
    ensures p > 0
  {
    if k == 0 then 1 else 128 * Pow128(k - 1)
  }

  /** As many bytes as groups of seven bits. */
  lemma {:induction false} VarintLenIsExact(n: nat, k: nat)
    ensures VarintLen(n) <= k + 1 <==> n < Pow128(k + 1)
    decreases k
  {
    if k > 0 && n >= 128 {
      VarintLenIsExact(n / 128, k - 1);
    }
  }

  lemma {:induction false} TagBytesBound(tags: Tags)
    requires forall i :: 0 <= i < |tags| ==> |tags[i]| <= MAX_TAG_LEN
    ensures TagBytes(tags) <= 17 * |tags|
    decreases |tags|
  {
    if tags != [] {
      TagBytesBound(tags[1..]);
      VarintBounds(|tags[0]|);
    }
  }

  lemma {:induction false} AddrAndTagsBound(addr: Addr, incarnation: Incarnation, tags: Tags)
    requires CheckTags(tags)
    ensures AddrLen(addr) <= 20 && VarintLen(incarnation) <= 5 && TagsLen(tags) <= 69
  {
    VarintBounds(addr.port);
    VarintBounds(incarnation);
    VarintBounds(|tags|);
    TagBytesBound(tags);
  }

  lemma RumorFits(r: WireMember)
    requires CheckTags(r.tags)
    ensures RumorLen(r) <= 113
  {
    AddrAndTagsBound(r.addr, r.incarnation, r.tags);
  }

  lemma GossipFits(gossip: seq<WireMember>)
    requires |gossip| <= MAX_PIGGYBACK
    requires forall i :: 0 <= i < |gossip| ==> CheckTags(gossip[i].tags)
    ensures GossipLen(gossip) <= 1131
  {
    VarintBounds(|gossip|);
    RumorBytesBound(gossip);
  }

  lemma {:induction false} RumorBytesBound(gossip: seq<WireMember>)
    requires forall i :: 0 <= i < |gossip| ==> CheckTags(gossip[i].tags)
    ensures RumorBytes(gossip) <= 113 * |gossip|
    decreases |gossip|
  {
    if gossip != [] {
      RumorFits(gossip[0]);
      RumorBytesBound(gossip[1..]);
    }
  }

  lemma BodyFits(body: UdpBody)
    requires CheckTags(body.from.tags)
    requires !body.Leave? ==> |body.gossip| <= MAX_PIGGYBACK && forall i :: 0 <= i < |body.gossip| ==> CheckTags(body.gossip[i].tags)
    ensures DatagramLen(body) <= 1299 < MAX_DATAGRAM_LEN
  {
    AddrAndTagsBound(body.from.addr, body.from.incarnation, body.from.tags);
    if !body.Leave? {
      VarintBounds(body.number);
      GossipFits(body.gossip);
    }
  }

  // ---- In the cluster -------------------------------------------------------------

  /** Every process checks its tags before it starts, so in every run every datagram
      in the network fits, and so does every rumor on it. */
  lemma EveryDatagramFits(cs: seq<Cluster>, steps: seq<Step>, k: nat, body: UdpBody)
    requires IsRun(cs, steps) && k < |cs| && Udp(body) in cs[k].net
    ensures DatagramLen(body) <= 1299 < MAX_DATAGRAM_LEN
    ensures !body.Leave? ==> |body.gossip| <= 10 && forall i :: 0 <= i < |body.gossip| ==> RumorLen(body.gossip[i]) <= 113
  {
    RunKeepsInv(cs, steps, k);
    var c := cs[k];
    assert MessageOk(c.procs, Udp(body));
    assert ProcOk(c.procs[body.from.id], body.from.id);
    if !body.Leave? {
      assert AllHold(MessageRecords(Udp(body)), Truth(c.procs));
      forall i | 0 <= i < |body.gossip| ensures CheckTags(body.gossip[i].tags) && RumorLen(body.gossip[i]) <= 113 {
        assert Truthful(c.procs, body.gossip[i]);
        assert ProcOk(c.procs[body.gossip[i].id], body.gossip[i].id);
        RumorFits(body.gossip[i]);
      }
    }
    BodyFits(body);
  }

  /** The least a rumor takes: an IPv4 address, small numbers and no tags. Every tag adds
      its length and a byte. */
  lemma ShortestRumor(r: WireMember, tag: string)
    requires |tag| < 128 && |r.tags| < 127
    ensures RumorLen(r) >= 27
    ensures r.addr.ip.V4? && r.addr.port < 128 && r.incarnation < 128 && r.tags == [] ==> RumorLen(r) == 27
    ensures RumorLen(r.(tags := [tag] + r.tags)) == RumorLen(r) + 1 + |tag|
  {
    VarintBounds(r.addr.port);
    VarintBounds(r.incarnation);
    VarintBounds(|r.tags|);
    VarintBounds(|r.tags| + 1);
    VarintBounds(|tag|);
    assert ([tag] + r.tags)[1..] == r.tags;
  }

  /** An ack is as long as a ping, a relay's two messages are an id longer, and a leave is
      an empty ping without its number and its list. */
  lemma KindsOfDatagram(number: SeqNo, from: WireIdentity, target: NodeId, gossip: seq<WireMember>)
    ensures DatagramLen(Ack(number, from, gossip)) == DatagramLen(Ping(number, from, gossip))
    ensures DatagramLen(PingReq(number, from, target, gossip)) == DatagramLen(Ping(number, from, gossip)) + 17
    ensures DatagramLen(PingReqAck(number, from, target, gossip)) == DatagramLen(Ping(number, from, gossip)) + 17
    ensures DatagramLen(Leave(from)) + 2 == DatagramLen(Ping(0, from, []))
  {
  }

  /** The bound is met: a relay request with ten rumors, all at their longest. */
  lemma LongestDatagram(from: WireIdentity, target: NodeId, gossip: seq<WireMember>)
    requires from.addr.ip.V6? && from.addr.port == 0xFFFF && from.incarnation == MAX_INCARNATION
    requires |from.tags| == 4 && forall i :: 0 <= i < 4 ==> |from.tags[i]| == 16
    requires |gossip| == 10 && forall i :: 0 <= i < 10 ==> gossip[i] == IntoMember(from).(id := gossip[i].id)
    ensures DatagramLen(PingReq(0xFFFF_FFFF, from, target, gossip)) == 1299
  {
    assert VarintLen(0xFFFF) == 3 && VarintLen(0xFFFF_FFFF) == 5 by {
      assert VarintLen(0xFFFF / 128) == 2;
      assert VarintLen(0xFFFF_FFFF / 128 / 128 / 128) == 2;
      assert VarintLen(0xFFFF_FFFF / 128) == 4;
    }
    var t := from.tags;
    LongestTags(t);
    assert VarintLen(4) == 1 && VarintLen(10) == 1;
    LongestRumors(gossip);
  }

  lemma {:induction false} LongestTags(tags: Tags)
    requires forall i :: 0 <= i < |tags| ==> |tags[i]| == 16
    ensures TagBytes(tags) == 17 * |tags|
    decreases |tags|
  {
    if tags != [] {
      LongestTags(tags[1..]);
    }
  }

  lemma {:induction false} LongestRumors(gossip: seq<WireMember>)
    requires forall i :: 0 <= i < |gossip| ==> RumorLen(gossip[i]) == 113
    ensures RumorBytes(gossip) == 113 * |gossip|
    decreases |gossip|
  {
    if gossip != [] {
      LongestRumors(gossip[1..]);
    }
  }
}
