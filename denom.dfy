/**
 * Denom resolution: the canonical identifier under which a transfer packet's
 * asset is rate limited, following the ICS-20 rules for when a denom trace is
 * prefixed, stripped and hashed.
 */
module Denom {
  import opened Wrappers
  import opened Hex
  import opened Packets

  /** A SHA-256 digest. */
  type Digest = d: seq<byte> | |d| == 32 witness seq(32, i => 0)

  /** SHA-256 over the bytes of a string; the hash function itself is a parameter. */
  type Hasher = string -> Digest

  /** A trace with no `/` has no port/channel hops: a native asset. */
  predicate IsNative(trace: string) {
    '/' !in trace
  }

  predicate HasPrefix(s: string, prefix: string) {
    |prefix| <= |s| && s[..|prefix|] == prefix
  }

  /** The hop prefix `port/channel/` a chain adds to a trace received on that endpoint. */
  function DenomPrefix(port: string, channel: string): string {
    port + "/" + channel + "/"
  }

  /** The IBC denom of a trace: `ibc/` followed by the upper-case hex SHA-256 of the whole trace. */
  function HashDenomTrace(sha256: Hasher, trace: string): (r: string)
    ensures |r| == 68 && r[..4] == "ibc/"
    ensures forall i :: 4 <= i < |r| ==> IsHexChar(r[i])
    ensures !IsNative(r)
    ensures HexDecode(r[4..]).Some? && HexDecode(r[4..]).value == sha256(trace)
  {
    var hex := HexEncode(sha256(trace));
    var r := "ibc/" + hex;
    assert r[3] == '/';
    assert r[4..] == hex;
    DecodeEncode(sha256(trace));
    r
  }

  /** Two traces get the same IBC denom exactly when their digests agree. */
  lemma HashDenomTraceInjective(sha256: Hasher, a: string, b: string)
    ensures HashDenomTrace(sha256, a) == HashDenomTrace(sha256, b) <==> sha256(a) == sha256(b)
  {
    var ha, hb := HashDenomTrace(sha256, a), HashDenomTrace(sha256, b);
    if ha == hb {
      assert ha[4..] == HexEncode(sha256(a)) && hb[4..] == HexEncode(sha256(b));
      EncodeInjective(sha256(a), sha256(b));
    }
  }

  /**
   * The receiving chain is the asset's source when the trace starts with the
   * packet's source endpoint: the asset left on this channel and is returning.
   */
  predicate ReceiverChainIsSource(sourcePort: string, sourceChannel: string, denom: string) {
    HasPrefix(denom, DenomPrefix(sourcePort, sourceChannel))
  }

  /** Which ICS-20 case a received trace falls under. */
  datatype Origin = SourceReturning | SinkArriving

  function RecvOrigin(packet: Packet, data: PacketData): (o: Origin)
    ensures o == SourceReturning <==> exists rest :: data.denom == DenomPrefix(packet.sourcePort, packet.sourceChannel) + rest
  {
    var prefix := DenomPrefix(packet.sourcePort, packet.sourceChannel);
    if ReceiverChainIsSource(packet.sourcePort, packet.sourceChannel, data.denom) then
      assert data.denom == prefix + data.denom[|prefix|..];
      SourceReturning
    else
      NoPrefixNoSplit(data.denom, prefix);
      SinkArriving
  }

  /** A string that does not start with a prefix is not that prefix followed by anything. */
  lemma NoPrefixNoSplit(s: string, prefix: string)
    requires !HasPrefix(s, prefix)
    ensures forall rest :: s != prefix + rest
  {
  }

  /** The rate-limit denom of an outgoing packet: natives as they are, traces hashed. */
  function ParseDenomFromSendPacket(sha256: Hasher, data: PacketData): (denom: string)
    ensures IsNative(denom) <==> IsNative(data.denom)
    ensures IsNative(data.denom) ==> denom == data.denom
    ensures !IsNative(data.denom) ==> |denom| == 68 && denom[..4] == "ibc/" && HexDecode(denom[4..]).Some? && HexDecode(denom[4..]).value == sha256(data.denom)
  {
    if IsNative(data.denom) then data.denom else HashDenomTrace(sha256, data.denom)
  }

  /**
   * The rate-limit denom of an incoming packet. A returning asset loses the
   * source prefix and is then resolved like an outgoing one; an arriving asset
   * gains the destination prefix and is hashed.
   */
  function ParseDenomFromRecvPacket(sha256: Hasher, packet: Packet, data: PacketData): (denom: string)
  {
    match RecvOrigin(packet, data)
    case SourceReturning =>
      var unprefixed := data.denom[|DenomPrefix(packet.sourcePort, packet.sourceChannel)|..];
      if IsNative(unprefixed) then unprefixed else HashDenomTrace(sha256, unprefixed)
    case SinkArriving =>
      HashDenomTrace(sha256, DenomPrefix(packet.destPort, packet.destChannel) + data.denom)
  }

  // ---------------------------------------------------------------------------
  // Properties of send resolution

  /**
   * Send keys never mix natives and IBC denoms, and two traces share a key only
   * when they are equal or both are prefixed traces with equal digests.
   */
  lemma SendKeysCollideOnlyOnDigest(sha256: Hasher, a: PacketData, b: PacketData)
    ensures ParseDenomFromSendPacket(sha256, a) == ParseDenomFromSendPacket(sha256, b)
        <==> a.denom == b.denom || (!IsNative(a.denom) && !IsNative(b.denom) && sha256(a.denom) == sha256(b.denom))
  {
    HashDenomTraceInjective(sha256, a.denom, b.denom);
  }

  // ---------------------------------------------------------------------------
  // Properties of receive resolution

  /**
   * An asset that left on an endpoint and comes back over it resolves, on
   * arrival, to the key it was limited under when it was sent: a native
   * returns as itself, a multi-hop trace as the hash of the trace it left with.
   */
  lemma RecvReturningMatchesSend(sha256: Hasher, packet: Packet, trace: string, amount: nat)
    ensures var returning := PacketData(DenomPrefix(packet.sourcePort, packet.sourceChannel) + trace, amount);
      ParseDenomFromRecvPacket(sha256, packet, returning) == ParseDenomFromSendPacket(sha256, PacketData(trace, amount))
  {
  }

  /**
   * An asset arriving from elsewhere resolves to the key the receiving chain
   * will use when it sends the resulting voucher (trace with the destination
   * prefix) onward.
   */
  lemma RecvSinkMatchesOnwardSend(sha256: Hasher, packet: Packet, data: PacketData)
    requires !ReceiverChainIsSource(packet.sourcePort, packet.sourceChannel, data.denom)
    ensures var voucher := DenomPrefix(packet.destPort, packet.destChannel) + data.denom;
      ParseDenomFromRecvPacket(sha256, packet, data) == ParseDenomFromSendPacket(sha256, PacketData(voucher, data.amount))
      && ParseDenomFromRecvPacket(sha256, packet, data) == HashDenomTrace(sha256, voucher)
  {
  }

  /** A received asset keeps a native key exactly when it is a native coming home. */
  lemma RecvNativeIff(sha256: Hasher, packet: Packet, data: PacketData)
    ensures var prefix := DenomPrefix(packet.sourcePort, packet.sourceChannel);
      IsNative(ParseDenomFromRecvPacket(sha256, packet, data))
      <==> (ReceiverChainIsSource(packet.sourcePort, packet.sourceChannel, data.denom) && IsNative(data.denom[|prefix|..]))
  {
  }

  /**
   * The source test matches whole segments: a trace whose first hop is the
   * same port but another channel is not a returning asset, even when one
   * channel name is a prefix of the other.
   */
  lemma WholeSegmentMatch(port: string, channel: string, other: string, rest: string)
    requires '/' !in channel && '/' !in other
    requires channel != other
    ensures !ReceiverChainIsSource(port, channel, DenomPrefix(port, other) + rest)
  {
    var t := DenomPrefix(port, other) + rest;
    var p := DenomPrefix(port, channel);
    var n := |port| + 1;
    // j is a position inside p where p and t differ
    var j: nat;
    if |channel| < |other| {
      j := n + |channel|;
      assert p[j] == '/' && t[j] == other[|channel|];
      assert other[|channel|] in other;
    } else if |other| < |channel| {
      j := n + |other|;
      assert t[j] == '/' && p[j] == channel[|other|];
      assert channel[|other|] in channel;
    } else {
      var k :| 0 <= k < |channel| && channel[k] != other[k];
      j := n + k;
      assert p[j] == channel[k] && t[j] == other[k];
    }
    assert j < |p| && j < |t| && t[j] != p[j];
    assert |p| <= |t| ==> t[..|p|][j] != p[j];
  }
}
