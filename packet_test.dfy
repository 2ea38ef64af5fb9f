/**
 * The concrete cases of the keeper's packet tests, stated over the model:
 * denom resolution on send and receive, and the quota rejections.
 */
module PacketTest {
  import opened Wrappers
  import opened Packets
  import opened Denom
  import opened Types
  import opened Keeper

  const TransferPort := "transfer"
  const Uosmo := "uosmo"
  const Ujuno := "ujuno"
  const Ustrd := "ustrd"
  const Stuatom := "stuatom"
  const ChannelOnStride := "channel-0"
  const ChannelOnHost := "channel-1"

  // Channels of the receive tests
  const OsmoChannelOnStride := "channel-0"
  const StrideChannelOnOsmo := "channel-100"
  const JunoChannelOnOsmo := "channel-200"
  const JunoChannelOnStride := "channel-300"

  /** Native assets are sent under their own name. */
  lemma SendNativeCases(sha256: Hasher)
    ensures ParseDenomFromSendPacket(sha256, PacketData(Ustrd, 0)) == Ustrd
    ensures ParseDenomFromSendPacket(sha256, PacketData(Stuatom, 0)) == Stuatom
  {
  }

  /** Prefixed traces are sent under the hash of the whole trace, one hop or two. */
  lemma SendHashedCases(sha256: Hasher)
    ensures ParseDenomFromSendPacket(sha256, PacketData("transfer/channel-0/usomo", 0))
         == HashDenomTrace(sha256, "transfer/channel-0/usomo")
    ensures ParseDenomFromSendPacket(sha256, PacketData("transfer/channel-2/transfer/channel-1/usomo", 0))
         == HashDenomTrace(sha256, "transfer/channel-2/transfer/channel-1/usomo")
  {
  }

  /** A packet from Osmosis to Stride, carrying the given trace. */
  function OsmosisToStride(trace: string): Packet {
    Packet(TransferPort, StrideChannelOnOsmo, TransferPort, OsmoChannelOnStride, PacketData(trace, 0))
  }

  /** sink_one_hop: a bare denom from Osmosis gets Stride's `transfer/channel-0/` and is hashed. */
  lemma RecvSinkOneHop(sha256: Hasher)
    ensures var packet := OsmosisToStride(Uosmo);
      ParseDenomFromRecvPacket(sha256, packet, packet.data)
      == HashDenomTrace(sha256, TransferPort + "/" + OsmoChannelOnStride + "/" + Uosmo)
  {
    var packet := OsmosisToStride(Uosmo);
    assert |packet.data.denom| < |DenomPrefix(TransferPort, StrideChannelOnOsmo)|;
    RecvSinkMatchesOnwardSend(sha256, packet, packet.data);
  }

  /** sink_two_hops: a trace through `channel-200` does not match the source `channel-100`. */
  lemma RecvSinkTwoHops(sha256: Hasher)
    ensures var packet := OsmosisToStride(TransferPort + "/" + JunoChannelOnOsmo + "/" + Ujuno);
      ParseDenomFromRecvPacket(sha256, packet, packet.data)
      == HashDenomTrace(sha256, TransferPort + "/" + OsmoChannelOnStride + "/" + TransferPort + "/" + JunoChannelOnOsmo + "/" + Ujuno)
  {
    var packet := OsmosisToStride(TransferPort + "/" + JunoChannelOnOsmo + "/" + Ujuno);
    assert StrideChannelOnOsmo[8] != JunoChannelOnOsmo[8];
    WholeSegmentMatch(TransferPort, StrideChannelOnOsmo, JunoChannelOnOsmo, Ujuno);
    RecvSinkMatchesOnwardSend(sha256, packet, packet.data);
    assert DenomPrefix(TransferPort, OsmoChannelOnStride) + packet.data.denom
        == TransferPort + "/" + OsmoChannelOnStride + "/" + TransferPort + "/" + JunoChannelOnOsmo + "/" + Ujuno;
  }

  /** native_source: `ustrd` coming home over `channel-100` loses its prefix and stays unhashed. */
  lemma RecvNativeSource(sha256: Hasher)
    ensures var packet := OsmosisToStride(TransferPort + "/" + StrideChannelOnOsmo + "/" + Ustrd);
      ParseDenomFromRecvPacket(sha256, packet, packet.data) == Ustrd
  {
    var packet := OsmosisToStride(TransferPort + "/" + StrideChannelOnOsmo + "/" + Ustrd);
    RecvReturningMatchesSend(sha256, packet, Ustrd, 0);
  }

  /** non_native_source: only the leading hop is stripped; the remaining trace is hashed. */
  lemma RecvNonNativeSource(sha256: Hasher)
    ensures var packet := OsmosisToStride(TransferPort + "/" + StrideChannelOnOsmo + "/" + TransferPort + "/" + JunoChannelOnStride + "/" + Ujuno);
      ParseDenomFromRecvPacket(sha256, packet, packet.data)
      == HashDenomTrace(sha256, TransferPort + "/" + JunoChannelOnStride + "/" + Ujuno)
  {
    var rest := TransferPort + "/" + JunoChannelOnStride + "/" + Ujuno;
    var packet := OsmosisToStride(DenomPrefix(TransferPort, StrideChannelOnOsmo) + rest);
    RecvReturningMatchesSend(sha256, packet, rest, 0);
    assert DenomPrefix(TransferPort, StrideChannelOnOsmo) + rest
        == TransferPort + "/" + StrideChannelOnOsmo + "/" + TransferPort + "/" + JunoChannelOnStride + "/" + Ujuno;
    assert rest[|TransferPort|] == '/';
  }

  // ---------------------------------------------------------------------------
  // Quota rejections

  /**
   * A record one unit short of its quota in the given direction: channel value
   * 100, 10 percent each way, and 9 already flowed that way.
   */
  function RateLimitCloseToQuota(denom: string, channelId: string, direction: PacketDirection): (rl: RateLimit)
    ensures rl.path == Path(denom, channelId)
    ensures WithinQuota(rl.flow, rl.quota)
    ensures AddFlow(rl.flow, rl.quota, direction, 1).Ok?
    ensures AddFlow(rl.flow, rl.quota, direction, 2).Err?
  {
    var flow := if direction == Recv then Flow(9, 0, 100) else Flow(0, 9, 100);
    RateLimit(Path(denom, channelId), Quota(10, 10, 0), flow)
  }

  /**
   * Sending 5 `ustrd` on Stride's `channel-0` when its record there has
   * outflow 9 of 10 is rejected on the outflow side, and the record keeps
   * outflow 9.
   */
  method TestSendRateLimitedPacket(sha256: Hasher) returns (r: Outcome<Error>, flowAfter: Option<Flow>)
    ensures r == Fail(QuotaExceeded(Outflow, 14, 100, 10))
    ensures flowAfter == Some(Flow(0, 9, 100))
  {
    var keeper := new RateLimitKeeper();
    keeper.SetRateLimit(RateLimitCloseToQuota(Ustrd, ChannelOnStride, Send));
    var packet := Packet(TransferPort, ChannelOnStride, TransferPort, ChannelOnHost, PacketData(Ustrd, 5));
    r := keeper.SendRateLimitedPacket(sha256, packet);
    var stored := keeper.GetRateLimit(Ustrd, ChannelOnStride);
    flowAfter := if stored.Some? then Some(stored.value.flow) else None;
  }

  /**
   * Receiving 5 `uosmo` on Stride's `channel-0` is limited by the record of
   * the hashed `transfer/channel-0/uosmo` on that destination channel; with
   * inflow 9 of 10 it is rejected on the inflow side and inflow stays 9.
   */
  method TestReceiveRateLimitedPacket(sha256: Hasher) returns (r: Outcome<Error>, flowAfter: Option<Flow>)
    ensures r == Fail(QuotaExceeded(Inflow, 14, 100, 10))
    ensures flowAfter == Some(Flow(9, 0, 100))
  {
    var rateLimitDenom := HashDenomTrace(sha256, TransferPort + "/" + ChannelOnStride + "/" + Uosmo);
    var keeper := new RateLimitKeeper();
    keeper.SetRateLimit(RateLimitCloseToQuota(rateLimitDenom, ChannelOnStride, Recv));
    var packet := Packet(TransferPort, ChannelOnHost, TransferPort, ChannelOnStride, PacketData(Uosmo, 5));
    assert |Uosmo| < |DenomPrefix(TransferPort, ChannelOnHost)|;
    RecvSinkMatchesOnwardSend(sha256, packet, packet.data);
    r := keeper.ReceiveRateLimitedPacket(sha256, packet);
    var stored := keeper.GetRateLimit(rateLimitDenom, ChannelOnStride);
    flowAfter := if stored.Some? then Some(stored.value.flow) else None;
  }
}
