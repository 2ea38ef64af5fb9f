/**
 * The rate-limit keeper: the store of rate-limit records and the admission
 * decision for packets sent and received over a channel.
 */
module Keeper {
  import opened Wrappers
  import opened Packets
  import opened Denom
  import opened Types

  /** Every record is stored under its own path. */
  ghost predicate Keyed(store: map<Path, RateLimit>) {
    forall p :: p in store ==> store[p].path == p
  }

  /** What a rate-limit check returns (was the flow updated, or the error) and the store after it. */
  datatype Decision = Decision(result: Result<bool, Error>, store: map<Path, RateLimit>)

  /**
   * The check-and-record step on a store value. A path with no record is
   * unrestricted. Otherwise the transfer is added to the record's flow; a
   * rejection leaves the store exactly as it was, an admission rewrites only
   * that record's flow.
   */
  function Decide(store: map<Path, RateLimit>, direction: PacketDirection, path: Path, amount: nat): (d: Decision)
    ensures path !in store ==> d == Decision(Ok(false), store)
    ensures d.result.Err? ==> d.store == store && d.result.error.QuotaExceeded? && d.result.error.side == SideOf(direction)
    ensures d.store.Keys == store.Keys
    ensures forall p :: p in store && p != path ==> d.store[p] == store[p]
    ensures path in store ==> d.store[path].path == store[path].path && d.store[path].quota == store[path].quota
    ensures Keyed(store) ==> Keyed(d.store)
  {
    if path !in store then Decision(Ok(false), store)
    else
      var rateLimit := store[path];
      match AddFlow(rateLimit.flow, rateLimit.quota, direction, amount)
      case Err(e) => Decision(Err(e), store)
      case Ok(flow) => Decision(Ok(true), store[path := rateLimit.(flow := flow)])
  }

  /**
   * A packet on a rate-limited path is rejected exactly when its counter plus
   * the amount is over the quota's share of the channel value; when admitted,
   * that counter grows by the amount and the other stays as it was.
   */
  lemma DecideOnRecord(store: map<Path, RateLimit>, direction: PacketDirection, path: Path, amount: nat)
    requires path in store
    ensures var rl := store[path];
      var d := Decide(store, direction, path, amount);
      && (d.result.Err? <==> (Current(rl.flow, direction) + amount) * 100 > rl.flow.channelValue * MaxPercent(rl.quota, direction))
      && (d.result.Ok? ==>
            && d.result.value
            && Current(d.store[path].flow, direction) == Current(rl.flow, direction) + amount
            && Current(d.store[path].flow, Other(direction)) == Current(rl.flow, Other(direction))
            && d.store[path].flow.channelValue == rl.flow.channelValue)
  {
    AddFlowDecision(store[path].flow, store[path].quota, direction, amount);
  }

  /** A record within its quota stays within it, whatever the packet. */
  lemma DecideKeepsWithinQuota(store: map<Path, RateLimit>, direction: PacketDirection, path: Path, amount: nat)
    requires path in store && WithinQuota(store[path].flow, store[path].quota)
    ensures var d := Decide(store, direction, path, amount);
      WithinQuota(d.store[path].flow, d.store[path].quota)
  {
    AddFlowKeepsWithinQuota(store[path].flow, store[path].quota, direction, amount);
  }

  /** The path an outgoing packet is limited under: its send denom on the source channel. */
  function SendPath(sha256: Hasher, packet: Packet): (p: Path)
    ensures p.channelId == packet.sourceChannel
    ensures IsNative(p.denom) <==> IsNative(packet.data.denom)
  {
    Path(ParseDenomFromSendPacket(sha256, packet.data), packet.sourceChannel)
  }

  /** The path an incoming packet is limited under: its receive denom on the destination channel. */
  function RecvPath(sha256: Hasher, packet: Packet): (p: Path)
    ensures p.channelId == packet.destChannel
  {
    Path(ParseDenomFromRecvPacket(sha256, packet, packet.data), packet.destChannel)
  }

  class RateLimitKeeper {
    var store: map<Path, RateLimit>

    ghost predicate Valid()
      reads this
    {
      Keyed(store)
    }

    constructor ()
      ensures Valid() && store == map[]
    {
      store := map[];
    }

    /** Stores a record under its own path, replacing any record there. */
    method SetRateLimit(rateLimit: RateLimit)
      requires Valid()
      modifies this
      ensures Valid()
      ensures store == old(store)[rateLimit.path := rateLimit]
    {
      store := store[rateLimit.path := rateLimit];
    }

    /** The record for a denom and channel, if there is one. */
    function GetRateLimit(denom: string, channelId: string): (r: Option<RateLimit>)
      reads this
      requires Valid()
      ensures r.Some? <==> Path(denom, channelId) in store
      ensures r.Some? ==> r.value == store[Path(denom, channelId)] && r.value.path == Path(denom, channelId)
    {
      var path := Path(denom, channelId);
      if path in store then Some(store[path]) else None
    }

    /**
     * Starts a new window for a record: both counters zero and the channel
     * value replaced by the given snapshot; the quota is kept.
     */
    method ResetRateLimit(denom: string, channelId: string, channelValue: nat) returns (r: Outcome<Error>)
      requires Valid()
      modifies this
      ensures Valid()
      ensures var path := Path(denom, channelId);
        if path in old(store) then
          && r == Pass
          && store == old(store)[path := old(store)[path].(flow := ResetFlow(channelValue))]
        else
          r == Fail(RateLimitNotFound(path)) && store == old(store)
    {
      var found := GetRateLimit(denom, channelId);
      match found
      case None =>
        r := Fail(RateLimitNotFound(Path(denom, channelId)));
      case Some(rateLimit) =>
        store := store[rateLimit.path := rateLimit.(flow := ResetFlow(channelValue))];
        r := Pass;
    }

    /**
     * Checks a transfer against the record at (denom, channel) and, when it
     * is admitted, stores the updated flow. Returns whether the flow changed.
     */
    method CheckRateLimitAndUpdateFlow(direction: PacketDirection, denom: string, channelId: string, amount: nat)
      returns (r: Result<bool, Error>)
      requires Valid()
      modifies this
      ensures Valid()
      ensures Decision(r, store) == Decide(old(store), direction, Path(denom, channelId), amount)
    {
      var found := GetRateLimit(denom, channelId);
      if found.None? {
        return Ok(false);
      }
      var rateLimit := found.value;
      var updated := AddFlow(rateLimit.flow, rateLimit.quota, direction, amount);
      if updated.Err? {
        return Err(updated.error);
      }
      SetRateLimit(rateLimit.(flow := updated.value));
      r := Ok(true);
    }

    /** Rate limits an outgoing packet under its send denom and its SOURCE channel. */
    method SendRateLimitedPacket(sha256: Hasher, packet: Packet) returns (r: Outcome<Error>)
      requires Valid()
      modifies this
      ensures Valid()
      ensures var d := Decide(old(store), Send, SendPath(sha256, packet), packet.data.amount);
        && store == d.store
        && (if d.result.Err? then r == Fail(d.result.error) else r == Pass)
    {
      var path := SendPath(sha256, packet);
      var result := CheckRateLimitAndUpdateFlow(Send, path.denom, path.channelId, packet.data.amount);
      r := if result.Err? then Fail(result.error) else Pass;
    }

    /** Rate limits an incoming packet under its receive denom and its DESTINATION channel. */
    method ReceiveRateLimitedPacket(sha256: Hasher, packet: Packet) returns (r: Outcome<Error>)
      requires Valid()
      modifies this
      ensures Valid()
      ensures var d := Decide(old(store), Recv, RecvPath(sha256, packet), packet.data.amount);
        && store == d.store
        && (if d.result.Err? then r == Fail(d.result.error) else r == Pass)
    {
      var path := RecvPath(sha256, packet);
      var result := CheckRateLimitAndUpdateFlow(Recv, path.denom, path.channelId, packet.data.amount);
      r := if result.Err? then Fail(result.error) else Pass;
    }
  }
}
