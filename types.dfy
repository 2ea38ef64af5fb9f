/**
 * Rate-limit records and the quota arithmetic: a record is keyed by a path
 * (canonical denom, channel), holds a quota in whole percent of the channel
 * value, and a flow of inflow and outflow counted since the last reset.
 */
module Types {
  import opened Wrappers

  datatype PacketDirection = Send | Recv

  /** The counter a direction moves: a send is outflow, a receive inflow. */
  datatype FlowSide = Outflow | Inflow

  datatype Path = Path(denom: string, channelId: string)

  /** Maximum send and receive flow, each in percent of the channel value. */
  datatype Quota = Quota(maxPercentSend: nat, maxPercentRecv: nat, durationHours: nat)

  datatype Flow = Flow(inflow: nat, outflow: nat, channelValue: nat)

  datatype RateLimit = RateLimit(path: Path, quota: Quota, flow: Flow)

  datatype Error =
    | QuotaExceeded(side: FlowSide, flow: nat, channelValue: nat, maxPercent: nat)
    | RateLimitNotFound(path: Path)

  function SideOf(direction: PacketDirection): FlowSide {
    match direction
    case Send => Outflow
    case Recv => Inflow
  }

  function MaxPercent(quota: Quota, direction: PacketDirection): nat {
    match direction
    case Send => quota.maxPercentSend
    case Recv => quota.maxPercentRecv
  }

  /** The counter of a flow that a direction moves. */
  function Current(flow: Flow, direction: PacketDirection): nat {
    match direction
    case Send => flow.outflow
    case Recv => flow.inflow
  }

  /** The quota in absolute terms: `percent` of the channel value, rounded down. */
  function Threshold(channelValue: nat, percent: nat): (t: nat)
    ensures t * 100 <= channelValue * percent < t * 100 + 100
  {
    channelValue * percent / 100
  }

  /** Whether a prospective flow would be over the quota in that direction. */
  predicate ExceedsQuota(quota: Quota, direction: PacketDirection, flow: nat, channelValue: nat) {
    flow > Threshold(channelValue, MaxPercent(quota, direction))
  }

  /** Each counter of the flow is within its quota. */
  predicate WithinQuota(flow: Flow, quota: Quota) {
    && flow.outflow <= Threshold(flow.channelValue, quota.maxPercentSend)
    && flow.inflow <= Threshold(flow.channelValue, quota.maxPercentRecv)
  }

  /**
   * Adds a transfer to the flow: rejected when the counter it moves would
   * exceed the quota, otherwise that counter grows by the amount.
   */
  function AddFlow(flow: Flow, quota: Quota, direction: PacketDirection, amount: nat): (r: Result<Flow, Error>)
    ensures r.Err? ==> r.error.QuotaExceeded? && r.error.side == SideOf(direction)
  {
    var prospective := Current(flow, direction) + amount;
    if ExceedsQuota(quota, direction, prospective, flow.channelValue) then
      Err(QuotaExceeded(SideOf(direction), prospective, flow.channelValue, MaxPercent(quota, direction)))
    else match direction
      case Send => Ok(flow.(outflow := prospective))
      case Recv => Ok(flow.(inflow := prospective))
  }

  /** A new accounting window: both counters zero, a fresh channel value. */
  function ResetFlow(channelValue: nat): Flow {
    Flow(0, 0, channelValue)
  }

  function Other(direction: PacketDirection): PacketDirection {
    match direction
    case Send => Recv
    case Recv => Send
  }

  // ---------------------------------------------------------------------------
  // One transfer

  /**
   * Rounding the threshold down loses nothing: a transfer is rejected exactly
   * when the moved counter plus the amount is more than the quota's percentage
   * of the channel value, compared without rounding. An admitted transfer adds
   * the amount to that counter and changes nothing else.
   */
  lemma AddFlowDecision(flow: Flow, quota: Quota, direction: PacketDirection, amount: nat)
    ensures var r := AddFlow(flow, quota, direction, amount);
      && (r.Err? <==> (Current(flow, direction) + amount) * 100 > flow.channelValue * MaxPercent(quota, direction))
      && (r.Ok? ==>
            && Current(r.value, direction) == Current(flow, direction) + amount
            && Current(r.value, Other(direction)) == Current(flow, Other(direction))
            && r.value.channelValue == flow.channelValue)
  {
  }

  /** An admitted transfer keeps a flow that was within quota within quota. */
  lemma AddFlowKeepsWithinQuota(flow: Flow, quota: Quota, direction: PacketDirection, amount: nat)
    requires WithinQuota(flow, quota)
    ensures AddFlow(flow, quota, direction, amount).Ok? ==> WithinQuota(AddFlow(flow, quota, direction, amount).value, quota)
  {
  }

  // ---------------------------------------------------------------------------
  // A window of transfers

  datatype Transfer = Transfer(direction: PacketDirection, amount: nat)

  /** The flow after a transfer: updated when admitted, unchanged when rejected. */
  function Apply(flow: Flow, quota: Quota, t: Transfer): Flow {
    match AddFlow(flow, quota, t.direction, t.amount)
    case Ok(f) => f
    case Err(_) => flow
  }

  /** The flow after a sequence of transfers, each checked against the running flow. */
  function Replay(flow: Flow, quota: Quota, transfers: seq<Transfer>): Flow
    decreases |transfers|
  {
    if transfers == [] then flow
    else Replay(Apply(flow, quota, transfers[0]), quota, transfers[1..])
  }

  /** The total amount admitted in one direction over a sequence of transfers. */
  function Admitted(flow: Flow, quota: Quota, transfers: seq<Transfer>, direction: PacketDirection): nat
    decreases |transfers|
  {
    if transfers == [] then 0
    else
      var t := transfers[0];
      var admitted := if t.direction == direction && AddFlow(flow, quota, t.direction, t.amount).Ok? then t.amount else 0;
      admitted + Admitted(Apply(flow, quota, t), quota, transfers[1..], direction)
  }

  /**
   * The counters are running totals: after a sequence of transfers each holds
   * its starting value plus everything admitted in its direction, and the
   * channel value is untouched.
   */
  lemma {:induction false} ReplayAccounts(flow: Flow, quota: Quota, transfers: seq<Transfer>, direction: PacketDirection)
    ensures Current(Replay(flow, quota, transfers), direction) == Current(flow, direction) + Admitted(flow, quota, transfers, direction)
    ensures Replay(flow, quota, transfers).channelValue == flow.channelValue
    decreases |transfers|
  {
    if transfers != [] {
      var t := transfers[0];
      AddFlowDecision(flow, quota, t.direction, t.amount);
      ReplayAccounts(Apply(flow, quota, t), quota, transfers[1..], direction);
    }
  }

  /** However transfers arrive, a flow within quota stays within quota. */
  lemma {:induction false} ReplayKeepsWithinQuota(flow: Flow, quota: Quota, transfers: seq<Transfer>)
    requires WithinQuota(flow, quota)
    ensures WithinQuota(Replay(flow, quota, transfers), quota)
    decreases |transfers|
  {
    if transfers != [] {
      AddFlowKeepsWithinQuota(flow, quota, transfers[0].direction, transfers[0].amount);
      ReplayKeepsWithinQuota(Apply(flow, quota, transfers[0]), quota, transfers[1..]);
    }
  }

  /**
   * The guarantee of the rate limit: within one window that started with a
   * reset, the total admitted in a direction is at most that direction's
   * percentage of the channel value.
   */
  lemma WindowBound(channelValue: nat, quota: Quota, transfers: seq<Transfer>, direction: PacketDirection)
    ensures Admitted(ResetFlow(channelValue), quota, transfers, direction) * 100 <= channelValue * MaxPercent(quota, direction)
  {
    var start := ResetFlow(channelValue);
    ReplayAccounts(start, quota, transfers, direction);
    ReplayKeepsWithinQuota(start, quota, transfers);
    var t := Threshold(channelValue, MaxPercent(quota, direction));
    assert Admitted(start, quota, transfers, direction) <= t;
  }
}
