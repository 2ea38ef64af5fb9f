# Stride rate limiter: denom resolution and quota admission

A Dafny model of the core of Stride's `x/ratelimit` keeper, as the keeper's
packet tests (`x/ratelimit/keeper/packet_test.go`) pin it down. There are two parts.

- **Denom resolution** (`denom.dfy`, `hex.dfy`). This part computes the canonical denom
  that a transfer packet is rate limited under, following the ICS-20 rules.
  - On send, a native denom (no `/`) is kept as it is, and any prefixed trace is
    hashed to `ibc/` + upper-case hex SHA-256 of the whole trace.
  - On receive, a trace that starts with the packet's `sourcePort/sourceChannel/`
    is a returning asset. That prefix is stripped, and the remainder is kept if
    it is native or hashed if it still has hops.
  - Any other received trace is an arriving asset: it gets
    `destPort/destChannel/` in front and is hashed.
  - SHA-256 is a parameter of type `Hasher`. The hex formatting of the digest is modelled.
- **Flow limiter** (`types.dfy`, `keeper.dfy`). This part is a keeper class whose
  `store: map<Path, RateLimit>` holds one record per (denom, channel).
  - Each record has a quota in whole percent of the channel value and a flow
    (inflow, outflow, channel value).
  - A send is checked against the record at (send denom, source channel), and a
    receive against the record at (receive denom, destination channel).
  - A path with no record is unrestricted.
  - A transfer is rejected when the counter it moves, plus the amount, exceeds
    `channelValue * percent / 100`, rounded down. The error is tagged Outflow or
    Inflow, and a rejected transfer leaves the store unchanged.
  - An admitted transfer adds the amount to its counter.
- **Test cases** (`packet_test.dfy`). These are the table cases and the two quota
  scenarios of the test file, stated over the model.

Files: `wrappers.dfy` (Option, Result, Outcome), `packets.dfy` (decoded
packets), `hex.dfy`, `denom.dfy`, `types.dfy`, `keeper.dfy`, `packet_test.dfy`.

## Model

| member | source | states |
|---|---|---|
| `Hex.HexEncode` | x/ratelimit/keeper/packet_test.go:32-33 | a digest prints as two upper-case hex digits per byte |
| `Hex.DecodeEncode` | x/ratelimit/keeper/packet_test.go:32-33 | decoding the printed digest gives the bytes back, so printing loses nothing |
| `Hex.EncodeInjective` | x/ratelimit/keeper/packet_test.go:32-33 | two byte strings print the same exactly when they are equal |
| `Denom.HashDenomTrace` | x/ratelimit/keeper/packet_test.go:30-34 | an IBC denom is `ibc/` and 64 hex digits, so it is 68 characters long and is never a native denom; its hex digits decode back to the SHA-256 of the trace |
| `Denom.HashDenomTraceInjective` | x/ratelimit/keeper/packet_test.go:30-34 | two traces get the same IBC denom exactly when their SHA-256 digests agree |
| `Denom.ParseDenomFromSendPacket` | x/ratelimit/keeper/packet_test.go:42-63 | a native trace is returned unchanged; a prefixed trace of any depth becomes `ibc/` plus hex digits that decode to the SHA-256 of the whole trace; the result is native exactly when the trace is |
| `Denom.SendKeysCollideOnlyOnDigest` | x/ratelimit/keeper/packet_test.go:42-63 | two send denoms are equal iff the traces are equal, or both are prefixed traces with equal digests; native and hashed keys never collide |
| `Denom.RecvOrigin` | x/ratelimit/keeper/packet_test.go:111-130 | a received trace is classed as a returning source asset exactly when it is `sourcePort/sourceChannel/` followed by some remainder |
| `Denom.ParseDenomFromRecvPacket` | x/ratelimit/keeper/packet_test.go:78-149 | the receive resolver; its behaviour is stated by `RecvReturningMatchesSend`, `RecvSinkMatchesOnwardSend`, `RecvNativeIff` and `WholeSegmentMatch` |
| `Denom.RecvReturningMatchesSend` | x/ratelimit/keeper/packet_test.go:111-130 | a trace that comes back over the endpoint it left by resolves to its send denom with the leading hop stripped: a native comes back as itself, a multi-hop trace as the hash of the remainder |
| `Denom.RecvSinkMatchesOnwardSend` | x/ratelimit/keeper/packet_test.go:91-110 | an arriving trace resolves to the hash of `destPort/destChannel/` plus the whole trace, which is also the send denom of that voucher when it is sent onward |
| `Denom.RecvNativeIff` | x/ratelimit/keeper/packet_test.go:91-130 | a receive denom is native exactly when the trace is returning and its remainder is native |
| `Denom.WholeSegmentMatch` | x/ratelimit/keeper/packet_test.go:101-110 | a trace whose first hop is the same port but a different channel is never a returning asset, even when one channel name is a prefix of the other |
| `PacketTest.SendNativeCases` | x/ratelimit/keeper/packet_test.go:42-52 | `ustrd` and `stuatom` are sent under their own names |
| `PacketTest.SendHashedCases` | x/ratelimit/keeper/packet_test.go:53-63 | one-hop and two-hop traces are sent under the hash of the whole trace |
| `PacketTest.RecvSinkOneHop` | x/ratelimit/keeper/packet_test.go:91-100 | `uosmo` arriving on `channel-0` resolves to the hash of `transfer/channel-0/uosmo` |
| `PacketTest.RecvSinkTwoHops` | x/ratelimit/keeper/packet_test.go:101-110 | `transfer/channel-200/ujuno` with source `channel-100` resolves to the hash of `transfer/channel-0/transfer/channel-200/ujuno` |
| `PacketTest.RecvNativeSource` | x/ratelimit/keeper/packet_test.go:111-120 | `transfer/channel-100/ustrd` with source `channel-100` resolves to `ustrd`, unhashed |
| `PacketTest.RecvNonNativeSource` | x/ratelimit/keeper/packet_test.go:121-130 | `transfer/channel-100/transfer/channel-300/ujuno` resolves to the hash of `transfer/channel-300/ujuno` |
| `Types.Threshold` | x/ratelimit/keeper/packet_test.go:152-153 | the absolute quota is the channel value times the percent over 100, rounded down |
| `Types.AddFlow` | x/ratelimit/keeper/packet_test.go:203-207 | a rejected transfer yields a quota-exceeded error on the side its direction moves (Outflow for send, Inflow for receive) |
| `Types.AddFlowDecision` | x/ratelimit/keeper/packet_test.go:182-240 | a transfer is rejected iff counter plus amount, times 100, exceeds channel value times percent, compared exactly with no rounding; an admitted one adds the amount to its counter only |
| `Types.AddFlowKeepsWithinQuota` | x/ratelimit/keeper/packet_test.go:151-179 | an admitted transfer keeps a flow that is within quota within quota |
| `Types.ReplayAccounts` | x/ratelimit/keeper/packet_test.go:151-179 | after any sequence of transfers each counter equals its start plus the total admitted in its direction, and the channel value is unchanged |
| `Types.ReplayKeepsWithinQuota` | x/ratelimit/keeper/packet_test.go:151-179 | after any sequence of transfers, a flow that started within quota is still within quota |
| `Types.WindowBound` | x/ratelimit/keeper/packet_test.go:151-179 | in a window that starts from a reset, the total admitted in a direction is at most its percent of the channel value |
| `Keeper.Decide` | x/ratelimit/keeper/packet_test.go:203-207 | no record means pass with no change; a rejection leaves the store identical; an admission changes only that path's flow and keeps its path and quota; keying by path is preserved |
| `Keeper.DecideOnRecord` | x/ratelimit/keeper/packet_test.go:182-240 | on a recorded path the rejection condition is exact, and an admission reports that the flow changed and moves only that direction's counter, by the amount |
| `Keeper.DecideKeepsWithinQuota` | x/ratelimit/keeper/packet_test.go:151-179 | a stored record within quota stays within quota after any packet |
| `Keeper.SendPath` | x/ratelimit/keeper/packet_test.go:189-190 | a send is limited under the SOURCE channel, with a denom that is native iff the trace is |
| `Keeper.RecvPath` | x/ratelimit/keeper/packet_test.go:217-222 | a receive is limited under the DESTINATION channel |
| `Keeper.RateLimitKeeper.constructor` | x/ratelimit/keeper/packet_test.go:165 | a new keeper has an empty store |
| `Keeper.RateLimitKeeper.SetRateLimit` | x/ratelimit/keeper/packet_test.go:165-179 | the record is stored under its own path, replacing any record there, and nothing else changes |
| `Keeper.RateLimitKeeper.GetRateLimit` | x/ratelimit/keeper/packet_test.go:166-169 | a record is found exactly when its (denom, channel) path is in the store, and it is the record stored there |
| `Keeper.RateLimitKeeper.ResetRateLimit` | x/ratelimit/keeper/packet_test.go:174-178 | a recorded path gets zero counters and the new channel value, keeping its quota; a missing one is a not-found error and nothing changes. The test file does not exercise a reset; the member models a window reset: both counters zeroed, the channel value replaced, the quota kept. The cited lines are the flow record it rewrites |
| `Keeper.RateLimitKeeper.CheckRateLimitAndUpdateFlow` | x/ratelimit/keeper/packet_test.go:203-207 | the result and the new store are those of `Decide` on the old store |
| `Keeper.RateLimitKeeper.SendRateLimitedPacket` | x/ratelimit/keeper/packet_test.go:182-208 | the packet is decided on the record at (send denom, source channel); the error, or success, and the new store are `Decide`'s |
| `Keeper.RateLimitKeeper.ReceiveRateLimitedPacket` | x/ratelimit/keeper/packet_test.go:210-240 | the packet is decided on the record at (receive denom, destination channel); the error, or success, and the new store are `Decide`'s |
| `PacketTest.RateLimitCloseToQuota` | x/ratelimit/keeper/packet_test.go:151-180 | the record is within quota, admits one more unit in the chosen direction, and rejects two |
| `PacketTest.TestSendRateLimitedPacket` | x/ratelimit/keeper/packet_test.go:182-208 | with channel value 100, 10 percent and outflow 9, sending 5 `ustrd` on `channel-0` fails with an Outflow quota error, and outflow stays 9 |
| `PacketTest.TestReceiveRateLimitedPacket` | x/ratelimit/keeper/packet_test.go:210-240 | with inflow 9 on the record of hashed `transfer/channel-0/uosmo` at `channel-0`, receiving 5 `uosmo` fails with an Inflow quota error, and inflow stays 9 |

## Left out

- SHA-256 is not computed. The digest function is the parameter `Hasher`, which
  is any function from strings to 32-byte digests. Only the `ibc/` prefix and
  the upper-case hex printing (Tendermint's `HexBytes`) are modelled.
- The keeper's own sources (`packet.go`, the flow and quota types) and ibc-go's
  `ParseDenomTrace` are not modelled. The behaviour of `ParseDenomFromSendPacket`,
  `ParseDenomFromRecvPacket` and the rate-limit check is inferred from the test
  file and the ICS-20 rules.
- Trace parsing of base denoms that themselves contain `/`, such as pool shares,
  is not modelled. Any `/` marks a trace as prefixed, and a prefixed trace is
  hashed whole.
- JSON encoding of the packet data and the parsing of the amount string are not
  modelled. A packet carries the decoded denom and a `nat` amount, so the
  error for a malformed amount does not arise.
- The blockchain context, the KV store and the test-suite wiring are replaced by
  the keeper's in-memory `map`.
- Error message texts are not modelled. The error carries only the side, the
  prospective flow, the channel value and the percent.
- Acknowledgement and timeout handling are not modelled. This covers undoing a
  send's outflow and the pending-send-packet bookkeeping done after an
  admitted send. The test file does not exercise them.
- The address-pair whitelist is not modelled. Neither is removing a record, or
  reading the current channel value from the bank supply. `ResetRateLimit`
  takes the new channel value as a parameter instead. The test file does not
  exercise these.
- Threshold rounding is a chosen rule, not one the tests fix. The threshold is
  rounded down, and a flow exactly at the threshold is admitted. The tests only
  check flows strictly above it.
- AddFlow: the comparison is gross: the moved counter plus the
  amount is compared with the threshold, and the opposite counter plays no
  part. The keeper's real rule, which compares net flow (the moved counter
  minus the opposite one) and exempts a zero channel value, is not in the test file
  and is not modelled. The test file cannot tell the two apart, because the opposite
  counter is always 0 there. Amounts are unbounded `nat`s in place of the
  SDK's 256-bit integers, so overflow is not modelled.
- A zero channel value gets no special case. Its threshold is zero, so any
  positive transfer on such a record is rejected.
- Quota percentages are not range-checked. Any `nat` is accepted, which makes
  them a configuration concern.
