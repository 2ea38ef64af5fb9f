/**
 * Decoded inter-chain transfer packets. The JSON wire form of the packet data
 * is not modelled: `data` holds the denom trace and amount after decoding.
 */
module Packets {

  /** Fungible-token packet data: the sender's denom trace and the amount. */
  datatype PacketData = PacketData(denom: string, amount: nat)

  /** A channel packet: the two endpoints it travels between and its data. */
  datatype Packet = Packet(
    sourcePort: string,
    sourceChannel: string,
    destPort: string,
    destChannel: string,
    data: PacketData)
}
