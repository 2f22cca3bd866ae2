/** The outbound control messages the avatar runtime understands: one OSC
    message is an address and a single integer argument. Only the address and
    value that would be sent are modelled, not the UDP transport. */
module Osc {

  /** Address of the avatar parameter holding the current expression code. */
  const EmoteAddress: string := "/avatar/parameters/FaceEmo_SYNC_EM_EMOTE"

  /** The part of the address the watchdog looks for. */
  const EmoteParameter: string := "FaceEmo_SYNC_EM_EMOTE"

  datatype Message = Message(address: string, value: int)

  /** The message that puts the avatar back to the neutral expression. */
  const NeutralReset: Message := Message(EmoteAddress, 0)
}
