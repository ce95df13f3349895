/**
 * Data-channel helpers: the labels of the two channels a peer connection
 * opens, and the translation of a channel's id and label into the
 * `DataChannelInfo` record of the LiveKit signalling protocol.
 */
module DataChannel {
  import opened Numeric

  /** Label of the reliable data channel. */
  const ReliableLabel: string := "_reliable"
  /** Label of the lossy data channel. */
  const LossyLabel: string := "_lossy"

  /** Which peer connection of the signalling protocol a channel belongs to. */
  datatype SignalTarget = Publisher | Subscriber

  datatype DataChannelInfo = DataChannelInfo(channelLabel: string, id: uint32, target: SignalTarget)

  /** A freshly built record: every field at its protocol default. */
  const DefaultInfo: DataChannelInfo := DataChannelInfo("", 0, Publisher)

  /**
   * `UInt32(max(0, channelId))`: a negative id (the channel has none yet)
   * becomes 0; any other 32-bit id is kept, so the conversion never traps.
   */
  function ClampedId(channelId: int32): (r: uint32)
    ensures channelId >= 0 ==> r as int == channelId as int
    ensures channelId < 0 ==> r == 0
    ensures r as int < 0x8000_0000
  {
    var clamped: int := if 0 < channelId then channelId as int else 0;
    clamped as uint32
  }

  /** The info record of a channel: its clamped id and its label (`label` is a Dafny keyword, hence `channelLabel`), all else at the defaults. */
  function ToInfo(channelId: int32, channelLabel: string): (r: DataChannelInfo)
    ensures r.channelLabel == channelLabel
    ensures r.id == ClampedId(channelId)
    ensures r.target == DefaultInfo.target
    ensures r == DefaultInfo.(id := r.id, channelLabel := r.channelLabel)
  {
    DefaultInfo.(id := ClampedId(channelId), channelLabel := channelLabel)
  }

  /** The two labels are the fixed strings of the protocol and tell the channels apart. */
  lemma LabelsDistinct()
    ensures ReliableLabel == "_reliable" && LossyLabel == "_lossy"
    ensures ReliableLabel != LossyLabel
  {
  }
}
