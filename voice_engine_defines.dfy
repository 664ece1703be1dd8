/** VoiceEngine's shared constants and the packing of an (engine, channel)
    pair into a single trace id. C++ `int` is 32 bits wide: the packing is
    only defined where neither the shift nor the addition overflows. */
module VoiceEngineDefines {

  // Volume control range.
  const MinVolumeLevel: int := 0
  const MaxVolumeLevel: int := 255

  // Range of the minimum playout delay used by video sync, in milliseconds.
  const MinMinPlayoutDelayMs: int := 0
  const MaxMinPlayoutDelayMs: int := 10000

  /** The channel id that stands for "no channel", and the dummy channel
      number it is packed as. */
  const NoChannel: int := -1
  const DummyChannel: int := 99

  const Int32Min: int := -0x8000_0000
  const Int32Max: int := 0x7FFF_FFFF

  predicate IsInt32(x: int) {
    Int32Min <= x <= Int32Max
  }

  /** An engine id that `veId << 16` can shift without leaving a 32-bit int. */
  predicate IsShiftableEngineId(veId: int) {
    0 <= veId < 0x8000
  }

  /** `veId << 16` on a 32-bit int: for a shiftable engine id the shift is
      a multiplication by 2^16 and stays non-negative. */
  function ShiftLeft16(veId: int): (r: int)
    requires IsShiftableEngineId(veId)
    ensures 0 <= r <= Int32Max - 0xFFFF
    ensures r % 0x1_0000 == 0
  {
    veId * 0x1_0000
  }

  /** The callers' obligation: the packed sum must itself be a 32-bit int. */
  predicate VoEIdDefined(veId: int, chId: int) {
    IsShiftableEngineId(veId) && IsInt32(chId) &&
    (chId != NoChannel ==> IsInt32(veId * 0x1_0000 + chId))
  }

  /** Packs an engine id and a channel id into one 32-bit id; the
      "no channel" id is packed as the dummy channel. */
  function VoEId(veId: int, chId: int): (id: int)
    requires VoEIdDefined(veId, chId)
    ensures IsInt32(id)
    ensures 0 <= chId < 0x1_0000 || chId == NoChannel ==> 0 <= id
  {
    if chId == NoChannel then
      ShiftLeft16(veId) + DummyChannel
    else
      ShiftLeft16(veId) + chId
  }

  /** The engine id a packed id carries in its upper half. */
  function EngineOf(id: int): int {
    id / 0x1_0000
  }

  /** The channel id a packed id carries in its lower 16 bits. */
  function ChannelOf(id: int): int {
    id % 0x1_0000
  }

  lemma VolumeLevelRange()
    ensures MinVolumeLevel == 0 <= MaxVolumeLevel == 255
  {
  }

  lemma MinPlayoutDelayRange()
    ensures 0 == MinMinPlayoutDelayMs <= MaxMinPlayoutDelayMs == 10000
  {
  }

  /** The "no channel" id is the dummy channel in the low half. */
  lemma VoEIdNoChannel(veId: int)
    requires IsShiftableEngineId(veId)
    ensures VoEIdDefined(veId, NoChannel)
    ensures VoEId(veId, NoChannel) == veId * 0x1_0000 + 99
  {
  }

  /** Any other channel id is added to the shifted engine id unchanged. */
  lemma VoEIdChannel(veId: int, chId: int)
    requires VoEIdDefined(veId, chId) && chId != NoChannel
    ensures VoEId(veId, chId) == veId * 0x1_0000 + chId
  {
  }

  /** The sentinel is indistinguishable from channel 99 once packed. */
  lemma VoEIdSentinelAliasesDummyChannel(veId: int)
    requires IsShiftableEngineId(veId)
    ensures VoEIdDefined(veId, NoChannel) && VoEIdDefined(veId, DummyChannel)
    ensures VoEId(veId, NoChannel) == VoEId(veId, DummyChannel)
  {
  }

  /** For a channel id in 0..65535 the packed id gives both halves back. */
  lemma VoEIdRoundTrip(veId: int, chId: int)
    requires IsShiftableEngineId(veId) && 0 <= chId < 0x1_0000
    ensures VoEIdDefined(veId, chId)
    ensures EngineOf(VoEId(veId, chId)) == veId
    ensures ChannelOf(VoEId(veId, chId)) == chId
  {
  }

  /** Within one engine, distinct channel ids in 0..65535 give distinct
      ids; across engines too. */
  lemma VoEIdInjective(v1: int, c1: int, v2: int, c2: int)
    requires IsShiftableEngineId(v1) && 0 <= c1 < 0x1_0000
    requires IsShiftableEngineId(v2) && 0 <= c2 < 0x1_0000
    requires VoEId(v1, c1) == VoEId(v2, c2)
    ensures v1 == v2 && c1 == c2
  {
  }
}
