/**
 * The two operations of juce::AudioBuffer<float> that the render step uses,
 * on a channels-by-frames array: clearing the whole buffer and copying a run
 * of frames from a source channel into the start of one destination channel.
 */
module AudioBuffers {

  /** Every sample of the buffer is zero. */
  ghost predicate IsSilent(buffer: array2<real>)
    reads buffer
  {
    forall ch, i :: 0 <= ch < buffer.Length0 && 0 <= i < buffer.Length1 ==> buffer[ch, i] == 0.0
  }

  /** AudioBuffer::clear: zeroes every channel. */
  method Clear(buffer: array2<real>)
    modifies buffer
    ensures IsSilent(buffer)
  {
    var ch := 0;
    while ch < buffer.Length0
      invariant 0 <= ch <= buffer.Length0
      invariant forall c, i :: 0 <= c < ch && 0 <= i < buffer.Length1 ==> buffer[c, i] == 0.0
    {
      var i := 0;
      while i < buffer.Length1
        invariant 0 <= i <= buffer.Length1
        invariant forall c, j :: 0 <= c < ch && 0 <= j < buffer.Length1 ==> buffer[c, j] == 0.0
        invariant forall j :: 0 <= j < i ==> buffer[ch, j] == 0.0
      {
        buffer[ch, i] := 0.0;
        i := i + 1;
      }
      ch := ch + 1;
    }
  }

  /**
   * AudioBuffer::copyFrom with destination start 0: frames
   * source[sourceStart .. sourceStart + count] land in frames 0 .. count of
   * channel destChannel; every other sample keeps its value.
   */
  method CopyFrom(buffer: array2<real>, destChannel: nat, source: seq<real>, sourceStart: nat, count: nat)
    requires destChannel < buffer.Length0
    requires count <= buffer.Length1
    requires sourceStart + count <= |source|
    modifies buffer
    ensures forall ch, i :: 0 <= ch < buffer.Length0 && 0 <= i < buffer.Length1 ==>
      buffer[ch, i] == if ch == destChannel && i < count then source[sourceStart + i] else old(buffer[ch, i])
  {
    var i := 0;
    while i < count
      invariant 0 <= i <= count
      invariant forall ch, j :: 0 <= ch < buffer.Length0 && 0 <= j < buffer.Length1 ==>
        buffer[ch, j] == if ch == destChannel && j < i then source[sourceStart + j] else old(buffer[ch, j])
    {
      buffer[destChannel, i] := source[sourceStart + i];
      i := i + 1;
    }
  }
}
