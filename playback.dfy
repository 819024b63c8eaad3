/**
 * The playback engine of the one-shot sample trigger, as values: the loaded
 * sample, the playback cursor (the `playing` flag and `playbackPosition`),
 * how MIDI messages move the cursor, and what one audio block renders.
 * The processor class in module Processor is proved against these functions.
 */
module Playback {
  import opened Wrappers

  /** A sample buffer: one sequence of frames per channel. */
  type Channels = seq<seq<real>>

  /** Every channel has as many frames as the first (juce::AudioBuffer is rectangular). */
  predicate Rectangular(s: Channels)
  {
    forall ch :: 0 <= ch < |s| ==> |s[ch]| == |s[0]|
  }

  /** AudioBuffer::getNumSamples for a buffer given by its channels. */
  function NumFrames(s: Channels): nat
  {
    if |s| == 0 then 0 else |s[0]|
  }

  function Min(a: int, b: int): int
  {
    if a < b then a else b
  }

  /** The playback state: the `playing` flag and the integer `playbackPosition`. */
  datatype Cursor = Cursor(playing: bool, position: int)

  /** The state stopPlayback leaves, and the state of a fresh processor. */
  const Stopped: Cursor := Cursor(false, 0)

  /** The position lies within the sample. */
  predicate InBounds(c: Cursor, length: nat)
  {
    0 <= c.position <= length
  }

  /**
   * The states the engine can actually reach: only a loaded sample plays, and
   * the cursor either sits strictly inside the sample or has been reset to 0.
   */
  predicate Settled(c: Cursor, length: nat)
  {
    InBounds(c, length) && (c.playing ==> length > 0) && (c.position < length || c.position == 0)
  }

  /** startPlayback: rewinds and plays, but only when a sample is loaded. */
  function Start(c: Cursor, length: nat): (r: Cursor)
    ensures length > 0 ==> r.playing && r.position == 0
    ensures length == 0 ==> r == c
    ensures InBounds(c, length) ==> InBounds(r, length)
    ensures Settled(c, length) ==> Settled(r, length)
  {
    if length > 0 then Cursor(true, 0) else c
  }

  /**
   * A MIDI message as the render step sees it. A note-on carries its velocity;
   * every message that is neither a note-on nor a note-off is Other.
   */
  datatype MidiMessage = NoteOn(velocity: nat) | NoteOff | Other

  /** MidiMessage::isNoteOn(): a note-on with velocity 0 is not a note-on. */
  function IsNoteOn(m: MidiMessage): (r: bool)
    ensures r ==> m.NoteOn?
    ensures m.NoteOn? ==> (r <==> m.velocity > 0)
    ensures m.NoteOff? || m.Other? ==> !r
  {
    m.NoteOn? && m.velocity > 0
  }

  /** MidiMessage::isNoteOff(): a note-off, or a note-on with velocity 0. */
  function IsNoteOff(m: MidiMessage): (r: bool)
    ensures r ==> !IsNoteOn(m)
    ensures m.NoteOff? ==> r
    ensures m.NoteOn? ==> (r <==> m.velocity == 0)
    ensures m.NoteOn? ==> (r <==> !IsNoteOn(m))
    ensures m.Other? ==> !r
  {
    m.NoteOff? || (m.NoteOn? && m.velocity == 0)
  }

  /** One iteration of the MIDI loop of processBlock. */
  function ApplyMessage(c: Cursor, length: nat, m: MidiMessage): (r: Cursor)
    ensures IsNoteOn(m) && length > 0 ==> r == Cursor(true, 0)
    ensures IsNoteOff(m) ==> !r.playing && r.position == 0
    ensures !IsNoteOn(m) && !IsNoteOff(m) ==> r == c
    ensures Settled(c, length) ==> Settled(r, length)
  {
    if IsNoteOn(m) then Start(c, length)
    else if IsNoteOff(m) then Stopped
    else c
  }

  /** The MIDI loop of processBlock: the messages of one block, in arrival order. */
  function ApplyMessages(c: Cursor, length: nat, midi: seq<MidiMessage>): (r: Cursor)
    ensures InBounds(c, length) ==> InBounds(r, length)
    ensures Settled(c, length) ==> Settled(r, length)
    decreases |midi|
  {
    if midi == [] then c
    else ApplyMessage(ApplyMessages(c, length, midi[..|midi| - 1]), length, midi[|midi| - 1])
  }

  /** The last note-on or note-off of a block, if any. */
  function LastNote(midi: seq<MidiMessage>): Option<MidiMessage>
    decreases |midi|
  {
    if midi == [] then None
    else if IsNoteOn(midi[|midi| - 1]) || IsNoteOff(midi[|midi| - 1]) then Some(midi[|midi| - 1])
    else LastNote(midi[..|midi| - 1])
  }

  /**
   * The sample channel that feeds output channel `channel`: the same channel,
   * or the last sample channel when the sample has fewer channels.
   */
  function SourceChannel(channel: nat, numSampleChannels: nat): (r: int)
    ensures numSampleChannels > 0 ==> 0 <= r < numSampleChannels
    ensures r <= channel
    ensures channel < numSampleChannels ==> r == channel
    ensures channel >= numSampleChannels ==> r == numSampleChannels - 1
  {
    Min(channel, numSampleChannels - 1)
  }

  /** A block of `numChannels` silent channels of `numFrames` frames. */
  function Silence(numChannels: nat, numFrames: nat): Channels
  {
    seq(numChannels, _ => seq(numFrames, _ => 0.0))
  }

  /**
   * What processBlock produces: the output buffer (one sequence per output
   * channel), the number of frames copied from the sample, and the cursor after
   * the block.
   */
  datatype Block = Block(output: Channels, rendered: nat, after: Cursor)

  /**
   * processBlock on an output of `numOut` channels by `blockSize` frames:
   * clear, apply the MIDI messages, then copy min(blockSize, length - position)
   * frames from the position on, advance the cursor, and stop at the end.
   */
  function RenderBlock(sample: Channels, c: Cursor, numOut: nat, blockSize: nat, midi: seq<MidiMessage>): (r: Block)
    requires Rectangular(sample) && InBounds(c, NumFrames(sample))
    ensures |r.output| == numOut
    ensures forall ch :: 0 <= ch < numOut ==> |r.output[ch]| == blockSize
    ensures r.rendered <= blockSize
    ensures InBounds(r.after, NumFrames(sample))
  {
    var length := NumFrames(sample);
    var e := ApplyMessages(c, length, midi);
    if !e.playing || length == 0 then Block(Silence(numOut, blockSize), 0, e)
    else if e.position >= length then Block(Silence(numOut, blockSize), 0, Stopped)
    else
      var n := Min(blockSize, length - e.position);
      var out := seq(numOut, ch requires 0 <= ch < numOut =>
                   seq(blockSize, i requires 0 <= i < blockSize =>
                     if i < n then sample[SourceChannel(ch, |sample|)][e.position + i] else 0.0));
      var next := e.position + n;
      Block(out, n, if next >= length then Stopped else Cursor(true, next))
  }

  /** getPlaybackProgress, as an exact ratio: 0 with no sample, otherwise position / length. */
  function Progress(position: int, length: nat): (r: real)
    ensures length == 0 ==> r == 0.0
    ensures length > 0 ==> r * length as real == position as real
    ensures 0 <= position <= length ==> 0.0 <= r <= 1.0
  {
    if length == 0 then 0.0 else position as real / length as real
  }

  /** getSampleLengthSeconds, as an exact ratio: 0 with no sample, otherwise frames / rate. */
  function LengthSeconds(frames: nat, sampleRate: real): (r: real)
    requires frames > 0 ==> sampleRate > 0.0
    ensures frames == 0 ==> r == 0.0
    ensures frames > 0 ==> r > 0.0 && r * sampleRate == frames as real
  {
    if frames == 0 then 0.0 else frames as real / sampleRate
  }
}
