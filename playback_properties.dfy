/**
 * What the render step and the MIDI handling of the playback engine promise,
 * stated about the functions of module Playback.
 */
module PlaybackProperties {
  import opened Wrappers
  import opened Playback

  /** A render block is silent when every sample of every channel is zero. */
  predicate IsSilentBlock(out: Channels)
  {
    forall ch, i :: 0 <= ch < |out| && 0 <= i < |out[ch]| ==> out[ch][i] == 0.0
  }

  /**
   * Note-on rewinds and plays a loaded sample, note-off always stops; the last
   * note message of a block decides the cursor, and all other messages leave
   * it alone.
   */
  lemma {:induction false} LastNoteDecides(c: Cursor, length: nat, midi: seq<MidiMessage>)
    requires length > 0
    ensures LastNote(midi) == None ==> ApplyMessages(c, length, midi) == c
    ensures LastNote(midi).Some? && IsNoteOn(LastNote(midi).value) ==> ApplyMessages(c, length, midi) == Cursor(true, 0)
    ensures LastNote(midi).Some? && IsNoteOff(LastNote(midi).value) ==> ApplyMessages(c, length, midi) == Stopped
    decreases |midi|
  {
    if midi != [] {
      var last := midi[|midi| - 1];
      if !IsNoteOn(last) && !IsNoteOff(last) {
        LastNoteDecides(c, length, midi[..|midi| - 1]);
      }
    }
  }

  /**
   * Without a sample, note-on does nothing: the cursor is stopped exactly when
   * the block holds a note-off, and untouched otherwise.
   */
  lemma {:induction false} EmptySampleIgnoresNoteOn(c: Cursor, midi: seq<MidiMessage>)
    ensures (exists k :: 0 <= k < |midi| && IsNoteOff(midi[k])) ==> ApplyMessages(c, 0, midi) == Stopped
    ensures (forall k :: 0 <= k < |midi| ==> !IsNoteOff(midi[k])) ==> ApplyMessages(c, 0, midi) == c
    decreases |midi|
  {
    if midi != [] {
      var init := midi[..|midi| - 1];
      EmptySampleIgnoresNoteOn(c, init);
      if exists k :: 0 <= k < |midi| && IsNoteOff(midi[k]) {
        var k :| 0 <= k < |midi| && IsNoteOff(midi[k]);
        if k < |midi| - 1 {
          assert init[k] == midi[k];
        }
      } else {
        forall k | 0 <= k < |init| ensures !IsNoteOff(init[k]) {
          assert init[k] == midi[k];
        }
      }
    }
  }

  /**
   * When playback is off or no sample is loaded once the MIDI messages are
   * applied, the block is silent and the render step itself changes nothing.
   */
  lemma SilentWhenIdle(sample: Channels, c: Cursor, numOut: nat, blockSize: nat, midi: seq<MidiMessage>)
    requires Rectangular(sample) && InBounds(c, NumFrames(sample))
    requires var e := ApplyMessages(c, NumFrames(sample), midi); !e.playing || NumFrames(sample) == 0
    ensures var r := RenderBlock(sample, c, numOut, blockSize, midi);
      IsSilentBlock(r.output) && r.rendered == 0 && r.after == ApplyMessages(c, NumFrames(sample), midi)
  {
  }

  /**
   * A cursor already at (or past) the end when the block starts stops
   * playback and rewinds, and the block is silent.
   */
  lemma AtEndStops(sample: Channels, c: Cursor, numOut: nat, blockSize: nat, midi: seq<MidiMessage>)
    requires Rectangular(sample) && InBounds(c, NumFrames(sample))
    requires NumFrames(sample) > 0
    requires var e := ApplyMessages(c, NumFrames(sample), midi); e.playing && e.position >= NumFrames(sample)
    ensures var r := RenderBlock(sample, c, numOut, blockSize, midi);
      IsSilentBlock(r.output) && r.rendered == 0 && r.after == Stopped
  {
  }

  /**
   * When the block renders, it copies n = min(blockSize, length - position)
   * frames: output channel ch, frame i < n, is frame position + i of sample
   * channel min(ch, channels - 1); frames from n on stay silent; the cursor
   * advances by exactly n, and at the end it stops and rewinds.
   */
  lemma RenderCopies(sample: Channels, c: Cursor, numOut: nat, blockSize: nat, midi: seq<MidiMessage>)
    requires Rectangular(sample) && InBounds(c, NumFrames(sample))
    requires var e := ApplyMessages(c, NumFrames(sample), midi);
      e.playing && 0 <= e.position < NumFrames(sample)
    ensures var length := NumFrames(sample);
      var e := ApplyMessages(c, length, midi);
      var r := RenderBlock(sample, c, numOut, blockSize, midi);
      var n := Min(blockSize, length - e.position);
      && r.rendered == n
      && (forall ch, i :: 0 <= ch < numOut && 0 <= i < blockSize ==>
            r.output[ch][i] == if i < n then sample[SourceChannel(ch, |sample|)][e.position + i] else 0.0)
      && (e.position + n == length ==> r.after == Stopped)
      && (e.position + n < length ==> r.after == Cursor(true, e.position + n))
  {
  }

  /**
   * The effect of single messages: a note-off and a velocity-0 note-on stop
   * and rewind, a note-on with positive velocity plays a loaded sample from 0,
   * and any other message changes nothing.
   */
  lemma MessageEffects(c: Cursor, length: nat, velocity: nat)
    ensures ApplyMessage(c, length, NoteOff) == Stopped
    ensures ApplyMessage(c, length, NoteOn(0)) == Stopped
    ensures length > 0 && velocity > 0 ==> ApplyMessage(c, length, NoteOn(velocity)) == Cursor(true, 0)
    ensures length == 0 && velocity > 0 ==> ApplyMessage(c, length, NoteOn(velocity)) == c
    ensures ApplyMessage(c, length, Other) == c
  {
  }

  /** A block keeps the engine in the states it can reach. */
  lemma SettledPreserved(sample: Channels, c: Cursor, numOut: nat, blockSize: nat, midi: seq<MidiMessage>)
    requires Rectangular(sample) && Settled(c, NumFrames(sample))
    ensures Settled(RenderBlock(sample, c, numOut, blockSize, midi).after, NumFrames(sample))
  {
  }

  /**
   * The frames of output channel `ch` that playback from cursor c produces,
   * block after block, with no further MIDI messages, until it stops.
   */
  function PlayOut(sample: Channels, c: Cursor, numOut: nat, blockSize: nat, ch: nat): seq<real>
    requires Rectangular(sample) && InBounds(c, NumFrames(sample))
    requires NumFrames(sample) > 0 && blockSize > 0 && ch < numOut
    decreases NumFrames(sample) - c.position
  {
    var r := RenderBlock(sample, c, numOut, blockSize, []);
    var frames := r.output[ch][..r.rendered];
    if r.after.playing then
      assert c.position < r.after.position by {
        assert ApplyMessages(c, NumFrames(sample), []) == c;
        assert c.playing && c.position < NumFrames(sample);
        assert r.after.position == c.position + Min(blockSize, NumFrames(sample) - c.position);
      }
      frames + PlayOut(sample, r.after, numOut, blockSize, ch)
    else frames
  }

  /**
   * Triggered playback reproduces the sample exactly: from a playing cursor
   * at position p, the frames rendered on output channel ch until playback
   * stops are frames p .. length of the sample channel that feeds ch.
   */
  lemma {:induction false} PlayOutReproducesSample(sample: Channels, c: Cursor, numOut: nat, blockSize: nat, ch: nat)
    requires Rectangular(sample) && blockSize > 0 && ch < numOut
    requires c.playing && 0 <= c.position < NumFrames(sample)
    ensures PlayOut(sample, c, numOut, blockSize, ch) == sample[SourceChannel(ch, |sample|)][c.position..]
    decreases NumFrames(sample) - c.position
  {
    var length := NumFrames(sample);
    var src := sample[SourceChannel(ch, |sample|)];
    assert ApplyMessages(c, length, []) == c;
    var r := RenderBlock(sample, c, numOut, blockSize, []);
    RenderCopies(sample, c, numOut, blockSize, []);
    var n := r.rendered;
    assert r.output[ch][..n] == src[c.position..c.position + n];
    if r.after.playing {
      PlayOutReproducesSample(sample, r.after, numOut, blockSize, ch);
      assert src[c.position..] == src[c.position..c.position + n] + src[c.position + n..];
    } else {
      assert c.position + n == |src|;
    }
  }

  /**
   * An 8-frame sample triggered by a note-on and rendered in blocks of 3
   * copies 3, 3 and then 2 frames and is stopped afterwards; the progress
   * after the first block is 3/8.
   */
  lemma EightFramesInBlocksOfThree(sample: Channels, numOut: nat)
    requires Rectangular(sample) && NumFrames(sample) == 8
    ensures var b1 := RenderBlock(sample, Stopped, numOut, 3, [NoteOn(100)]);
      var b2 := RenderBlock(sample, b1.after, numOut, 3, []);
      var b3 := RenderBlock(sample, b2.after, numOut, 3, []);
      && b1.rendered == 3 && b1.after == Cursor(true, 3)
      && b2.rendered == 3 && b2.after == Cursor(true, 6)
      && b3.rendered == 2 && b3.after == Stopped
      && Progress(b1.after.position, NumFrames(sample)) == 0.375
  {
  }
}
