/**
 * BackingTrackTriggerProcessor: the plugin object that owns the loaded
 * sample and the playback cursor, loads files, starts and stops playback,
 * and renders one audio block per host callback.
 */
module Processor {
  import opened Wrappers
  import opened Playback
  import AudioBuffers
  import PlaybackProperties

  /** The main output channel sets a host can propose; Discrete stands for every other layout. */
  datatype ChannelSet = Disabled | Mono | Stereo | Discrete(numChannels: nat)

  /** A buses layout, reduced to the main output bus that the plugin inspects. */
  datatype BusesLayout = BusesLayout(mainOutput: ChannelSet)

  /** isBusesLayoutSupported: the main output must be mono or stereo. */
  function IsBusesLayoutSupported(layouts: BusesLayout): (r: bool)
    ensures r <==> layouts.mainOutput.Mono? || layouts.mainOutput.Stereo?
    ensures r ==> 1 <= ChannelCount(layouts.mainOutput) <= 2
  {
    !(layouts.mainOutput != Mono && layouts.mainOutput != Stereo)
  }

  /** The number of channels of a channel set. */
  function ChannelCount(channels: ChannelSet): nat
  {
    match channels
    case Disabled => 0
    case Mono => 1
    case Stereo => 2
    case Discrete(n) => n
  }

  /**
   * What an audio format reader delivers for a file: its channels, all read
   * into memory, and its sample rate.
   */
  datatype Decoded = Decoded(channels: Channels, sampleRate: real)

  /** A reader has at least one channel, all channels of one length, and a positive rate. */
  predicate WellFormed(d: Decoded)
  {
    |d.channels| > 0 && Rectangular(d.channels) && d.sampleRate > 0.0
  }

  class BackingTrackTriggerProcessor {
    var sampleBuffer: Channels
    var loadedSampleName: string
    var loadedSampleRate: real
    var playing: bool
    var playbackPosition: int

    /** The object invariant: a rectangular buffer, a rate to divide by, a cursor within the sample. */
    ghost predicate Valid()
      reads this
    {
      && Rectangular(sampleBuffer)
      && (NumFrames(sampleBuffer) > 0 ==> loadedSampleRate > 0.0)
      && InBounds(PlaybackCursor(), NumFrames(sampleBuffer))
    }

    /** The playback state as a value. */
    function PlaybackCursor(): Cursor
      reads this
    {
      Cursor(playing, playbackPosition)
    }

    /** The length of the loaded sample in frames. */
    function Length(): nat
      reads this
    {
      NumFrames(sampleBuffer)
    }

    /** A fresh processor: nothing loaded, not playing, position 0. */
    constructor ()
      ensures Valid()
      ensures sampleBuffer == [] && loadedSampleName == ""
      ensures !playing && playbackPosition == 0
      ensures !HasSampleLoaded() && Settled(PlaybackCursor(), Length())
    {
      sampleBuffer := [];
      loadedSampleName := "";
      loadedSampleRate := 44100.0;
      playing := false;
      playbackPosition := 0;
    }

    /** hasSampleLoaded: the buffer holds at least one frame. */
    function HasSampleLoaded(): (r: bool)
      reads this
      ensures r <==> Length() > 0
      ensures r ==> |sampleBuffer| > 0
    {
      NumFrames(sampleBuffer) > 0
    }

    /** isPlaying */
    function IsPlaying(): (r: bool)
      reads this
      ensures r == PlaybackCursor().playing
    {
      playing
    }

    /** getSampleName: the path of the last successful load, "" otherwise. */
    function GetSampleName(): (r: string)
      reads this
      ensures r == loadedSampleName
    {
      loadedSampleName
    }

    /** getSampleBuffer: a read-only view of the loaded sample. */
    function GetSampleBuffer(): (r: Channels)
      reads this
      requires Valid()
      ensures r == sampleBuffer
      ensures Rectangular(r) && NumFrames(r) == Length()
    {
      sampleBuffer
    }

    /** getPlaybackProgress: a fraction in [0, 1], 0 when nothing is loaded. */
    function GetPlaybackProgress(): (r: real)
      reads this
      requires Valid()
      ensures 0.0 <= r <= 1.0
      ensures !HasSampleLoaded() ==> r == 0.0
      ensures HasSampleLoaded() ==> r * Length() as real == playbackPosition as real
    {
      Progress(playbackPosition, NumFrames(sampleBuffer))
    }

    /** getSampleLengthSeconds: frames over the rate of the loaded file, 0 when nothing is loaded. */
    function GetSampleLengthSeconds(): (r: real)
      reads this
      requires Valid()
      ensures !HasSampleLoaded() ==> r == 0.0
      ensures HasSampleLoaded() ==> r > 0.0 && r * loadedSampleRate == Length() as real
    {
      LengthSeconds(NumFrames(sampleBuffer), loadedSampleRate)
    }

    /** startPlayback: rewind and play when a sample is loaded; otherwise nothing changes. */
    method StartPlayback()
      requires Valid()
      modifies this
      ensures Valid()
      ensures old(HasSampleLoaded()) ==> playing && playbackPosition == 0
      ensures !old(HasSampleLoaded()) ==> playing == old(playing) && playbackPosition == old(playbackPosition)
      ensures PlaybackCursor() == Start(old(PlaybackCursor()), Length())
      ensures sampleBuffer == old(sampleBuffer) && loadedSampleName == old(loadedSampleName)
      ensures loadedSampleRate == old(loadedSampleRate)
      ensures old(Settled(PlaybackCursor(), Length())) ==> Settled(PlaybackCursor(), Length())
    {
      if NumFrames(sampleBuffer) > 0 {
        playbackPosition := 0;
        playing := true;
      }
    }

    /** stopPlayback: stop and rewind, whatever the state. */
    method StopPlayback()
      requires Valid()
      modifies this
      ensures Valid()
      ensures !playing && playbackPosition == 0
      ensures sampleBuffer == old(sampleBuffer) && loadedSampleName == old(loadedSampleName)
      ensures loadedSampleRate == old(loadedSampleRate)
      ensures Settled(PlaybackCursor(), Length())
    {
      playing := false;
      playbackPosition := 0;
    }

    /**
     * loadSample: stop playback, then install what the reader decoded from
     * `file` (its full path), or clear the buffer and the name when no reader
     * could be created.
     */
    method LoadSample(file: string, decoded: Option<Decoded>)
      requires Valid()
      requires decoded.Some? ==> WellFormed(decoded.value)
      modifies this
      ensures Valid()
      ensures !playing && playbackPosition == 0
      ensures !IsPlaying() && GetPlaybackProgress() == 0.0
      ensures decoded.None? ==> sampleBuffer == [] && GetSampleName() == "" && !HasSampleLoaded()
      ensures decoded.None? ==> loadedSampleRate == old(loadedSampleRate)
      ensures decoded.Some? ==> sampleBuffer == decoded.value.channels && GetSampleName() == file
      ensures decoded.Some? ==> |sampleBuffer| == |decoded.value.channels| && Length() == |decoded.value.channels[0]|
      ensures decoded.Some? ==> loadedSampleRate == decoded.value.sampleRate
      ensures Settled(PlaybackCursor(), Length())
    {
      StopPlayback();
      match decoded
      case Some(reader) =>
        sampleBuffer := reader.channels;
        loadedSampleName := file;
        loadedSampleRate := reader.sampleRate;
      case None =>
        sampleBuffer := [];
        loadedSampleName := "";
    }

    /**
     * setStateInformation once the saved path has been read from the stream:
     * load it only when it is non-empty and names an existing file.
     */
    method RestoreState(savedPath: string, fileExists: bool, decoded: Option<Decoded>)
      requires Valid()
      requires decoded.Some? ==> WellFormed(decoded.value)
      modifies this
      ensures Valid()
      ensures savedPath == "" || !fileExists ==>
        && sampleBuffer == old(sampleBuffer) && loadedSampleName == old(loadedSampleName)
        && loadedSampleRate == old(loadedSampleRate)
        && PlaybackCursor() == old(PlaybackCursor())
      ensures savedPath != "" && fileExists ==> !playing && playbackPosition == 0
      ensures savedPath != "" && fileExists && decoded.None? ==> sampleBuffer == [] && loadedSampleName == ""
      ensures savedPath != "" && fileExists && decoded.None? ==> loadedSampleRate == old(loadedSampleRate)
      ensures savedPath != "" && fileExists && decoded.Some? ==>
        sampleBuffer == decoded.value.channels && loadedSampleName == savedPath
      ensures savedPath != "" && fileExists && decoded.Some? ==> loadedSampleRate == decoded.value.sampleRate
    {
      if savedPath != "" {
        if fileExists {
          LoadSample(savedPath, decoded);
        }
      }
    }

    /**
     * The MIDI loop of processBlock: every note-on calls startPlayback and
     * every note-off calls stopPlayback, in arrival order.
     */
    method HandleMidi(midiMessages: seq<MidiMessage>)
      requires Valid()
      modifies this
      ensures Valid()
      ensures sampleBuffer == old(sampleBuffer) && loadedSampleName == old(loadedSampleName)
      ensures loadedSampleRate == old(loadedSampleRate)
      ensures PlaybackCursor() == ApplyMessages(old(PlaybackCursor()), Length(), midiMessages)
    {
      ghost var start := PlaybackCursor();
      var k := 0;
      while k < |midiMessages|
        invariant 0 <= k <= |midiMessages|
        invariant Valid()
        invariant sampleBuffer == old(sampleBuffer) && loadedSampleName == old(loadedSampleName)
        invariant loadedSampleRate == old(loadedSampleRate)
        invariant PlaybackCursor() == ApplyMessages(start, Length(), midiMessages[..k])
      {
        var message := midiMessages[k];
        if IsNoteOn(message) {
          StartPlayback();
        } else if IsNoteOff(message) {
          StopPlayback();
        }
        assert midiMessages[..k + 1][..k] == midiMessages[..k];
        k := k + 1;
      }
      assert midiMessages[..k] == midiMessages;
    }

    /**
     * processBlock on an output buffer of buffer.Length0 channels by
     * buffer.Length1 frames: the output and the new cursor are those of
     * RenderBlock; the sample and its name do not change.
     */
    method ProcessBlock(buffer: array2<real>, midiMessages: seq<MidiMessage>)
      requires Valid()
      modifies this, buffer
      ensures Valid()
      ensures sampleBuffer == old(sampleBuffer) && loadedSampleName == old(loadedSampleName)
      ensures loadedSampleRate == old(loadedSampleRate)
      ensures var r := RenderBlock(old(sampleBuffer), old(PlaybackCursor()), buffer.Length0, buffer.Length1, midiMessages);
        && PlaybackCursor() == r.after
        && forall ch, i :: 0 <= ch < buffer.Length0 && 0 <= i < buffer.Length1 ==> buffer[ch, i] == r.output[ch][i]
      ensures old(Settled(PlaybackCursor(), Length())) ==> Settled(PlaybackCursor(), Length())
    {
      ghost var start := PlaybackCursor();
      ghost var r := RenderBlock(sampleBuffer, start, buffer.Length0, buffer.Length1, midiMessages);
      AudioBuffers.Clear(buffer);

      HandleMidi(midiMessages);

      if !playing || NumFrames(sampleBuffer) == 0 {
        return;
      }

      var currentPos := playbackPosition;
      var numSamplesToProcess := buffer.Length1;
      var sampleLength := NumFrames(sampleBuffer);

      if currentPos >= sampleLength {
        playing := false;
        playbackPosition := 0;
        return;
      }

      var samplesToCopy := Min(numSamplesToProcess, sampleLength - currentPos);
      var numOutputChannels := buffer.Length0;
      var numSampleChannels := |sampleBuffer|;

      PlaybackProperties.RenderCopies(sampleBuffer, start, numOutputChannels, numSamplesToProcess, midiMessages);
      var channel := 0;
      while channel < numOutputChannels
        invariant 0 <= channel <= numOutputChannels
        invariant sampleBuffer == old(sampleBuffer) && loadedSampleName == old(loadedSampleName)
        invariant loadedSampleRate == old(loadedSampleRate)
        invariant playing && playbackPosition == currentPos
        invariant forall ch, i :: 0 <= ch < numOutputChannels && 0 <= i < buffer.Length1 ==>
          buffer[ch, i] == if ch < channel then r.output[ch][i] else 0.0
      {
        var sourceChannel := SourceChannel(channel, numSampleChannels);
        AudioBuffers.CopyFrom(buffer, channel, sampleBuffer[sourceChannel], currentPos, samplesToCopy);
        channel := channel + 1;
      }

      playbackPosition := currentPos + samplesToCopy;
      if playbackPosition >= sampleLength {
        playing := false;
        playbackPosition := 0;
      }
    }
  }

  /**
   * A client of the class: an 8-frame mono sample, triggered by a note-on and
   * rendered into a stereo output in blocks of 3, plays 3, 3 and 2 frames and
   * has stopped after the third block; the progress after the first is 3/8.
   */
  method EightFrameScenario(frames: seq<real>)
    requires |frames| == 8
  {
    var p := new BackingTrackTriggerProcessor();
    p.LoadSample("/tracks/eight.wav", Some(Decoded([frames], 48000.0)));
    assert p.HasSampleLoaded() && p.GetSampleName() == "/tracks/eight.wav";
    var out := new real[2, 3];

    p.ProcessBlock(out, [NoteOn(100)]);
    PlaybackProperties.EightFramesInBlocksOfThree([frames], 2);
    assert p.PlaybackCursor() == Cursor(true, 3);
    assert p.GetPlaybackProgress() == 0.375;
    PlaybackProperties.RenderCopies([frames], Stopped, 2, 3, [NoteOn(100)]);
    assert out[1, 2] == frames[2];

    p.ProcessBlock(out, []);
    assert p.PlaybackCursor() == Cursor(true, 6);

    p.ProcessBlock(out, []);
    PlaybackProperties.RenderCopies([frames], Cursor(true, 6), 2, 3, []);
    assert !p.IsPlaying() && p.PlaybackCursor() == Stopped;
    assert out[0, 1] == frames[7] && out[0, 2] == 0.0;
  }
}
