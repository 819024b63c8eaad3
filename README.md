# BackingTrackTrigger playback engine, in Dafny

A model of the playback engine of `BackingTrackTriggerProcessor`, a JUCE audio
plugin that loads one audio file and plays it once, unpitched, when a MIDI note
arrives. The engine state is the loaded sample (channels of equal length), the
`playing` flag and the integer `playbackPosition`. The state changes through
`startPlayback`, `stopPlayback`, `loadSample`, the restore guard of
`setStateInformation`, and the MIDI messages handled by `processBlock`. Each
host callback, `processBlock` clears the output buffer and applies the block's
MIDI messages in order. It then copies a bounded run of sample frames into
every output channel, advances the cursor, and stops when the sample ends.

Modules:

- `Playback` (playback.dfy) gives the engine as values. It defines the
  `Cursor`, the MIDI classification, `ApplyMessages` (the MIDI loop) and
  `RenderBlock` (one whole `processBlock`). It also defines the exact ratios
  behind `getPlaybackProgress` and `getSampleLengthSeconds`.
- `PlaybackProperties` (playback_properties.dfy) holds the lemmas about those
  functions: message effects, silence, the copy rule, cursor advance, auto-stop, the reachable
  invariant, exact reproduction of the sample, and the 8-frames-in-blocks-of-3
  scenario.
- `AudioBuffers` (audio_buffers.dfy) models `juce::AudioBuffer::clear` and
  `copyFrom` on a channels × frames `array2<real>`.
- `Processor` (processor.dfy) holds the class `BackingTrackTriggerProcessor`,
  with the source's fields and methods. Its methods are proved against
  `Playback`: `ProcessBlock` works in place on the output `array2<real>` and
  ends in the state and output that `RenderBlock` gives. The module also holds
  the buses-layout predicate and a client method that runs the 8-frame
  scenario through the class.

Where the header and the `.cpp` disagree, the model follows the `.cpp`:

- The header's doc comment (Source/PluginProcessor.h:12) says note-off is
  ignored. The `.cpp` stops playback on note-off
  (Source/PluginProcessor.cpp:80-82), and the model does the same.
- Start and stop always rewind to frame 0. The start offset, resampling and
  transport resync declared in the header are not implemented in the `.cpp`.
- The `.cpp` stores the reader's rate in `loadedSampleRate`
  (Source/PluginProcessor.cpp:176), a member the header does not declare. The
  model gives the class a field of that name.
  Its initial value, 44100.0, is arbitrary: the source gives none, and the
  value is only read once a load has succeeded and replaced it.

Note classification follows JUCE's defaults. A note-on with velocity 0 counts
as a note-off (`isNoteOn()` is false and `isNoteOff()` is true), so
`NoteOn(0)` stops playback.

Decoding is a parameter. `LoadSample` receives the full path of the file and
`Option<Decoded>`: `None` when no reader can be created, otherwise the decoded
channels and the sample rate. A decoded value must be well formed: at least
one channel, all channels of the same length, and a positive rate. That is
the reader's output contract. For the restore, the existence of the file is
a boolean parameter.

## Model

| member | source | states |
|---|---|---|
| `Playback.ApplyMessages` | Source/PluginProcessor.cpp:74-84 | applying a block's MIDI messages in arrival order keeps the cursor within the sample and keeps the reachable-state invariant (only a loaded sample plays; position inside the sample or 0) |
| `Playback.RenderBlock` | Source/PluginProcessor.cpp:66-126 | a block has exactly one output sequence per output channel, each of the block size, copies at most blockSize frames, and leaves the cursor within the sample |
| `Playback.Progress` | Source/PluginProcessor.cpp:209-215 | progress is 0 with no sample, otherwise position/length exactly; for a position within the sample it lies in [0, 1] |
| `Playback.LengthSeconds` | Source/PluginProcessor.cpp:202-207 | length in seconds is 0 with no sample, otherwise a positive value that times the rate gives the frame count |
| `PlaybackProperties.LastNoteDecides` | Source/PluginProcessor.cpp:74-84 | with a sample loaded, the last note message of a block decides the cursor: note-on gives playing at 0, note-off gives stopped at 0, and with no note message (only other messages) the cursor is unchanged |
| `PlaybackProperties.EmptySampleIgnoresNoteOn` | Source/PluginProcessor.cpp:190-200 | with no sample, note-on changes nothing: the block's messages stop and rewind exactly when one of them is a note-off, and leave the cursor alone otherwise |
| `PlaybackProperties.SilentWhenIdle` | Source/PluginProcessor.cpp:71-88 | if after the MIDI messages playback is off or the sample is empty, every output sample is 0, nothing is copied, and the render step leaves the cursor as the messages left it |
| `PlaybackProperties.AtEndStops` | Source/PluginProcessor.cpp:96-100 | a playing cursor already at or past the end stops and rewinds to 0, and the block is silent |
| `PlaybackProperties.RenderCopies` | Source/PluginProcessor.cpp:103-125 | with n = min(blockSize, length - position), output channel c, frame i < n, is sample channel min(c, channels-1) at position+i, frames from n on are 0, the cursor advances by exactly n, and at the end playback stops at 0, otherwise stays playing strictly before the end |
| `PlaybackProperties.MessageEffects` | Source/PluginProcessor.cpp:77-83 | a note-off and a velocity-0 note-on stop at 0; a note-on with positive velocity plays a loaded sample from 0 and changes nothing without one; any other message changes nothing |
| `PlaybackProperties.SettledPreserved` | Source/PluginProcessor.cpp:119-125 | a block keeps the reachable-state invariant: playing implies a loaded sample, and the position is inside the sample or 0 |
| `PlaybackProperties.PlayOutReproducesSample` | Source/PluginProcessor.cpp:103-125 | playing on from position p with no further MIDI, the frames copied to an output channel block after block, until playback stops, are exactly frames p to the end of the sample channel feeding it |
| `PlaybackProperties.EightFramesInBlocksOfThree` | Source/PluginProcessor.cpp:103-125 | an 8-frame sample triggered by a note-on and rendered in blocks of 3 copies 3, 3, then 2 frames, is stopped at 0 afterwards, and shows progress 3/8 after the first block |
| `Processor.IsBusesLayoutSupported` | Source/PluginProcessor.cpp:56-64 | true exactly when the main output channel set is mono or stereo, so a supported layout has one or two output channels |
| `Playback.Start` | Source/PluginProcessor.cpp:190-195 | with a sample loaded the cursor plays from 0; without one it is unchanged; the cursor stays within the sample and in a reachable state |
| `Playback.ApplyMessage` | Source/PluginProcessor.cpp:77-83 | a note-on with a sample loaded plays from 0, a note-off stops at 0, any other message leaves the cursor unchanged; the reachable-state invariant is kept |
| `Playback.IsNoteOn` | Source/PluginProcessor.cpp:77 | a message counts as a note-on exactly when it is a note-on with velocity above 0 (JUCE's default); a note-off or another message never does |
| `Playback.IsNoteOff` | Source/PluginProcessor.cpp:80 | every note-off message counts, and a note-on message counts exactly when its velocity is 0; nothing counts as both a note-on and a note-off; other messages are neither |
| `Playback.SourceChannel` | Source/PluginProcessor.cpp:107-116 | with at least one sample channel, the source is a valid sample channel never above the output channel: the same index when the sample has that channel, the last sample channel otherwise, so a mono sample feeds every output and sample channels at or beyond the output count are never read |
| `Processor.BackingTrackTriggerProcessor.constructor` | Source/PluginProcessor.h:91-103 | a fresh processor has an empty buffer and name, is not playing, is at position 0, and has no sample loaded |
| `Processor.BackingTrackTriggerProcessor.HasSampleLoaded` | Source/PluginProcessor.h:61 | true exactly when the sample buffer has more than 0 frames (and then it has a channel) |
| `Processor.BackingTrackTriggerProcessor.IsPlaying` | Source/PluginProcessor.h:64 | returns exactly the playing flag |
| `Processor.BackingTrackTriggerProcessor.GetSampleName` | Source/PluginProcessor.h:62 | returns the stored name, which is the path of the last successful load and "" after a failed one (see LoadSample) |
| `Processor.BackingTrackTriggerProcessor.GetSampleBuffer` | Source/PluginProcessor.h:68-70 | a read-only view (a function: no state changes) that is the stored sample buffer itself, rectangular and as long as the sample |
| `Processor.BackingTrackTriggerProcessor.GetPlaybackProgress` | Source/PluginProcessor.cpp:209-215 | progress lies in [0, 1], is 0 with no sample, and otherwise times the length gives the position |
| `Processor.BackingTrackTriggerProcessor.GetSampleLengthSeconds` | Source/PluginProcessor.cpp:202-207 | 0 with no sample, otherwise positive and equal to frames divided by the rate of the loaded file |
| `Processor.BackingTrackTriggerProcessor.StartPlayback` | Source/PluginProcessor.cpp:190-195 | with a sample loaded, playing becomes true at position 0; without one nothing changes; the sample and name are untouched |
| `Processor.BackingTrackTriggerProcessor.StopPlayback` | Source/PluginProcessor.cpp:197-200 | always not playing at position 0; nothing else changes |
| `Processor.BackingTrackTriggerProcessor.LoadSample` | Source/PluginProcessor.cpp:157-188 | always stops and rewinds first; on decode failure the buffer is empty, nothing is loaded and the name is ""; on success the buffer is the reader's channels (its channel count and length), the name is the file path and the rate is the reader's |
| `Processor.BackingTrackTriggerProcessor.RestoreState` | Source/PluginProcessor.cpp:143-154 | loads the saved path only when it is non-empty and the file exists, with the post-state of LoadSample (buffer, name, rate and cursor); otherwise the state is left as it was |
| `Processor.BackingTrackTriggerProcessor.HandleMidi` | Source/PluginProcessor.cpp:74-84 | the MIDI loop calls startPlayback on each note-on and stopPlayback on each note-off in arrival order, leaving the cursor ApplyMessages gives; the sample, name and rate do not change |
| `Processor.BackingTrackTriggerProcessor.ProcessBlock` | Source/PluginProcessor.cpp:66-126 | the output buffer and the new cursor are exactly those of RenderBlock for the old sample, cursor and MIDI messages; the sample, name and rate do not change; the reachable-state invariant is kept |
| `AudioBuffers.Clear` | Source/PluginProcessor.cpp:71 | every sample of the output buffer becomes 0 |
| `AudioBuffers.CopyFrom` | Source/PluginProcessor.cpp:114-115 | frames 0..count of the destination channel receive the source frames from the given start; every other sample keeps its value |

## Left out

- Resampling (`resampleBufferHighQuality`), the start offset (`setStartOffsetSeconds`, `getStartOffsetSeconds`, `setStartOffsetFromProgress`), `resetPlayback` and host transport tracking. The header declares them, but the `.cpp` does not define them, and the model does not invent their behaviour.
- The `triggered` flag, `lastHostPosition`, `wasHostPlaying`, and the original-file fields and the host rate with their getters (`getOriginalSampleRate`, `getOriginalNumChannels`, `getOriginalBitsPerSample`, `isResampled`, `getHostSampleRate`). The `.cpp` never writes the original-file fields, and the host rate is only stored by `prepareToPlay`.
- `prepareToPlay` stores the host rate in `currentSampleRate`, and nothing modelled reads it. `releaseResources` is empty.
- Audio decoding (`formatManager.createReaderFor`, `reader->read`) is a library call. It is a parameter of `LoadSample`. A reader with zero channels is excluded: JUCE readers always have at least one channel, and with none the source would read channel -1.
- `getStateInformation` and the stream format of `setStateInformation` are library stream code. `RestoreState` starts from the path already read from the stream, and takes file existence as a parameter. `juce::File::getFullPathName` is taken to return the path unchanged.
- The atomics and the two threads: the engine is modelled sequentially.
- Floating point. Samples are `real` and only copied. `Progress` and `LengthSeconds` are exact ratios, without float rounding.
- Integer widths. Positions and lengths are unbounded. The source casts `reader->lengthInSamples` and `sampleLength - currentPos` to 32-bit `int`, and files longer than 2^31-1 frames would be truncated; the model does not model that.
- `ScopedNoDenormals`, editor creation, program handling, `getName`, `acceptsMidi`, `producesMidi`, `isMidiEffect` and `getTailLengthSeconds` are plugin boilerplate.
- The editor (Source/PluginEditor.h, Source/PluginEditor.cpp) is UI code. It calls `startPlayback`, `stopPlayback`, `loadSample` and the modelled accessors. It also calls `setStartOffsetFromProgress` (Source/PluginEditor.h:167) and `getStartOffsetSeconds` (Source/PluginEditor.h:99), which the header declares but the `.cpp` does not define. And it calls `getHostSampleRate` (Source/PluginEditor.h:100), which is not modelled.
- The `DBG` logging in `loadSample` (Source/PluginProcessor.cpp:178-181, 186) is debug output only, with no effect on state.
- Buses layouts are reduced to the main output channel set. Every JUCE channel set other than disabled, mono and stereo is represented by `Discrete(n)`.
