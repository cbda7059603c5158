# AudioKit sample player and render-graph executor, in Dafny

This project models the two pieces of real-time audio logic in this part of
AudioKit:

- **The single-file sample player** (`SamplerAudioUnit` and its `Sampler`
  node). The unit keeps a list of audio files and rebuilds its decoded data
  whenever that list is assigned. Its render block copies the first channel of
  the first decoded file, starting at the playhead, into every output buffer.
  Past the end of the file it writes silence, and while stopped it writes
  silence throughout. After the frames are written, the playhead advances by
  the frame count, but only while playing. The node moves the playhead
  (`movePlayhead`, `rewind`) and starts and stops playback (`play`, `stop`).
- **The engine's render-graph executor** (`EngineAudioUnit.renderBlock`). It
  walks `execList` in order. Each entry's render block gets the caller's frame
  count, bus 0, and that entry's own output buffer and input block. The first
  status that is not `noErr` is returned at once, and later entries do not
  run. When every entry succeeds, the result is `noErr`.

Layout:

- `core_audio.dfy` (module `CoreAudio`) holds the shared vocabulary: `OSStatus`
  with `NoErr == 0`, `Sample`, `Silence` and `Option`.
- `sampler.dfy` (module `Playback`) holds the decoded-file list
  (`DecodedFiles`), the specification of what a render call writes
  (`ZeroPadded`, `RenderFrames`), the seconds-to-frames conversion, the class
  `SamplerAudioUnit` and the class `Sampler`.
- `engine.dfy` (module `Engine2`) holds `AUExecInfo`, the specification of one
  render pass (`Execute`, which returns the status and the ordered log of
  calls made), and the class `EngineAudioUnit`. In that class, `RenderBlock`
  is the loop with its early return.

Modelling choices:

- Sample values are only copied, so they are exact `real`s.
- Output buffers are Dafny `array<Sample>`s, written in place. Two entries of
  the buffer list may be the same array. This is harmless, because every
  buffer receives the same value for a given frame.
- Decoding an `AVAudioFile` is an opaque function from a file to an optional
  block of channel data. The unit receives it at construction.
- Each execution-list entry's render block is an opaque function from its
  arguments to a status. The engine's render block returns a ghost log of the
  calls it made, so that order and short-circuiting can be stated.
- The playhead is a plain integer and may be negative, as the source allows.
  Rendering at least one frame requires a non-negative playhead and a first
  file with at least one channel. These are exactly the conditions under which
  the source's array reads stay in range.

The sampler's `samples` note table, its `voices` pool and the `SamplerVoice`
struct are never read or written, so no voice allocation or stealing happens.
`movePlayhead` accepts any position, including a negative one. It is the
render call that fails on a negative playhead, so the model places that
condition on the render call.

## Model

| member | source | states |
|---|---|---|
| `Playback.DecodedFiles` | Sources/AudioKit/Nodes/Playback/Sampler.swift:32-41 | the decoded list never has more entries than there are files |
| `Playback.DecodedFilesAppend` | Sources/AudioKit/Nodes/Playback/Sampler.swift:35-39 | decoding `a + b` gives the decoding of `a` followed by that of `b`, so the decoded list keeps file order |
| `Playback.DecodedFilesMembership` | Sources/AudioKit/Nodes/Playback/Sampler.swift:35-39 | a data block is in the decoded list if and only if some file decodes to it, so failed files are dropped and nothing else is added |
| `Playback.DecodedFilesFirst` | Sources/AudioKit/Nodes/Playback/Sampler.swift:35-39 | the first decoded entry is the data of some file `i`, and every file before `i` failed to convert |
| `Playback.DecodedFilesAllConvert` | Sources/AudioKit/Nodes/Playback/Sampler.swift:35-39 | when every file converts, entry `i` of the decoded list is the data of file `i`, one entry per file |
| `Playback.RenderFramesConsecutive` | Sources/AudioKit/Nodes/Playback/Sampler.swift:110-124 | two render calls in a row while playing, the second starting where the playhead was left, write the same frames as one call of the combined length |
| `Playback.RenderFramesCopiesSource` | Sources/AudioKit/Nodes/Playback/Sampler.swift:112-115 | while playing, a block that lies inside the file is an exact copy of `source[playhead .. playhead + frameCount]` |
| `Playback.RenderFramesPastEnd` | Sources/AudioKit/Nodes/Playback/Sampler.swift:111-119 | a block starting at or past the end of the file is all silence, whether playing or not |
| `Playback.LastFrameThenSilence` | Sources/AudioKit/Nodes/Playback/Sampler.swift:110-119 | rendering four frames from the last frame of the file gives that frame and then three frames of silence |
| `Playback.TruncateTowardZero` | Sources/AudioKit/Nodes/Playback/Sampler.swift:142 | the integer differs from the real by less than one and lies between zero and the real, which is truncation toward zero as `Int(Double)` does it |
| `Playback.SecondsToFramesExact` | Sources/AudioKit/Nodes/Playback/Sampler.swift:141-143 | in exact arithmetic, a position of `k / 44100` seconds moves the playhead to exactly frame `k` (the source's `Double` arithmetic does not always do so; see "Left out") |
| `Playback.SamplerAudioUnit.constructor` | Sources/AudioKit/Nodes/Playback/Sampler.swift:31-97 | a new unit has no files and no decoded data (the initial values at lines 31-32), is stopped and has its playhead at 0 (the initial values at lines 96-97) |
| `Playback.SamplerAudioUnit.SourceIsFirstDecodedFile` | Sources/AudioKit/Nodes/Playback/Sampler.swift:32-41 | while the decoded data reflects the file list, the samples the render block plays (the first channel of entry 0, lines 113-114) are the first channel of the first file that converts, and every earlier file failed to convert |
| `Playback.SamplerAudioUnit.SetFiles` | Sources/AudioKit/Nodes/Playback/Sampler.swift:32-41 | assigning the file list replaces the decoded data with exactly the files that convert, in file order, whatever was there before; the class invariant that the decoded data reflects the file list is re-established |
| `Playback.SamplerAudioUnit.InternalRenderBlock` | Sources/AudioKit/Nodes/Playback/Sampler.swift:99-128 | every output buffer gets the same `frameCount` frames: while playing, `source[playhead + f]` when that lies inside the file and silence past its end; while stopped, silence. Frames from `frameCount` on are untouched. The playhead grows by exactly `frameCount` while playing, even past the end, and is unchanged while stopped. The status is `noErr`. Only the playhead and the buffers change, each buffer must hold `frameCount` frames, and no read leaves the file. |
| `Playback.Sampler.constructor` | Sources/AudioKit/Nodes/Playback/Sampler.swift:158-169 | a new node's unit has the one given file as its file list, with its decoded data rebuilt from it; the unit is stopped with its playhead at 0 |
| `Playback.Sampler.MovePlayhead` | Sources/AudioKit/Nodes/Playback/Sampler.swift:141-143 | the playhead becomes `position * 44100` truncated toward zero; nothing else changes |
| `Playback.Sampler.Rewind` | Sources/AudioKit/Nodes/Playback/Sampler.swift:145-147 | the playhead becomes 0 and the playing flag is untouched |
| `Playback.Sampler.Play` | Sources/AudioKit/Nodes/Playback/Sampler.swift:149-151 | the unit is playing and its playhead is untouched |
| `Playback.Sampler.Stop` | Sources/AudioKit/Nodes/Playback/Sampler.swift:153-155 | the unit is stopped and its playhead is untouched, so stopping twice is the same as stopping once |
| `Engine2.ExecuteLogFollowsList` | Sources/AudioKit/Internals/Engine2/EngineAudioUnit.swift:72-78 | call `k` of a render pass is to entry `k` of `execList`, with the caller's frame count, bus 0 and that entry's own output buffer and input block; there are at most as many calls as entries, so each entry is called at most once, in list order |
| `Engine2.ExecuteSucceedsIff` | Sources/AudioKit/Internals/Engine2/EngineAudioUnit.swift:72-86 | a pass returns `noErr` if and only if every entry returns `noErr` (an empty list returns `noErr`), and then every entry was called |
| `Engine2.ExecuteStopsAtFirstFailure` | Sources/AudioKit/Internals/Engine2/EngineAudioUnit.swift:81-83 | when entry `k` is the first that fails, the pass returns exactly its status and makes exactly `k + 1` calls, so no later entry runs |
| `Engine2.EngineAudioUnit.constructor` | Sources/AudioKit/Internals/Engine2/EngineAudioUnit.swift:19 | the execution list starts empty |
| `Engine2.EngineAudioUnit.RenderBlock` | Sources/AudioKit/Internals/Engine2/EngineAudioUnit.swift:64-88 | the loop returns the status and call log of `Execute`. It returns `noErr` if and only if every entry succeeded. Call `k` is to entry `k` with the caller's frame count, bus 0 and the entry's own buffers. On failure the returned status is that of the last entry called, and every entry before it succeeded. The method modifies nothing, so `execList` is unchanged. |

## Left out

- Host glue is not modelled: component registration and instantiation, bus arrays, `AVAudioFormat`, the parameter tree, channel capabilities, and allocating and deallocating render resources. None of it takes part in rendering.
- The `setSample` and `playSample` stubs are not modelled. Their bodies are empty.
- The `samples` note table, the `voices` pool and `SamplerVoice` are not modelled. Nothing reads or writes them, and no code allocates or steals voices.
- The `playheadPosition` field is not modelled. Nothing reads or writes it.
- Concurrency between the control thread and the audio thread is not modelled; every operation runs sequentially. This covers unsynchronised access to the playhead and the playing flag, and the planned lock-free update of `execList`.
- The action flags, time stamp and render events of a render call are not modelled. They are passed through or ignored.
- The engine's own output bus, buffer list and input block are not modelled. The executor does not use them.
- The side effects of each execution-list entry on its own buffers and state are not modelled. An entry's render block is modelled only by the status it returns for its arguments.
- `AVAudioFile.toFloatChannelData()` is not modelled. Decoding is an opaque function supplied at construction.
- Playback.Sampler.MovePlayhead: computes with exact rationals instead of 64-bit floating point. It does not model the rounding of `position * 44100`, or the trap when the product does not fit in an `Int`.
- Playback.SamplerAudioUnit.InternalRenderBlock: frame counts and the playhead are unbounded integers. It does not model the 32-bit `AUAudioFrameCount` or a 64-bit overflow of the playhead. Samples are exact values, not 32-bit floats.
- Setting the sample rate is not modelled. It is fixed at 44100 frames per second, as in the source.
- There is no `position` getter to pair with `movePlayhead`, so no seek-then-read round trip is stated.
- Playback.SecondsToFramesExact: holds only in exact arithmetic. The source computes `Int(position * 44100)` in `Double`, and there the product for `k / 44100` seconds can fall just below `k` and truncate to `k - 1`. For example, `15.0 / 44100.0 * 44100` is `14.999999999999998` in IEEE double arithmetic, which moves the playhead to frame 14, one frame early. This comes from truncating instead of rounding at Sampler.swift:142. The model does not capture it, because it does not model floating point.
- Playback.SamplerAudioUnit.InternalRenderBlock: its requires exclude the inputs on which the source fails. With at least one frame to render, the source traps on no decoded file, a first file with no channel, or a negative playhead (Sampler.swift:113-114). It traps on these even while stopped, for example after `Sampler(file:)` with a file that does not decode. The requires also exclude an output buffer shorter than `frameCount`. On such a buffer the source traps only in debug builds, at the `assert` at Sampler.swift:118. In optimized builds that assert is compiled out, and the write at Sampler.swift:119 goes past the buffer's end through an unsafe pointer, which is undefined behaviour. The model promises nothing for these inputs.
