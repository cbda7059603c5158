/** The single-file sample player: an audio unit that plays the first
    channel of its first decoded file into every output buffer, and the
    `Sampler` node that drives its transport. */
module Playback {
  import opened CoreAudio

  /** Decoded file contents: channels, each a sequence of frames. */
  type FloatChannelData = seq<seq<Sample>>

  /** An audio file on disk, known by its location. */
  datatype AudioFile = AudioFile(url: string)

  /** The fixed sample rate used to turn seconds into frames. */
  const SampleRate: int := 44100

  // ---------------------------------------------------------------------
  // Decoding the file list

  /** The decoded data of `files`, in file order, skipping every file the
      decoder cannot convert. */
  function DecodedFiles(files: seq<AudioFile>, decode: AudioFile -> Option<FloatChannelData>): (datas: seq<FloatChannelData>)
    ensures |datas| <= |files|
  {
    if files == [] then []
    else
      var head := match decode(files[0]) case Some(d) => [d] case None => [];
      head + DecodedFiles(files[1..], decode)
  }

  /** Decoding a concatenation decodes each part in turn: the decoded list
      keeps the order of the files. */
  lemma {:induction false} DecodedFilesAppend(a: seq<AudioFile>, b: seq<AudioFile>, decode: AudioFile -> Option<FloatChannelData>)
    ensures DecodedFiles(a + b, decode) == DecodedFiles(a, decode) + DecodedFiles(b, decode)
  {
    if a != [] {
      assert (a + b)[1..] == a[1..] + b;
      DecodedFilesAppend(a[1..], b, decode);
    } else {
      assert a + b == b;
    }
  }

  /** A data block is in the decoded list exactly when some file decodes
      to it. */
  lemma {:induction false} DecodedFilesMembership(files: seq<AudioFile>, decode: AudioFile -> Option<FloatChannelData>, d: FloatChannelData)
    ensures d in DecodedFiles(files, decode) <==> exists i :: 0 <= i < |files| && decode(files[i]) == Some(d)
  {
    if files != [] {
      DecodedFilesMembership(files[1..], decode, d);
      if exists i :: 0 <= i < |files| && decode(files[i]) == Some(d) {
        var i :| 0 <= i < |files| && decode(files[i]) == Some(d);
        if i > 0 {
          assert files[1..][i - 1] == files[i];
        }
      }
      if exists i :: 0 <= i < |files[1..]| && decode(files[1..][i]) == Some(d) {
        var i :| 0 <= i < |files[1..]| && decode(files[1..][i]) == Some(d);
        assert files[i + 1] == files[1..][i];
      }
    }
  }

  /** When every file decodes, the decoded list has one entry per file, in
      the same order. */
  lemma {:induction false} DecodedFilesAllConvert(files: seq<AudioFile>, decode: AudioFile -> Option<FloatChannelData>)
    requires forall i :: 0 <= i < |files| ==> decode(files[i]).Some?
    ensures |DecodedFiles(files, decode)| == |files|
    ensures forall i :: 0 <= i < |files| ==> Some(DecodedFiles(files, decode)[i]) == decode(files[i])
  {
    if files != [] {
      assert forall i :: 0 <= i < |files[1..]| ==> files[1..][i] == files[i + 1];
      DecodedFilesAllConvert(files[1..], decode);
    }
  }

  /** The first decoded entry comes from the first file that decodes:
      every file before it fails to convert. */
  lemma {:induction false} DecodedFilesFirst(files: seq<AudioFile>, decode: AudioFile -> Option<FloatChannelData>)
    requires DecodedFiles(files, decode) != []
    ensures exists i :: 0 <= i < |files| && decode(files[i]) == Some(DecodedFiles(files, decode)[0])
              && forall j :: 0 <= j < i ==> decode(files[j]).None?
  {
    var datas := DecodedFiles(files, decode);
    if decode(files[0]).Some? {
      assert decode(files[0]) == Some(datas[0]);
    } else {
      assert DecodedFiles(files, decode) == DecodedFiles(files[1..], decode);
      DecodedFilesFirst(files[1..], decode);
      var i :| 0 <= i < |files[1..]| && decode(files[1..][i]) == Some(datas[0])
                && forall j :: 0 <= j < i ==> decode(files[1..][j]).None?;
      forall j | 0 <= j < i + 1
        ensures decode(files[j]).None?
      {
        if j > 0 {
          assert files[j] == files[1..][j - 1];
        }
      }
      assert files[i + 1] == files[1..][i];
    }
  }

  // ---------------------------------------------------------------------
  // What the render block writes

  /** The sample at `index` of `source`, or silence past its end. */
  function ZeroPadded(source: seq<Sample>, index: int): Sample
  {
    if 0 <= index < |source| then source[index] else Silence
  }

  /** The `frameCount` frames one render call writes into each output
      buffer, starting at `playhead` in `source`: the zero-padded source
      while playing, silence while stopped. */
  function RenderFrames(source: seq<Sample>, playhead: nat, frameCount: nat, playing: bool): (out: seq<Sample>)
  {
    seq(frameCount, f => if playing then ZeroPadded(source, playhead + f) else Silence)
  }

  /** Two consecutive render calls while playing, the second starting where
      the first left the playhead, write what one render call of their
      combined length writes. */
  lemma RenderFramesConsecutive(source: seq<Sample>, playhead: nat, first: nat, second: nat)
    ensures RenderFrames(source, playhead, first, true) + RenderFrames(source, playhead + first, second, true)
            == RenderFrames(source, playhead, first + second, true)
  {
  }

  /** A block that lies wholly inside the source is copied exactly. */
  lemma RenderFramesCopiesSource(source: seq<Sample>, playhead: nat, frameCount: nat)
    requires playhead + frameCount <= |source|
    ensures RenderFrames(source, playhead, frameCount, true) == source[playhead..playhead + frameCount]
  {
    forall f | 0 <= f < frameCount
      ensures RenderFrames(source, playhead, frameCount, true)[f] == source[playhead..playhead + frameCount][f]
    {
      assert RenderFrames(source, playhead, frameCount, true)[f] == ZeroPadded(source, playhead + f);
    }
  }

  /** A block that starts at or past the end of the source is silent. */
  lemma RenderFramesPastEnd(source: seq<Sample>, playhead: nat, frameCount: nat, playing: bool)
    requires |source| <= playhead
    ensures RenderFrames(source, playhead, frameCount, playing) == seq(frameCount, f => Silence)
  {
    forall f | 0 <= f < frameCount
      ensures RenderFrames(source, playhead, frameCount, playing)[f] == Silence
    {
      assert playing ==> RenderFrames(source, playhead, frameCount, playing)[f] == ZeroPadded(source, playhead + f);
    }
  }

  /** Rendering four frames from the last frame of the source gives that
      frame and then three frames of silence. */
  lemma LastFrameThenSilence(source: seq<Sample>)
    requires |source| > 0
    ensures RenderFrames(source, |source| - 1, 4, true) == [source[|source| - 1], Silence, Silence, Silence]
  {
    var out := RenderFrames(source, |source| - 1, 4, true);
    forall k | 0 <= k < 4
      ensures out[k] == ZeroPadded(source, |source| - 1 + k)
    {
    }
  }

  // ---------------------------------------------------------------------
  // Seconds to frames

  /** Conversion of a real to an integer rounding toward zero, as an
      integer initialised from a floating-point value does. */
  function TruncateTowardZero(x: real): (n: int)
    ensures 0.0 <= x ==> n as real <= x < n as real + 1.0
    ensures x < 0.0 ==> n as real - 1.0 < x <= n as real
  {
    if 0.0 <= x then x.Floor else -((-x).Floor)
  }

  /** The playhead position, in frames, for a position in seconds. */
  function SecondsToFrames(position: real): int
  {
    TruncateTowardZero(position * SampleRate as real)
  }

  /** A position that is a whole number of frames converts back to exactly
      that frame. */
  lemma SecondsToFramesExact(frames: int)
    ensures SecondsToFrames(frames as real / SampleRate as real) == frames
  {
  }

  // ---------------------------------------------------------------------
  // The audio unit

  /** Renders the contents of a file. */
  class SamplerAudioUnit {
    /** The decoder that turns a file into channel data, or fails. */
    const toFloatChannelData: AudioFile -> Option<FloatChannelData>

    var floatChannelDatas: seq<FloatChannelData>
    var files: seq<AudioFile>
    var playheadInSamples: int
    var isPlaying: bool

    /** The decoded data always reflects the current file list. */
    ghost predicate Valid()
      reads this`files, this`floatChannelDatas
    {
      floatChannelDatas == DecodedFiles(files, toFloatChannelData)
    }

    /** Whether a render call of `frameCount` frames stays inside the
        source: reading starts at a non-negative playhead, and the first
        file exists and has a channel. With no frames nothing is read. */
    predicate CanRender(frameCount: nat)
      reads this`floatChannelDatas, this`playheadInSamples
    {
      frameCount > 0 ==>
        0 <= playheadInSamples && |floatChannelDatas| > 0 && |floatChannelDatas[0]| > 0
    }

    /** The sample data played: the first channel of the first file. */
    function Source(): seq<Sample>
      reads this`floatChannelDatas
      requires |floatChannelDatas| > 0 && |floatChannelDatas[0]| > 0
    {
      floatChannelDatas[0][0]
    }

    /** While the decoded data reflects the file list, the sample data
        played is the first channel of the first file that converts; every
        earlier file failed to convert. */
    lemma SourceIsFirstDecodedFile()
      requires Valid()
      requires |floatChannelDatas| > 0 && |floatChannelDatas[0]| > 0
      ensures exists i :: 0 <= i < |files| && toFloatChannelData(files[i]).Some?
                && |toFloatChannelData(files[i]).value| > 0
                && Source() == toFloatChannelData(files[i]).value[0]
                && forall j :: 0 <= j < i ==> toFloatChannelData(files[j]).None?
    {
      DecodedFilesFirst(files, toFloatChannelData);
    }

    constructor (toFloatChannelData: AudioFile -> Option<FloatChannelData>)
      ensures Valid()
      ensures this.toFloatChannelData == toFloatChannelData
      ensures files == [] && floatChannelDatas == []
      ensures playheadInSamples == 0 && !isPlaying
    {
      this.toFloatChannelData := toFloatChannelData;
      floatChannelDatas := [];
      files := [];
      playheadInSamples := 0;
      isPlaying := false;
    }

    /** Assigning the file list: the decoded data is rebuilt from scratch,
        keeping, in order, every file that converts. */
    method SetFiles(newFiles: seq<AudioFile>)
      modifies this`files, this`floatChannelDatas
      ensures Valid()
      ensures files == newFiles
      ensures floatChannelDatas == DecodedFiles(newFiles, toFloatChannelData)
    {
      files := newFiles;
      floatChannelDatas := [];
      var i := 0;
      while i < |files|
        invariant files == newFiles
        invariant 0 <= i <= |files|
        invariant floatChannelDatas == DecodedFiles(files[..i], toFloatChannelData)
      {
        var file := files[i];
        assert files[..i + 1] == files[..i] + [file];
        DecodedFilesAppend(files[..i], [file], toFloatChannelData);
        match toFloatChannelData(file) {
          case Some(data) =>
            floatChannelDatas := floatChannelDatas + [data];
          case None =>
        }
        i := i + 1;
      }
      assert files[..i] == files;
    }

    /** The render block. Every buffer in `outputBufferList` gets the same
        frames; frames past `frameCount` are left alone; the playhead moves
        on by `frameCount` only while playing. */
    method InternalRenderBlock(frameCount: nat, outputBufferList: seq<array<Sample>>) returns (status: OSStatus)
      requires CanRender(frameCount)
      requires forall buf :: buf in outputBufferList ==> frameCount <= buf.Length
      modifies this`playheadInSamples, outputBufferList
      ensures status == NoErr
      ensures frameCount > 0 ==>
        forall buf :: buf in outputBufferList ==>
          buf[..frameCount] == RenderFrames(Source(), old(playheadInSamples), frameCount, isPlaying)
      ensures forall buf :: buf in outputBufferList ==> buf[frameCount..] == old(buf[frameCount..])
      ensures playheadInSamples == old(playheadInSamples) + if isPlaying then frameCount else 0
    {
      var frame := 0;
      while frame < frameCount
        invariant 0 <= frame <= frameCount
        invariant playheadInSamples == old(playheadInSamples)
        invariant forall i, f :: 0 <= i < |outputBufferList| && 0 <= f < frame ==>
          outputBufferList[i][f] == RenderFrames(Source(), playheadInSamples, frameCount, isPlaying)[f]
        invariant forall i, f :: 0 <= i < |outputBufferList| && frame <= f < outputBufferList[i].Length ==>
          outputBufferList[i][f] == old(outputBufferList[i][f])
      {
        var value := Silence;
        var sample := playheadInSamples + frame;
        if sample < |floatChannelDatas[0][0]| {
          value := floatChannelDatas[0][0][sample];
        }
        var written := if isPlaying then value else Silence;
        assert isPlaying ==> written == ZeroPadded(Source(), playheadInSamples + frame);
        assert written == RenderFrames(Source(), playheadInSamples, frameCount, isPlaying)[frame];
        var b := 0;
        while b < |outputBufferList|
          invariant 0 <= b <= |outputBufferList|
          invariant playheadInSamples == old(playheadInSamples)
          invariant forall i :: 0 <= i < b ==> outputBufferList[i][frame] == written
          invariant forall i, f :: 0 <= i < |outputBufferList| && 0 <= f < frame ==>
            outputBufferList[i][f] == RenderFrames(Source(), playheadInSamples, frameCount, isPlaying)[f]
          invariant forall i, f :: 0 <= i < |outputBufferList| && frame < f < outputBufferList[i].Length ==>
            outputBufferList[i][f] == old(outputBufferList[i][f])
        {
          var buf := outputBufferList[b];
          buf[frame] := written;
          b := b + 1;
        }
        frame := frame + 1;
      }
      if isPlaying {
        playheadInSamples := playheadInSamples + frameCount;
      }
      return NoErr;
    }
  }

  // ---------------------------------------------------------------------
  // The node

  /** The node that owns a `SamplerAudioUnit` and moves its transport. */
  class Sampler {
    const samplerAU: SamplerAudioUnit

    /** A node for one file: its unit starts stopped at frame zero with
        that file as its only file. */
    constructor (file: AudioFile, toFloatChannelData: AudioFile -> Option<FloatChannelData>)
      ensures fresh(samplerAU)
      ensures samplerAU.Valid()
      ensures samplerAU.toFloatChannelData == toFloatChannelData
      ensures samplerAU.files == [file]
      ensures samplerAU.floatChannelDatas == DecodedFiles([file], toFloatChannelData)
      ensures samplerAU.playheadInSamples == 0 && !samplerAU.isPlaying
    {
      var au := new SamplerAudioUnit(toFloatChannelData);
      au.SetFiles(au.files + [file]);
      samplerAU := au;
    }

    /** Move the playhead to `position` seconds, truncated to a frame. */
    method MovePlayhead(position: real)
      modifies samplerAU`playheadInSamples
      ensures samplerAU.playheadInSamples == SecondsToFrames(position)
      ensures samplerAU.isPlaying == old(samplerAU.isPlaying)
    {
      samplerAU.playheadInSamples := TruncateTowardZero(position * SampleRate as real);
    }

    /** Move the playhead back to the start; playing or stopped is kept. */
    method Rewind()
      modifies samplerAU`playheadInSamples
      ensures samplerAU.playheadInSamples == 0
      ensures samplerAU.isPlaying == old(samplerAU.isPlaying)
    {
      MovePlayhead(0.0);
    }

    /** Start playing from the current playhead. */
    method Play()
      modifies samplerAU`isPlaying
      ensures samplerAU.isPlaying
      ensures samplerAU.playheadInSamples == old(samplerAU.playheadInSamples)
    {
      samplerAU.isPlaying := true;
    }

    /** Stop playing, keeping the playhead where it is; stopping again
        changes nothing. */
    method Stop()
      modifies samplerAU`isPlaying
      ensures !samplerAU.isPlaying
      ensures samplerAU.playheadInSamples == old(samplerAU.playheadInSamples)
    {
      samplerAU.isPlaying := false;
    }
  }
}
