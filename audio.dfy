/** The browser's audio utilities: the chunk accumulator `AudioStreamBuffer`,
    the float-to-int16 conversion and the two control objects handed out by
    `startRecording` (with its once-only `onRecordingStarted` latch) and by
    `startAudioOut`. The Web Audio graph itself is not modelled: a recorder
    is driven by explicit `OnAudioProcess` events and the playback node is a
    log of the chunks posted to it. */
module Audio {
  import opened Common
  import opened Pcm

  // ---------------------------------------------------------------
  // AudioStreamBuffer
  // ---------------------------------------------------------------

  /** `chunks.reduce((acc, chunk) => acc + chunk.length, 0)`: a left fold,
      so the last chunk is added last. */
  function TotalLength<T>(chunks: seq<seq<T>>): nat {
    if chunks == [] then 0 else TotalLength(chunks[..|chunks| - 1]) + |chunks[|chunks| - 1]|
  }

  /** The fold counts exactly the samples of the concatenated chunks. */
  lemma {:induction false} TotalLengthIsConcatLength<T>(chunks: seq<seq<T>>)
    ensures TotalLength(chunks) == |Concat(chunks)|
  {
    if chunks != [] {
      var front, last := chunks[..|chunks| - 1], chunks[|chunks| - 1];
      assert chunks == front + [last];
      ConcatAppend(front, last);
      TotalLengthIsConcatLength(front);
    }
  }

  /** `a.set(src, offset)` of a typed array: `src` is copied in at
      `offset`; the elements before and after keep their values. */
  method TypedArraySet<T>(a: array<T>, src: seq<T>, offset: nat)
    requires offset + |src| <= a.Length
    modifies a
    ensures a[..offset] == old(a[..offset])
    ensures a[offset..offset + |src|] == src
    ensures a[offset + |src|..] == old(a[offset + |src|..])
  {
    for j := 0 to |src|
      invariant a[..offset] == old(a[..offset])
      invariant forall m :: 0 <= m < j ==> a[offset + m] == src[m]
      invariant a[offset + |src|..] == old(a[offset + |src|..])
    {
      a[offset + j] := src[j];
    }
  }

  /** The stream buffer of the agent session: received Int16 chunks in
      arrival order. */
  class AudioStreamBuffer {
    var chunks: seq<seq<int16>>
    /** Synthflow sends 16 kHz audio. */
    const sampleRate: nat

    constructor ()
      ensures chunks == [] && sampleRate == 16000
    {
      chunks := [];
      sampleRate := 16000;
    }

    /** `addChunk`: the chunk goes at the end; earlier chunks are kept. */
    method AddChunk(audioData: seq<int16>)
      modifies this
      ensures chunks == old(chunks) + [audioData]
    {
      chunks := chunks + [audioData];
    }

    /** `getCompleteAudio`: null without chunks, otherwise one array of
        `TotalLength` samples holding every chunk in order. The chunks
        themselves are not touched. */
    method GetCompleteAudio() returns (r: Option<seq<int16>>)
      ensures r.None? <==> chunks == []
      ensures r.Some? ==> |r.value| == TotalLength(chunks) && r.value == Concat(chunks)
    {
      if |chunks| == 0 {
        return None;
      }
      var totalLength := TotalLength(chunks);
      TotalLengthIsConcatLength(chunks);
      var combined := new int16[totalLength];
      var offset := 0;
      for k := 0 to |chunks|
        invariant offset == |Concat(chunks[..k])| <= totalLength
        invariant combined[..offset] == Concat(chunks[..k])
      {
        var chunk := chunks[k];
        assert chunks[..k + 1] == chunks[..k] + [chunk];
        ConcatAppend(chunks[..k], chunk);
        ConcatSplit(chunks, k + 1);
        TypedArraySet(combined, chunk, offset);
        assert combined[..offset + |chunk|] == combined[..offset] + combined[offset..offset + |chunk|];
        offset := offset + |chunk|;
      }
      assert chunks[..|chunks|] == chunks;
      return Some(combined[..]);
    }

    /** `clear`: no chunks remain, so the next `getCompleteAudio` is null. */
    method Clear()
      modifies this
      ensures chunks == []
    {
      chunks := [];
    }
  }

  // ---------------------------------------------------------------
  // float32ToInt16
  // ---------------------------------------------------------------

  /** Every sample converted by `FloatToInt16`, in order. */
  function Quantise(fs: seq<real>): (s: seq<int16>)
    ensures |s| == |fs|
    ensures forall i :: 0 <= i < |fs| ==> s[i] == FloatToInt16(fs[i])
  {
    if fs == [] then [] else [FloatToInt16(fs[0])] + Quantise(fs[1..])
  }

  /** `float32ToInt16`: a fresh Int16Array filled sample by sample. */
  method Float32ToInt16(float32Array: seq<real>) returns (int16Array: seq<int16>)
    ensures int16Array == Quantise(float32Array)
  {
    var a := new int16[|float32Array|];
    for i := 0 to |float32Array|
      invariant forall j :: 0 <= j < i ==> a[j] == FloatToInt16(float32Array[j])
    {
      a[i] := FloatToInt16(float32Array[i]);
    }
    int16Array := a[..];
  }

  /** Every sample in [-1, 1] survives a recording/playback round trip up
      to one quantisation step. */
  lemma QuantiseRoundTrip(fs: seq<real>, i: nat)
    requires i < |fs| && -1.0 <= fs[i] <= 1.0
    ensures -1.0 / 32767.0 < Int16ToFloat(Quantise(fs)[i]) - fs[i] < 1.0 / 32767.0
  {
    QuantisationError(fs[i]);
  }

  // ---------------------------------------------------------------
  // startRecording
  // ---------------------------------------------------------------

  /** The callbacks a recorder makes, in order. */
  datatype RecorderEvent = RecordingStarted | AudioChunk(bytes: seq<byte>)

  /** The byte buffer handed to `onAudioChunk` for one processing frame:
      `new Uint8Array(float32ToInt16(floatData).buffer)`. */
  function ChunkBytes(floatData: seq<real>): (b: seq<byte>)
    ensures |b| == 2 * |floatData|
    ensures FromBytes(b) == Quantise(floatData)
  {
    FromToBytes(Quantise(floatData));
    ToBytes(Quantise(floatData))
  }

  /** The callbacks made by `onaudioprocess` over the frames `frames`, one
      event at a time: the latch fires `onRecordingStarted` on the first
      frame only, then every frame delivers its chunk. */
  function RecorderEvents(frames: seq<seq<real>>): seq<RecorderEvent> {
    if frames == [] then []
    else
      var front := frames[..|frames| - 1];
      RecorderEvents(front)
        + (if front == [] then [RecordingStarted] else [])
        + [AudioChunk(ChunkBytes(frames[|frames| - 1]))]
  }

  /** `onRecordingStarted` fires exactly once, before the first chunk, and
      chunk `i` is frame `i`. */
  lemma {:induction false} RecorderEventsShape(frames: seq<seq<real>>)
    ensures var e := RecorderEvents(frames);
            && |e| == (if frames == [] then 0 else |frames| + 1)
            && (frames != [] ==> e[0] == RecordingStarted)
            && (forall i :: 0 <= i < |frames| ==> e[i + 1] == AudioChunk(ChunkBytes(frames[i])))
  {
    if frames != [] {
      var front := frames[..|frames| - 1];
      RecorderEventsShape(front);
      var e := RecorderEvents(frames);
      forall i | 0 <= i < |frames|
        ensures e[i + 1] == AudioChunk(ChunkBytes(frames[i]))
      {
        if i < |front| {
          assert frames[i] == front[i];
        }
      }
    }
  }

  /** The control object of `startRecording` together with the closure
      state of its `onaudioprocess` handler. */
  class Recorder {
    var hasRecordingStarted: bool
    /** The handler is still attached (`stop` detaches it). */
    var processing: bool
    /** The frames delivered by the script processor so far. */
    ghost var frames: seq<seq<real>>
    /** The callbacks made so far, oldest first. */
    var events: seq<RecorderEvent>
    /** How many times `stop` was called. */
    var stopCalls: nat

    ghost predicate Valid()
      reads this
    {
      && events == RecorderEvents(frames)
      && (hasRecordingStarted <==> frames != [])
    }

    constructor ()
      ensures Valid() && processing && !hasRecordingStarted
      ensures frames == [] && events == [] && stopCalls == 0
    {
      hasRecordingStarted := false;
      processing := true;
      frames := [];
      events := [];
      stopCalls := 0;
    }

    /** `onaudioprocess` with the frame `floatData`. */
    method OnAudioProcess(floatData: seq<real>)
      requires Valid() && processing
      modifies this
      ensures Valid() && hasRecordingStarted && processing
      ensures frames == old(frames) + [floatData]
      ensures events == old(events)
                        + (if old(hasRecordingStarted) then [] else [RecordingStarted])
                        + [AudioChunk(ChunkBytes(floatData))]
      ensures stopCalls == old(stopCalls)
    {
      assert (frames + [floatData])[..|frames|] == frames;
      if !hasRecordingStarted {
        hasRecordingStarted := true;
        events := events + [RecordingStarted];
      }
      var int16Data := Float32ToInt16(floatData);
      events := events + [AudioChunk(ToBytes(int16Data))];
      frames := frames + [floatData];
    }

    /** `stop`: the handler is detached; the callbacks made stay made. */
    method Stop()
      modifies this
      ensures !processing && stopCalls == old(stopCalls) + 1
      ensures hasRecordingStarted == old(hasRecordingStarted)
      ensures frames == old(frames) && events == old(events)
    {
      processing := false;
      stopCalls := stopCalls + 1;
    }
  }

  // ---------------------------------------------------------------
  // startAudioOut
  // ---------------------------------------------------------------

  /** The control object of `startAudioOut`: the chunks posted to the
      playback worklet, oldest first. */
  class AudioOut {
    var posted: seq<seq<int16>>
    var stopCalls: nat

    constructor ()
      ensures posted == [] && stopCalls == 0
    {
      posted := [];
      stopCalls := 0;
    }

    /** `enqueueAudioChunk`: the chunk is posted to the worklet. */
    method EnqueueAudioChunk(chunk: seq<int16>)
      modifies this
      ensures posted == old(posted) + [chunk] && stopCalls == old(stopCalls)
    {
      posted := posted + [chunk];
    }

    /** `stop`: the audio graph is torn down. */
    method Stop()
      modifies this
      ensures posted == old(posted) && stopCalls == old(stopCalls) + 1
    {
      stopCalls := stopCalls + 1;
    }
  }
}
