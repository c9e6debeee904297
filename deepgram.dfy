/** The transcription client (`DeepgramClient`): two recognition sockets,
    one per speaker, fed with audio by `processAudio`, and the aggregator
    `handleTranscriptMessage` that keeps final, non-repeated transcripts in
    `transcriptBuffer`. Parsed recognition messages are inputs; the clock
    reading of `new Date()` is the integer millisecond `now`. */
module Deepgram {
  import opened Common
  import opened Pcm
  import opened JsString

  // ---------------------------------------------------------------
  // Transcript entries and recognition messages
  // ---------------------------------------------------------------

  /** A transcript entry as built by `handleTranscriptMessage`; `timestamp`
      is the ISO time of its creation, in milliseconds. */
  datatype Entry = Entry(speaker: string, text: string, timestamp: int, isFinal: bool, confidence: real)

  /** One alternative of `data.channel.alternatives`: `transcript` is None
      unless it is a string, `confidence` None when absent. */
  datatype Alternative = Alternative(transcript: Option<string>, confidence: Option<real>)

  /** A message from a recognition socket: text that `JSON.parse` rejects
      (or that makes the handler throw), or an object whose
      `channel.alternatives` (empty when missing) and the truthiness of
      `is_final` matter. */
  datatype RecognitionMessage =
    | Unparsable
    | Recognition(alternatives: seq<Alternative>, isFinal: bool)

  /** The entry a message yields, before the final/duplicate filter: only a
      first alternative whose transcript is not blank gives one. */
  function EntryOf(msg: RecognitionMessage, speakerLabel: string, now: int): Option<Entry> {
    if msg.Recognition? && |msg.alternatives| > 0 then
      var alternative := msg.alternatives[0];
      match alternative.transcript
      case Some(transcript) =>
        if transcript != "" && Trim(transcript) != "" then
          var confidence := match alternative.confidence
                            case Some(c) => c
                            case None => 0.0;
          Some(Entry(speakerLabel, transcript, now, msg.isFinal, confidence))
        else None
      case None => None
    else None
  }

  /** The entry-building step, stated by its inputs: an entry comes exactly
      from a first alternative with non-blank text, carries that text, the
      label and the time, and defaults `confidence` to 0. */
  lemma EntryOfSpec(msg: RecognitionMessage, speakerLabel: string, now: int)
    ensures EntryOf(msg, speakerLabel, now).Some? <==>
              && msg.Recognition? && |msg.alternatives| > 0
              && msg.alternatives[0].transcript.Some?
              && exists i :: 0 <= i < |msg.alternatives[0].transcript.value|
                             && !IsWhiteSpace(msg.alternatives[0].transcript.value[i])
    ensures EntryOf(msg, speakerLabel, now).Some? ==>
              var e := EntryOf(msg, speakerLabel, now).value;
              && e.speaker == speakerLabel && e.timestamp == now
              && e.text == msg.alternatives[0].transcript.value
              && e.isFinal == msg.isFinal
              && e.confidence == (if msg.alternatives[0].confidence.Some?
                                  then msg.alternatives[0].confidence.value else 0.0)
  {
    if msg.Recognition? && |msg.alternatives| > 0 && msg.alternatives[0].transcript.Some? {
      TrimEmptyIffBlank(msg.alternatives[0].transcript.value);
    }
  }

  function Abs(x: int): nat {
    if x < 0 then -x else x
  }

  /** Two entries are the same utterance: equal trimmed text, same speaker,
      created less than 2000 ms apart. */
  predicate SameUtterance(existing: Entry, e: Entry) {
    && Trim(existing.text) == Trim(e.text)
    && existing.speaker == e.speaker
    && Abs(existing.timestamp - e.timestamp) < 2000
  }

  /** The `transcriptBuffer.some(...)` test. */
  predicate IsDuplicate(buffer: seq<Entry>, e: Entry) {
    exists i :: 0 <= i < |buffer| && SameUtterance(buffer[i], e)
  }

  /** No two buffered entries are the same utterance. */
  predicate DuplicateFree(buffer: seq<Entry>) {
    forall i, j :: 0 <= i < j < |buffer| ==> !SameUtterance(buffer[i], buffer[j])
  }

  lemma SameUtteranceSymmetric(a: Entry, b: Entry)
    ensures SameUtterance(a, b) <==> SameUtterance(b, a)
  {
  }

  /** Appending an entry that is no duplicate keeps the buffer free of
      repeats, whichever order the pair is compared in. */
  lemma AppendKeepsDuplicateFree(buffer: seq<Entry>, e: Entry)
    requires DuplicateFree(buffer) && !IsDuplicate(buffer, e)
    ensures DuplicateFree(buffer + [e])
    ensures forall i :: 0 <= i < |buffer| ==> !SameUtterance(e, buffer[i])
  {
    var b := buffer + [e];
    forall i, j | 0 <= i < j < |b|
      ensures !SameUtterance(b[i], b[j])
    {
      if j == |buffer| {
        assert b[i] == buffer[i];
      }
    }
  }

  // ---------------------------------------------------------------
  // Audio routing
  // ---------------------------------------------------------------

  /** The argument of `processAudio`: an ArrayBuffer, an Int16Array, a
      Uint8Array, or anything else. */
  datatype AudioData =
    | RawBuffer(bytes: seq<byte>)
    | Int16Samples(samples: seq<int16>)
    | ByteView(bytes: seq<byte>)
    | Unsupported

  /** Every third sample: 48 kHz to 16 kHz by plain decimation. */
  function EveryThird<T>(s: seq<T>): (d: seq<T>)
    ensures |d| == |s| / 3
    ensures forall i :: 0 <= i < |d| ==> d[i] == s[3 * i]
  {
    if |s| < 3 then [] else [s[0]] + EveryThird(s[3..])
  }

  /** The bytes `resampleUserAudio` returns for a Uint8Array. */
  function Resampled(b: seq<byte>): seq<byte> {
    ToBytes(EveryThird(FromBytes(b)))
  }

  /** The buffer `processAudio` sends for `audioData`, None for an
      unsupported format: ArrayBuffers go as they are, Int16Array and
      assistant Uint8Array as a copy of their bytes, user Uint8Array
      resampled. */
  function Payload(audioData: AudioData, speaker: string): Option<seq<byte>> {
    match audioData
    case RawBuffer(b) => Some(b)
    case Int16Samples(s) => Some(ToBytes(s))
    case ByteView(b) => if speaker == "user" then Some(Resampled(b)) else Some(b)
    case Unsupported => None
  }

  /** `resampleUserAudio`: the bytes are read as little-endian Int16 samples
      (a trailing odd byte is ignored) and every third sample is kept. */
  method ResampleUserAudio(uint8Array: seq<byte>) returns (r: seq<byte>)
    ensures r == Resampled(uint8Array)
    ensures |FromBytes(r)| == |uint8Array| / 2 / 3
    ensures forall i :: 0 <= i < |FromBytes(r)| ==> FromBytes(r)[i] == FromBytes(uint8Array)[3 * i]
  {
    var int16Array := FromBytes(uint8Array);
    var downsampledLength := |int16Array| / 3;
    var downsampledArray := new int16[downsampledLength];
    for i := 0 to downsampledLength
      invariant forall j :: 0 <= j < i ==> downsampledArray[j] == int16Array[3 * j]
    {
      downsampledArray[i] := int16Array[i * 3];
    }
    assert downsampledArray[..] == EveryThird(int16Array);
    r := ToBytes(downsampledArray[..]);
    FromToBytes(downsampledArray[..]);
  }

  // ---------------------------------------------------------------
  // The client
  // ---------------------------------------------------------------

  /** What the token request of `connect` yields: a failure (network error
      or a non-ok response) or the `token` field of the body. */
  datatype TokenResponse = TokenFailed | TokenBody(token: Option<string>)

  class DeepgramClient {
    var userWebsocket: Option<Socket<seq<byte>>>
    var assistantWebsocket: Option<Socket<seq<byte>>>
    var isConnected: bool
    var transcriptBuffer: seq<Entry>
    var hasLoggedConnectionIssue: bool
    var deepgramToken: Option<string>

    /** The buffer holds only final entries with non-blank text, and no
        two of them are the same utterance. */
    ghost predicate Valid()
      reads this
    {
      && DuplicateFree(transcriptBuffer)
      && forall i :: 0 <= i < |transcriptBuffer| ==>
           transcriptBuffer[i].isFinal && Trim(transcriptBuffer[i].text) != ""
    }

    constructor ()
      ensures Valid()
      ensures userWebsocket == None && assistantWebsocket == None
      ensures !isConnected && transcriptBuffer == [] && !hasLoggedConnectionIssue
      ensures deepgramToken == None
    {
      userWebsocket := None;
      assistantWebsocket := None;
      isConnected := false;
      transcriptBuffer := [];
      hasLoggedConnectionIssue := false;
      deepgramToken := None;
    }

    /** `connect`: with a token, two fresh sockets are opened (their states
        once the wait for them ends are `userState` and `assistantState`).
        Whether or not anything succeeded, the client then reports itself
        connected ("demo mode"). */
    method Connect(response: TokenResponse, userState: ReadyState, assistantState: ReadyState)
      requires Valid()
      modifies this
      ensures Valid() && isConnected
      ensures response.TokenFailed? ==>
                && userWebsocket == old(userWebsocket) && assistantWebsocket == old(assistantWebsocket)
                && deepgramToken == old(deepgramToken)
      ensures response.TokenBody? ==>
                && userWebsocket == Some(Socket(userState, []))
                && assistantWebsocket == Some(Socket(assistantState, []))
                && deepgramToken == response.token
      ensures transcriptBuffer == old(transcriptBuffer)
      ensures hasLoggedConnectionIssue == old(hasLoggedConnectionIssue)
    {
      if response.TokenBody? {
        deepgramToken := response.token;
        userWebsocket := Some(Socket(userState, []));
        assistantWebsocket := Some(Socket(assistantState, []));
      }
      isConnected := true;
    }

    /** The network moves the socket that `processAudio` picks for
        `speaker` to `state`: a socket that opened after the wait gave up,
        or one closed mid-call. A CLOSED socket stays closed. Its handlers
        only log. */
    method SocketStateChanged(speaker: string, state: ReadyState)
      requires Valid()
      requires if speaker == "user" then userWebsocket.Some? && userWebsocket.value.readyState != Closed
               else assistantWebsocket.Some? && assistantWebsocket.value.readyState != Closed
      modifies this
      ensures Valid()
      ensures speaker == "user" ==>
                && userWebsocket == Some(Socket(state, old(userWebsocket).value.sent))
                && assistantWebsocket == old(assistantWebsocket)
      ensures speaker != "user" ==>
                && assistantWebsocket == Some(Socket(state, old(assistantWebsocket).value.sent))
                && userWebsocket == old(userWebsocket)
      ensures transcriptBuffer == old(transcriptBuffer) && isConnected == old(isConnected)
      ensures hasLoggedConnectionIssue == old(hasLoggedConnectionIssue) && deepgramToken == old(deepgramToken)
    {
      if speaker == "user" {
        userWebsocket := Some(Socket(state, userWebsocket.value.sent));
      } else {
        assistantWebsocket := Some(Socket(state, assistantWebsocket.value.sent));
      }
    }

    /** `handleTranscriptMessage`: a final, non-blank transcript that is no
        duplicate of a buffered one is appended and handed to
        `onTranscript` (the returned `emitted`); anything else changes
        nothing. */
    method HandleTranscriptMessage(msg: RecognitionMessage, speakerLabel: string, now: int)
      returns (emitted: Option<Entry>)
      requires Valid()
      modifies this
      ensures Valid()
      ensures var e := EntryOf(msg, speakerLabel, now);
              if e.Some? && e.value.isFinal && !IsDuplicate(old(transcriptBuffer), e.value)
              then emitted == e && transcriptBuffer == old(transcriptBuffer) + [e.value]
              else emitted == None && transcriptBuffer == old(transcriptBuffer)
      ensures userWebsocket == old(userWebsocket) && assistantWebsocket == old(assistantWebsocket)
      ensures isConnected == old(isConnected) && deepgramToken == old(deepgramToken)
      ensures hasLoggedConnectionIssue == old(hasLoggedConnectionIssue)
    {
      emitted := None;
      var entry := EntryOf(msg, speakerLabel, now);
      if entry.Some? && entry.value.isFinal {
        var e := entry.value;
        var isDuplicate := exists i :: 0 <= i < |transcriptBuffer| && SameUtterance(transcriptBuffer[i], e);
        if !isDuplicate {
          EntryOfSpec(msg, speakerLabel, now);
          TrimEmptyIffBlank(e.text);
          AppendKeepsDuplicateFree(transcriptBuffer, e);
          transcriptBuffer := transcriptBuffer + [e];
          emitted := Some(e);
        }
      }
    }

    /** The effect of one `processAudio(audioData, speaker)` call on the
        sockets and the log-once flag. */
    twostate predicate AudioProcessed(audioData: AudioData, speaker: string)
      reads this
    {
      var toUser := speaker == "user";
      var target := if toUser then old(userWebsocket) else old(assistantWebsocket);
      var payload := Payload(audioData, speaker);
      && (if IsOpenSocket(target) && payload.Some? then
            && userWebsocket == (if toUser then Some(target.value.Send(payload.value)) else old(userWebsocket))
            && assistantWebsocket == (if toUser then old(assistantWebsocket) else Some(target.value.Send(payload.value)))
          else
            userWebsocket == old(userWebsocket) && assistantWebsocket == old(assistantWebsocket))
      && hasLoggedConnectionIssue == (old(hasLoggedConnectionIssue) || !IsOpenSocket(target))
      && transcriptBuffer == old(transcriptBuffer) && isConnected == old(isConnected)
      && deepgramToken == old(deepgramToken)
    }

    /** `processAudio`: the audio goes to the user socket iff `speaker` is
        "user", otherwise to the assistant socket, and only when that socket
        is OPEN and the format is supported. A closed or missing target
        sets the log-once flag, which never clears. */
    method ProcessAudio(audioData: AudioData, speaker: string)
      requires Valid()
      modifies this
      ensures Valid()
      ensures AudioProcessed(audioData, speaker)
    {
      var targetWebsocket := if speaker == "user" then userWebsocket else assistantWebsocket;
      if targetWebsocket.Some? && targetWebsocket.value.readyState == Open {
        var audioBuffer: seq<byte>;
        match audioData {
          case RawBuffer(b) =>
            audioBuffer := b;
          case Int16Samples(s) =>
            audioBuffer := ToBytes(s);
          case ByteView(b) =>
            if speaker == "user" {
              audioBuffer := ResampleUserAudio(b);
            } else {
              audioBuffer := b;
            }
          case Unsupported =>
            return;
        }
        var sent := targetWebsocket.value.Send(audioBuffer);
        if speaker == "user" {
          userWebsocket := Some(sent);
        } else {
          assistantWebsocket := Some(sent);
        }
      } else {
        if !hasLoggedConnectionIssue {
          hasLoggedConnectionIssue := true;
        }
      }
    }

    /** `getFullTranscript`: the buffered entries, oldest first. */
    method GetFullTranscript() returns (t: seq<Entry>)
      requires Valid()
      ensures t == transcriptBuffer
      ensures DuplicateFree(t)
      ensures forall i :: 0 <= i < |t| ==> t[i].isFinal && Trim(t[i].text) != ""
    {
      t := transcriptBuffer;
    }

    /** `clearTranscript`. */
    method ClearTranscript()
      requires Valid()
      modifies this
      ensures Valid() && transcriptBuffer == []
      ensures userWebsocket == old(userWebsocket) && assistantWebsocket == old(assistantWebsocket)
      ensures isConnected == old(isConnected) && deepgramToken == old(deepgramToken)
      ensures hasLoggedConnectionIssue == old(hasLoggedConnectionIssue)
    {
      transcriptBuffer := [];
    }

    /** `disconnect`: each present socket is closed and dropped (the closed
        sockets are returned, None for an absent one); the client is left
        disconnected with no token. A second call finds nothing to close
        and changes nothing. */
    method Disconnect() returns (closedUser: Option<Socket<seq<byte>>>, closedAssistant: Option<Socket<seq<byte>>>)
      requires Valid()
      modifies this
      ensures Valid()
      ensures userWebsocket == None && assistantWebsocket == None
      ensures !isConnected && deepgramToken == None
      ensures closedUser == (if old(userWebsocket).Some? then Some(old(userWebsocket).value.Close()) else None)
      ensures closedAssistant == (if old(assistantWebsocket).Some? then Some(old(assistantWebsocket).value.Close()) else None)
      ensures transcriptBuffer == old(transcriptBuffer)
      ensures hasLoggedConnectionIssue == old(hasLoggedConnectionIssue)
    {
      closedUser, closedAssistant := None, None;
      if userWebsocket.Some? {
        closedUser := Some(userWebsocket.value.Close());
        userWebsocket := None;
      }
      if assistantWebsocket.Some? {
        closedAssistant := Some(assistantWebsocket.value.Close());
        assistantWebsocket := None;
      }
      isConnected := false;
      deepgramToken := None;
    }
  }
}
