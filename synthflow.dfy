/** The agent session (`SynthflowClient`): one socket to the voice agent,
    the playback and recording controls, and the handlers that fan agent
    audio out to playback, the stream buffer, the downstream relay and the
    transcription client. `onStatusUpdate` calls are kept as the log
    `statusUpdates`; the global `window.deepgramClient` and
    `window.downstreamConnection` are the nullable parameters `dg` and
    `ds`; a pending 50 ms retry of `sendWhenReady` is an entry of
    `retryQueue`, fired by `RetryTimerFired`. */
module Synthflow {
  import opened Common
  import opened Pcm
  import opened Audio
  import opened Deepgram
  import opened Downstream

  const MessageTypeStatusAgentReady := "status_agent_ready"
  const MessageTypeStatusClientReady := "status_client_ready"

  /** `JSON.stringify({ type: MESSAGE_TYPE_STATUS_CLIENT_READY })`. */
  const ClientReadyMessage := "{\"type\":\"" + MessageTypeStatusClientReady + "\"}"

  /** One `onStatusUpdate(status, message)` call. */
  datatype StatusUpdate = StatusUpdate(status: string, message: string)

  /** What the client sends on the agent socket: recorded audio bytes or
      the text of a control message. */
  datatype AgentOutbound = AudioBytes(bytes: seq<byte>) | ControlText(text: string)

  /** A frame received from the agent: an ArrayBuffer, or text whose
      `type` field is `messageType` (None when the text is not JSON or has
      no string `type`). */
  datatype AgentFrame = Binary(bytes: seq<byte>) | Text(messageType: Option<string>)

  /** What one `sendWhenReady` call does: nothing on a CLOSED socket, one
      send on an OPEN one, a 50 ms retry otherwise; with no socket at all
      reading `readyState` throws. */
  datatype SendOutcome = Dropped | Sent | Rescheduled | Raised

  /** What the session-token `fetch` yields. */
  datatype FetchOutcome = FetchFailed | NotOk | SessionBody(sessionURL: Option<string>)

  datatype Result<T> = Success(value: T) | Failure(error: string)

  /** `getSessionToken`: a non-ok response throws, an ok one yields the
      body's `sessionURL`, whatever it is. */
  function GetSessionToken(fetch: FetchOutcome): (r: Result<Option<string>>)
    ensures r.Failure? <==> !fetch.SessionBody?
    ensures fetch.NotOk? ==> r == Failure("Failed to get session token")
    ensures fetch.SessionBody? ==> r == Success(fetch.sessionURL)
  {
    match fetch
    case FetchFailed => Failure("fetch failed")
    case NotOk => Failure("Failed to get session token")
    case SessionBody(url) => Success(url)
  }

  class SynthflowClient {
    var websocket: Option<Socket<AgentOutbound>>
    var audioOutControls: AudioOut?
    var recordingControls: Recorder?
    var sessionActive: bool
    const audioBuffer: AudioStreamBuffer
    /** The `onStatusUpdate` calls, oldest first. */
    var statusUpdates: seq<StatusUpdate>
    /** Messages waiting for a `sendWhenReady` retry, in timer order. */
    var retryQueue: seq<string>
    /** A `connect` call is suspended at `await this.startRecording()`. */
    ghost var awaitingRecording: bool

    /** An active session holds a recorder; controls that are held have
        not been stopped, and a held recorder is still attached. The socket
        and the audio output may be gone: a close while `connect` waits for
        the recorder runs `cleanup` before `sessionActive` is set. */
    ghost predicate Valid()
      reads this, recordingControls, audioOutControls
    {
      && (sessionActive ==> recordingControls != null)
      && (recordingControls != null ==>
            recordingControls.Valid() && recordingControls.processing && recordingControls.stopCalls == 0)
      && (audioOutControls != null ==> audioOutControls.stopCalls == 0)
    }

    constructor ()
      ensures Valid()
      ensures websocket == None && audioOutControls == null && recordingControls == null
      ensures !sessionActive && fresh(audioBuffer) && audioBuffer.chunks == []
      ensures statusUpdates == [] && retryQueue == [] && !awaitingRecording
    {
      websocket := None;
      audioOutControls := null;
      recordingControls := null;
      sessionActive := false;
      audioBuffer := new AudioStreamBuffer();
      statusUpdates := [];
      retryQueue := [];
      awaitingRecording := false;
    }

    /** `connect` up to `await this.startRecording()`: "connecting" is
        reported, then the token fetch, the audio output (`audioOutStarts`)
        and the socket are set up in turn. The socket constructor throws
        on a URL it rejects (`urlAccepted` false: unparsable, a scheme
        other than ws, wss, http or https, or a fragment); a missing
        `sessionURL` resolves as the relative URL "undefined" and is
        accepted. A failure reports "error" and ends the call, leaving
        what was already set up in place; otherwise the call is suspended
        (`pending`) and socket events may run before `ConnectResumed`. */
    method Connect(assistantId: string, fetch: FetchOutcome, audioOutStarts: bool, urlAccepted: bool)
      returns (pending: bool)
      requires Valid()
      modifies this
      ensures Valid()
      ensures pending <==> fetch.SessionBody? && audioOutStarts && urlAccepted
      ensures awaitingRecording == pending
      ensures statusUpdates == old(statusUpdates)
                + [StatusUpdate("connecting", "Connecting to AI assistant...")]
                + (if pending then [] else [StatusUpdate("error", "Failed to connect to assistant")])
      ensures fetch.SessionBody? && audioOutStarts ==> fresh(audioOutControls)
      ensures !(fetch.SessionBody? && audioOutStarts) ==> audioOutControls == old(audioOutControls)
      ensures websocket == if pending then Some(NewSocket()) else old(websocket)
      ensures sessionActive == old(sessionActive) && recordingControls == old(recordingControls)
      ensures retryQueue == old(retryQueue)
    {
      statusUpdates := statusUpdates + [StatusUpdate("connecting", "Connecting to AI assistant...")];
      pending := false;
      var sessionURL := GetSessionToken(fetch);
      if sessionURL.Success? && audioOutStarts {
        audioOutControls := new AudioOut();
        if urlAccepted {
          websocket := Some(NewSocket());
          pending := true;
        }
      }
      awaitingRecording := pending;
      if !pending {
        statusUpdates := statusUpdates + [StatusUpdate("error", "Failed to connect to assistant")];
      }
    }

    /** The rest of `connect`, once `startRecording` settles: when the
        recorder starts (`recordingStarts`) it is held and the session is
        marked active, whatever the socket and the audio output went
        through meanwhile; otherwise "error" is reported. */
    method ConnectResumed(recordingStarts: bool) returns (ok: bool)
      requires Valid() && awaitingRecording
      modifies this
      ensures Valid()
      ensures ok == recordingStarts && !awaitingRecording
      ensures statusUpdates == old(statusUpdates)
                + (if ok then [] else [StatusUpdate("error", "Failed to connect to assistant")])
      ensures ok ==> && sessionActive && fresh(recordingControls) && recordingControls.events == []
      ensures !ok ==> sessionActive == old(sessionActive) && recordingControls == old(recordingControls)
      ensures websocket == old(websocket) && audioOutControls == old(audioOutControls)
      ensures retryQueue == old(retryQueue)
    {
      awaitingRecording := false;
      ok := recordingStarts;
      if recordingStarts {
        recordingControls := new Recorder();
        sessionActive := true;
      } else {
        statusUpdates := statusUpdates + [StatusUpdate("error", "Failed to connect to assistant")];
      }
    }

    /** The network moves the agent socket to `state` (`onopen` only
        logs). */
    method SocketStateChanged(state: ReadyState)
      requires Valid() && websocket.Some? && websocket.value.readyState != Closed
      modifies this
      ensures Valid()
      ensures websocket == Some(Socket(state, old(websocket).value.sent))
      ensures sessionActive == old(sessionActive) && statusUpdates == old(statusUpdates)
      ensures retryQueue == old(retryQueue) && awaitingRecording == old(awaitingRecording)
      ensures audioOutControls == old(audioOutControls) && recordingControls == old(recordingControls)
    {
      websocket := Some(Socket(state, websocket.value.sent));
    }

    /** `onmessage`. A binary frame is played, stored, streamed downstream
        and sent for transcription as the assistant's audio, in that order;
        a frame of odd length (no Int16Array fits it) or one arriving
        without audio output throws before any of that. A text frame of
        type `status_agent_ready` reports "active"; any other text changes
        nothing. */
    method OnMessage(frame: AgentFrame, dg: DeepgramClient?, ds: DownstreamConnection?, now: int)
      requires Valid()
      requires dg != null ==> dg.Valid()
      requires ds != null ==> ds.Valid()
      modifies this, audioOutControls, audioBuffer, dg, ds
      ensures Valid()
      ensures dg != null ==> dg.Valid()
      ensures ds != null ==> ds.Valid()
      ensures websocket == old(websocket) && sessionActive == old(sessionActive)
      ensures audioOutControls == old(audioOutControls) && recordingControls == old(recordingControls)
      ensures retryQueue == old(retryQueue)
      ensures statusUpdates == old(statusUpdates)
                + (if frame == Text(Some(MessageTypeStatusAgentReady))
                   then [StatusUpdate("active", "Connected to assistant")] else [])
      ensures var played := frame.Binary? && |frame.bytes| % 2 == 0 && old(audioOutControls) != null;
              if played then
                var pcmSamples := FromBytes(frame.bytes);
                && audioOutControls.posted == old(audioOutControls.posted) + [pcmSamples]
                && audioOutControls.stopCalls == old(audioOutControls.stopCalls)
                && audioBuffer.chunks == old(audioBuffer.chunks) + [pcmSamples]
                && (ds != null ==> ds.AudioSent(AudioMessage(pcmSamples, now)))
                && (dg != null ==> dg.AudioProcessed(RawBuffer(frame.bytes), "assistant"))
              else
                && (audioOutControls != null ==> unchanged(audioOutControls))
                && unchanged(audioBuffer)
                && (ds != null ==> unchanged(ds))
                && (dg != null ==> unchanged(dg))
      ensures awaitingRecording == old(awaitingRecording)
    {
      match frame {
        case Binary(bytes) =>
          if |bytes| % 2 != 0 || audioOutControls == null {
            return;
          }
          var pcmSamples := FromBytes(bytes);
          audioOutControls.EnqueueAudioChunk(pcmSamples);
          audioBuffer.AddChunk(pcmSamples);
          if ds != null {
            ds.SendAudio(pcmSamples, now);
          }
          if dg != null {
            dg.ProcessAudio(RawBuffer(bytes), "assistant");
          }
        case Text(messageType) =>
          if messageType == Some(MessageTypeStatusAgentReady) {
            statusUpdates := statusUpdates + [StatusUpdate("active", "Connected to assistant")];
          }
      }
    }

    /** The `onerror` handler. */
    method OnError()
      modifies this
      ensures statusUpdates == old(statusUpdates) + [StatusUpdate("error", "Connection error")]
      ensures websocket == old(websocket) && sessionActive == old(sessionActive)
      ensures audioOutControls == old(audioOutControls) && recordingControls == old(recordingControls)
      ensures retryQueue == old(retryQueue)
      ensures awaitingRecording == old(awaitingRecording)
    {
      statusUpdates := statusUpdates + [StatusUpdate("error", "Connection error")];
    }

    /** The `onclose` handler: "ended" is reported, then `cleanup` runs. */
    method OnClose()
      requires Valid()
      modifies this, recordingControls, audioOutControls
      ensures Valid()
      ensures statusUpdates == old(statusUpdates) + [StatusUpdate("ended", "Call ended")]
      ensures CleanedUp(old(recordingControls), old(audioOutControls))
    {
      statusUpdates := statusUpdates + [StatusUpdate("ended", "Call ended")];
      Cleanup();
    }

    /** `sendWhenReady(message)`, once. */
    method SendWhenReady(message: string) returns (outcome: SendOutcome)
      requires Valid()
      modifies this
      ensures Valid()
      ensures outcome == if old(websocket).None? then Raised
                         else if old(websocket).value.readyState == Closed then Dropped
                         else if old(websocket).value.readyState == Open then Sent
                         else Rescheduled
      ensures websocket == if outcome == Sent then Some(old(websocket).value.Send(ControlText(message)))
                           else old(websocket)
      ensures retryQueue == old(retryQueue) + (if outcome == Rescheduled then [message] else [])
      ensures sessionActive == old(sessionActive) && statusUpdates == old(statusUpdates)
      ensures audioOutControls == old(audioOutControls) && recordingControls == old(recordingControls)
      ensures awaitingRecording == old(awaitingRecording)
    {
      if websocket.None? {
        // reading readyState of null throws a TypeError
        return Raised;
      }
      if websocket.value.readyState == Closed {
        outcome := Dropped;
      } else if websocket.value.readyState == Open {
        websocket := Some(websocket.value.Send(ControlText(message)));
        outcome := Sent;
      } else {
        retryQueue := retryQueue + [message];
        outcome := Rescheduled;
      }
    }

    /** The oldest pending 50 ms retry fires and calls `sendWhenReady`
        again with its message. */
    method RetryTimerFired() returns (outcome: SendOutcome)
      requires Valid() && retryQueue != []
      modifies this
      ensures Valid()
      ensures var message := old(retryQueue)[0];
              && outcome == (if old(websocket).None? then Raised
                             else if old(websocket).value.readyState == Closed then Dropped
                             else if old(websocket).value.readyState == Open then Sent
                             else Rescheduled)
              && websocket == (if outcome == Sent then Some(old(websocket).value.Send(ControlText(message)))
                               else old(websocket))
              && retryQueue == old(retryQueue)[1..] + (if outcome == Rescheduled then [message] else [])
      ensures sessionActive == old(sessionActive) && statusUpdates == old(statusUpdates)
      ensures audioOutControls == old(audioOutControls) && recordingControls == old(recordingControls)
      ensures awaitingRecording == old(awaitingRecording)
    {
      var message := retryQueue[0];
      retryQueue := retryQueue[1..];
      outcome := SendWhenReady(message);
    }

    /** The recorder's `onaudioprocess` with the frame `floatData`. On the
        first frame `onRecordingStarted` sends the client-ready message
        through `sendWhenReady` (`readyOutcome`); then the chunk goes to the
        agent and, as the user's audio, to transcription, but only while
        the agent socket is OPEN. */
    method OnAudioProcess(floatData: seq<real>, dg: DeepgramClient?) returns (readyOutcome: Option<SendOutcome>)
      requires Valid() && recordingControls != null
      requires dg != null ==> dg.Valid()
      modifies this, recordingControls, dg
      ensures Valid()
      ensures dg != null ==> dg.Valid()
      ensures recordingControls == old(recordingControls) && audioOutControls == old(audioOutControls)
      ensures recordingControls.events == old(recordingControls.events)
                + (if old(recordingControls.hasRecordingStarted) then [] else [RecordingStarted])
                + [AudioChunk(ChunkBytes(floatData))]
      ensures readyOutcome.Some? <==> !old(recordingControls.hasRecordingStarted)
      ensures readyOutcome == Some(Raised) ==> old(websocket).None?
      ensures var chunk := ChunkBytes(floatData);
              var ws1 := if readyOutcome == Some(Sent) && old(websocket).Some?
                         then Some(old(websocket).value.Send(ControlText(ClientReadyMessage)))
                         else old(websocket);
              if IsOpenSocket(ws1) then
                && websocket == Some(ws1.value.Send(AudioBytes(chunk)))
                && (dg != null ==> dg.AudioProcessed(ByteView(chunk), "user"))
              else
                && websocket == ws1
                && (dg != null ==> unchanged(dg))
      ensures retryQueue == old(retryQueue) + (if readyOutcome == Some(Rescheduled) then [ClientReadyMessage] else [])
      ensures sessionActive == old(sessionActive) && statusUpdates == old(statusUpdates)
      ensures awaitingRecording == old(awaitingRecording)
    {
      var first := !recordingControls.hasRecordingStarted;
      recordingControls.OnAudioProcess(floatData);
      readyOutcome := None;
      if first {
        var o := SendWhenReady(ClientReadyMessage);
        readyOutcome := Some(o);
      }
      var audioChunk := ChunkBytes(floatData);
      if websocket.Some? && websocket.value.readyState == Open {
        websocket := Some(websocket.value.Send(AudioBytes(audioChunk)));
        if dg != null {
          dg.ProcessAudio(ByteView(audioChunk), "user");
        }
      }
    }

    /** The state `cleanup` leaves, stated against the state before it:
        each control that was held (`recorder`, `audioOut`) is stopped once
        and dropped, and the socket and the session are gone. */
    twostate predicate CleanedUp(recorder: Recorder?, audioOut: AudioOut?)
      reads this, recorder, audioOut
    {
      && recordingControls == null && audioOutControls == null
      && websocket == None && !sessionActive
      && (recorder != null ==>
            && recorder.stopCalls == old(recorder.stopCalls) + 1
            && !recorder.processing
            && recorder.events == old(recorder.events))
      && (audioOut != null ==>
            && audioOut.stopCalls == old(audioOut.stopCalls) + 1
            && audioOut.posted == old(audioOut.posted))
      && retryQueue == old(retryQueue) && awaitingRecording == old(awaitingRecording)
    }

    /** `cleanup`. Calling it again finds nothing to stop. */
    method Cleanup()
      requires Valid()
      modifies this, recordingControls, audioOutControls
      ensures Valid()
      ensures CleanedUp(old(recordingControls), old(audioOutControls))
      ensures statusUpdates == old(statusUpdates)
    {
      if recordingControls != null {
        recordingControls.Stop();
        recordingControls := null;
      }
      if audioOutControls != null {
        audioOutControls.Stop();
        audioOutControls := null;
      }
      websocket := None;
      sessionActive := false;
    }

    /** `disconnect`: the session ends, the socket (if any) is closed and
        returned, and `cleanup` runs. */
    method Disconnect() returns (closed: Option<Socket<AgentOutbound>>)
      requires Valid()
      modifies this, recordingControls, audioOutControls
      ensures Valid()
      ensures closed == if old(websocket).Some? then Some(old(websocket).value.Close()) else None
      ensures CleanedUp(old(recordingControls), old(audioOutControls))
      ensures statusUpdates == old(statusUpdates)
    {
      sessionActive := false;
      closed := None;
      if websocket.Some? {
        closed := Some(websocket.value.Close());
      }
      Cleanup();
    }

    /** `isActive`: the session flag, which a recorder always backs; the
        socket and the audio output need not be held. */
    method IsActive() returns (active: bool)
      requires Valid()
      ensures active == sessionActive
      ensures active ==> recordingControls != null
    {
      active := sessionActive;
    }
  }

  /** A close while `connect` waits for the recorder: `onclose` runs
      `cleanup`, then `connect` resumes and marks the session active, so
      `isActive` holds with no socket and no audio output. */
  method CloseWhileRecordingStarts() returns (active: bool, hasSocket: bool, hasAudioOut: bool)
    ensures active && !hasSocket && !hasAudioOut
  {
    var client := new SynthflowClient();
    var pending := client.Connect("your_assistant_id", SessionBody(None), true, true);
    client.SocketStateChanged(Closed);
    client.OnClose();
    var ok := client.ConnectResumed(true);
    active := client.IsActive();
    hasSocket := client.websocket.Some?;
    hasAudioOut := client.audioOutControls != null;
  }
}
