/** The call widget controller: the shared `callState` with the call
    start/stop logic, the transcript forwarding and the MM:SS call timer.
    The DOM is reduced to the last argument of `updateCallUI` (`uiState`),
    the `updateCallStatus` calls the widget makes itself (`statusUpdates`)
    and the timer element's text (`display`). `Date.now()` is the parameter
    `now`, in milliseconds, and a running `setInterval` is the flag
    `timerRunning`, its ticks the method `UpdateTimer`. */
module CallWidget {
  import opened Common
  import Pcm
  import opened JsString
  import opened Deepgram
  import opened Downstream
  import opened Synthflow

  // ---------------------------------------------------------------
  // The timer text
  // ---------------------------------------------------------------

  /** JavaScript's `%` for a positive divisor: the remainder takes the
      sign of the dividend. */
  function JsRemainder(a: int, n: int): (r: int)
    requires n > 0
    ensures a >= 0 ==> r == a % n && 0 <= r < n
    ensures a < 0 ==> -n < r <= 0
  {
    if a >= 0 then a % n else -((-a) % n)
  }

  /** Negating the dividend negates the remainder (truncation toward
      zero), unlike Dafny's `%`. */
  lemma JsRemainderOdd(a: int, n: int)
    requires n > 0
    ensures JsRemainder(-a, n) == -JsRemainder(a, n)
  {
  }

  /** -1 % 60 is -1 in JavaScript and 59 in Dafny. */
  lemma JsRemainderNegative()
    ensures JsRemainder(-1, 60) == -1 && -1 % 60 == 59
  {
  }

  /** `minutes` and `seconds` of `updateTimer` for `elapsedMs` milliseconds
      since the start: whole seconds by flooring, then floored minutes and
      the JavaScript remainder. */
  function TimerParts(elapsedMs: int): (parts: (int, int))
  {
    var elapsed := elapsedMs / 1000;
    (elapsed / 60, JsRemainder(elapsed, 60))
  }

  /** The text `updateTimer` writes: both parts through `String` and
      `padStart(2, '0')`, joined by a colon. */
  function TimerText(elapsedMs: int): string {
    var (minutes, seconds) := TimerParts(elapsedMs);
    PadStart2(IntToString(minutes)) + ":" + PadStart2(IntToString(seconds))
  }

  /** The padded digits of a number: at least two digits whose value is
      the number. */
  lemma PaddedDigits(n: nat)
    ensures var t := PadStart2(NatToString(n));
            && |t| >= 2 && (forall i :: 0 <= i < |t| ==> IsDigit(t[i]))
            && DigitsValue(t) == n
  {
    NatToStringRoundTrip(n);
    var s := NatToString(n);
    if |s| < 2 {
      assert PadStart2(s) == "0" + s;
      LeadingZeroValue(s);
    }
  }

  /** Below 100 the padded digits are exactly two. */
  lemma TwoDigits(n: nat)
    requires n < 100
    ensures |PadStart2(NatToString(n))| == 2
  {
    if n >= 10 {
      assert |NatToString(n / 10)| == 1;
    }
  }

  /** `t` shows `elapsed` whole seconds as "MM:SS": the colon third from
      the end, digits on both sides (the minutes may take more than two),
      the seconds below 60 on the right and the minutes on the left. */
  predicate IsTimerDisplay(t: string, elapsed: int) {
    && |t| >= 5 && t[|t| - 3] == ':'
    && (forall i :: 0 <= i < |t| - 3 ==> IsDigit(t[i]))
    && IsDigit(t[|t| - 2]) && IsDigit(t[|t| - 1])
    && DigitsValue(t[|t| - 2..]) == elapsed % 60
    && DigitsValue(t[..|t| - 3]) == elapsed / 60
  }

  /** Reading a display back: 60 times the minutes plus the seconds is
      the elapsed time, and the seconds stay below 60. */
  lemma TimerDisplayReadBack(t: string, elapsed: int)
    requires IsTimerDisplay(t, elapsed)
    ensures DigitsValue(t[|t| - 2..]) < 60
    ensures 60 * DigitsValue(t[..|t| - 3]) + DigitsValue(t[|t| - 2..]) == elapsed
  {
  }

  /** Joining the padded minutes and seconds with a colon gives a
      display. */
  lemma ColonJoin(mm: string, ss: string, elapsed: nat)
    requires |mm| >= 2 && |ss| == 2
    requires forall i :: 0 <= i < |mm| ==> IsDigit(mm[i])
    requires forall i :: 0 <= i < |ss| ==> IsDigit(ss[i])
    requires DigitsValue(mm) == elapsed / 60 && DigitsValue(ss) == elapsed % 60
    ensures IsTimerDisplay(mm + ":" + ss, elapsed)
  {
    var t := mm + ":" + ss;
    assert t[|t| - 2..] == ss && t[..|t| - 3] == mm;
    assert forall i :: 0 <= i < |t| - 3 ==> t[i] == mm[i];
  }

  /** For a non-negative elapsed time the timer shows "MM:SS" for the
      whole seconds elapsed. */
  lemma TimerTextSpec(elapsedMs: int)
    requires elapsedMs >= 0
    ensures IsTimerDisplay(TimerText(elapsedMs), elapsedMs / 1000)
  {
    var elapsed := elapsedMs / 1000;
    var minutes, seconds := elapsed / 60, elapsed % 60;
    var mm, ss := PadStart2(NatToString(minutes)), PadStart2(NatToString(seconds));
    assert TimerText(elapsedMs) == mm + ":" + ss;
    PaddedDigits(minutes);
    PaddedDigits(seconds);
    TwoDigits(seconds);
    ColonJoin(mm, ss, elapsed);
  }

  /** One second before the start both parts are -1. */
  lemma ClockMovedBackParts()
    ensures TimerParts(-1000) == (-1, -1)
  {
  }

  /** `String(-1)` is already two characters long, so padding keeps it. */
  lemma MinusOneText()
    ensures PadStart2(IntToString(-1)) == "-1"
  {
    assert NatToString(1) == "1";
  }

  /** A start time in the future (the clock moved back by a second) shows
      the negative parts as they are. */
  lemma ClockMovedBack()
    ensures TimerText(-1000) == "-1:-1"
  {
    ClockMovedBackParts();
    MinusOneText();
    assert TimerText(-1000) == "-1" + ":" + "-1";
  }

  // ---------------------------------------------------------------
  // callState
  // ---------------------------------------------------------------

  /** The default assistant id when the page defines none. */
  function AssistantIdOrDefault(windowAssistantId: Option<string>): (id: string)
    ensures id != ""
    ensures windowAssistantId.Some? && windowAssistantId.value != "" ==> id == windowAssistantId.value
  {
    if windowAssistantId.Some? && windowAssistantId.value != "" then windowAssistantId.value
    else "your_assistant_id"
  }

  /** The two clients `startCall` creates and connects: the
      transcription client first, whose outcome never matters, then the
      agent session up to its wait for the recorder; `pending` says that
      the agent connect got that far. */
  method ConnectClients(assistantId: string, token: TokenResponse, userState: ReadyState,
                        assistantState: ReadyState, fetch: FetchOutcome,
                        audioOutStarts: bool, urlAccepted: bool)
    returns (session: SynthflowClient, transcription: DeepgramClient, pending: bool)
    ensures fresh(session) && fresh(transcription)
    ensures session.Valid() && transcription.Valid() && transcription.isConnected
    ensures pending <==> fetch.SessionBody? && audioOutStarts && urlAccepted
    ensures session.awaitingRecording == pending && !session.sessionActive
    ensures session.statusUpdates == [StatusUpdate("connecting", "Connecting to AI assistant...")]
              + (if pending then [] else [StatusUpdate("error", "Failed to connect to assistant")])
  {
    session := new SynthflowClient();
    transcription := new DeepgramClient();
    transcription.Connect(token, userState, assistantState);
    pending := session.Connect(assistantId, fetch, audioOutStarts, urlAccepted);
  }

  class CallState {
    var isActive: bool
    var isWidgetOpen: bool
    var synthflowClient: SynthflowClient?
    var deepgramClient: DeepgramClient?
    var downstreamConnection: DownstreamConnection?
    var timerRunning: bool
    var callStartTime: Option<int>
    /** The last `updateCallUI` state ("" before the first). */
    var uiState: string
    /** The `updateCallStatus` calls made by the widget itself. */
    var statusUpdates: seq<StatusUpdate>
    /** The text of the timer element. */
    var display: string

    /** The controls held by the agent session. */
    ghost function SessionParts(): set<object?>
      reads this, synthflowClient
    {
      if synthflowClient != null then {synthflowClient.recordingControls, synthflowClient.audioOutControls} else {}
    }

    /** Every client held is in a consistent state, the two clients are
        created together, a timer runs exactly while a start time is
        recorded, and an active call has both clients and a running
        timer. */
    ghost predicate Valid()
      reads this, synthflowClient, deepgramClient, downstreamConnection, SessionParts()
    {
      && (synthflowClient != null ==> synthflowClient.Valid())
      && (deepgramClient != null ==> deepgramClient.Valid())
      && (downstreamConnection != null ==> downstreamConnection.Valid())
      && (synthflowClient != null <==> deepgramClient != null)
      && (timerRunning <==> callStartTime.Some?)
      && (isActive ==> timerRunning && synthflowClient != null && deepgramClient != null)
    }

    constructor ()
      ensures Valid()
      ensures !isActive && !isWidgetOpen && !timerRunning && callStartTime == None
      ensures synthflowClient == null && deepgramClient == null && downstreamConnection == null
      ensures uiState == "" && statusUpdates == [] && display == "00:00"
    {
      isActive := false;
      isWidgetOpen := false;
      synthflowClient := null;
      deepgramClient := null;
      downstreamConnection := null;
      timerRunning := false;
      callStartTime := None;
      uiState := "";
      statusUpdates := [];
      display := "00:00";
    }

    /** `initializeCallWidget`: without the widget element nothing
        happens; otherwise the widget opens and, when a downstream URL is
        stored, a relay connection is made (`accepted` says whether its
        socket could be built). */
    method InitializeCallWidget(widgetPresent: bool, downstreamUrl: Option<string>, accepted: bool)
      requires Valid()
      modifies this
      ensures Valid()
      ensures isWidgetOpen == (old(isWidgetOpen) || widgetPresent)
      ensures if widgetPresent && downstreamUrl.Some? && downstreamUrl.value != "" then
                && fresh(downstreamConnection)
                && downstreamConnection.websocket == (if accepted then Some(NewSocket()) else None)
                && downstreamConnection.queued == []
              else downstreamConnection == old(downstreamConnection)
      ensures isActive == old(isActive) && synthflowClient == old(synthflowClient)
      ensures deepgramClient == old(deepgramClient)
      ensures timerRunning == old(timerRunning) && callStartTime == old(callStartTime)
      ensures uiState == old(uiState) && statusUpdates == old(statusUpdates) && display == old(display)
    {
      if !widgetPresent {
        return;
      }
      isWidgetOpen := true;
      if downstreamUrl.Some? && downstreamUrl.value != "" {
        var connection := new DownstreamConnection();
        connection.Connect(accepted);
        downstreamConnection := connection;
      }
    }

    /** `startCallTimer`. */
    method StartCallTimer(now: int)
      modifies this
      ensures timerRunning && callStartTime == Some(now)
      ensures display == old(display) && isActive == old(isActive) && uiState == old(uiState)
      ensures synthflowClient == old(synthflowClient) && deepgramClient == old(deepgramClient)
      ensures downstreamConnection == old(downstreamConnection) && statusUpdates == old(statusUpdates)
    {
      callStartTime := Some(now);
      timerRunning := true;
    }

    /** `stopCallTimer`: no timer, no start time, and "00:00" shown. */
    method StopCallTimer()
      modifies this
      ensures !timerRunning && callStartTime == None && display == "00:00"
      ensures isActive == old(isActive) && uiState == old(uiState)
      ensures synthflowClient == old(synthflowClient) && deepgramClient == old(deepgramClient)
      ensures downstreamConnection == old(downstreamConnection) && statusUpdates == old(statusUpdates)
    {
      timerRunning := false;
      callStartTime := None;
      display := "00:00";
    }

    /** One `updateTimer` tick at time `now`. Without a start time (or with
        the falsy start time 0) nothing changes. */
    method UpdateTimer(now: int)
      modifies this
      ensures if old(callStartTime).None? || old(callStartTime).value == 0 then display == old(display)
              else display == TimerText(now - old(callStartTime).value)
      ensures callStartTime == old(callStartTime) && timerRunning == old(timerRunning)
      ensures isActive == old(isActive) && isWidgetOpen == old(isWidgetOpen) && uiState == old(uiState)
      ensures synthflowClient == old(synthflowClient) && deepgramClient == old(deepgramClient)
      ensures downstreamConnection == old(downstreamConnection) && statusUpdates == old(statusUpdates)
    {
      if callStartTime.None? || callStartTime.value == 0 {
        return;
      }
      var elapsedMs := now - callStartTime.value;
      display := TimerText(elapsedMs);
    }

    /** `handleTranscript`: every transcript, final or not, goes to the
        relay connection when there is one. */
    method HandleTranscript(transcriptData: Entry, now: int)
      requires Valid()
      modifies downstreamConnection
      ensures Valid()
      ensures downstreamConnection != null ==>
                downstreamConnection.TranscriptSent(TranscriptMessage(transcriptData, now))
    {
      if downstreamConnection != null {
        downstreamConnection.SendTranscript(transcriptData, now);
      }
    }

    /** `startCall` up to the agent session's wait for the recorder: the
        UI shows "connecting" while fresh clients replace the old ones and
        connect. When the agent connect fails before that wait, "error" is
        reported and the call stays as it was; otherwise the call is
        suspended (`pending`) until `StartCallResumed`. */
    method StartCall(windowAssistantId: Option<string>,
                     token: TokenResponse, userState: ReadyState, assistantState: ReadyState,
                     fetch: FetchOutcome, audioOutStarts: bool, urlAccepted: bool)
      returns (pending: bool)
      requires Valid()
      modifies this
      ensures Valid()
      ensures fresh(synthflowClient) && fresh(deepgramClient)
      ensures deepgramClient.isConnected
      ensures downstreamConnection == old(downstreamConnection)
      ensures pending <==> fetch.SessionBody? && audioOutStarts && urlAccepted
      ensures synthflowClient.awaitingRecording == pending && !synthflowClient.sessionActive
      ensures |synthflowClient.statusUpdates| >= 1
      ensures synthflowClient.statusUpdates[0] == StatusUpdate("connecting", "Connecting to AI assistant...")
      ensures isActive == old(isActive)
      ensures timerRunning == old(timerRunning) && callStartTime == old(callStartTime)
      ensures pending ==> uiState == "connecting" && statusUpdates == old(statusUpdates)
      ensures !pending ==> && uiState == "error"
                           && statusUpdates == old(statusUpdates) + [StatusUpdate("error", "Connection failed")]
    {
      uiState := "connecting";
      var assistantId := AssistantIdOrDefault(windowAssistantId);
      var session, transcription;
      session, transcription, pending := ConnectClients(assistantId, token, userState, assistantState, fetch, audioOutStarts, urlAccepted);
      synthflowClient, deepgramClient := session, transcription;
      if !pending {
        statusUpdates := statusUpdates + [StatusUpdate("error", "Connection failed")];
        uiState := "error";
      }
    }

    /** The rest of `startCall`, once the agent connect resumes: when the
        recorder starts the timer starts and the call is active, whatever
        the agent socket did meanwhile; otherwise "error" is reported and
        the call stays as it was. */
    method StartCallResumed(recordingStarts: bool, now: int) returns (ok: bool)
      requires Valid() && synthflowClient != null && synthflowClient.awaitingRecording
      modifies this, synthflowClient
      ensures Valid()
      ensures ok == recordingStarts
      ensures synthflowClient == old(synthflowClient) && deepgramClient == old(deepgramClient)
      ensures downstreamConnection == old(downstreamConnection)
      ensures !synthflowClient.awaitingRecording
      ensures synthflowClient.statusUpdates == old(synthflowClient.statusUpdates)
                + (if ok then [] else [StatusUpdate("error", "Failed to connect to assistant")])
      ensures synthflowClient.websocket == old(synthflowClient.websocket)
      ensures synthflowClient.audioOutControls == old(synthflowClient.audioOutControls)
      ensures ok ==> && synthflowClient.sessionActive && fresh(synthflowClient.recordingControls)
                     && isActive && timerRunning && callStartTime == Some(now) && uiState == "active"
                     && statusUpdates == old(statusUpdates)
      ensures !ok ==> && synthflowClient.sessionActive == old(synthflowClient.sessionActive)
                      && isActive == old(isActive) && uiState == "error"
                      && statusUpdates == old(statusUpdates) + [StatusUpdate("error", "Connection failed")]
                      && timerRunning == old(timerRunning) && callStartTime == old(callStartTime)
    {
      ok := synthflowClient.ConnectResumed(recordingStarts);
      if ok {
        StartCallTimer(now);
        isActive := true;
        uiState := "active";
      } else {
        statusUpdates := statusUpdates + [StatusUpdate("error", "Connection failed")];
        uiState := "error";
      }
    }

    /** `endCall`: whichever clients exist are disconnected, call end is
        signalled downstream, the timer stops and the call is over. */
    method EndCall(now: int)
      returns (closedAgent: Option<Socket<AgentOutbound>>,
               closedUser: Option<Socket<seq<Pcm.byte>>>, closedAssistant: Option<Socket<seq<Pcm.byte>>>)
      requires Valid()
      modifies this, synthflowClient, deepgramClient, downstreamConnection, SessionParts()
      ensures Valid()
      ensures !isActive && uiState == "ended"
      ensures !timerRunning && callStartTime == None && display == "00:00"
      ensures synthflowClient == old(synthflowClient) && deepgramClient == old(deepgramClient)
      ensures downstreamConnection == old(downstreamConnection) && statusUpdates == old(statusUpdates)
      ensures synthflowClient != null ==>
                && !synthflowClient.sessionActive && synthflowClient.websocket == None
                && synthflowClient.recordingControls == null && synthflowClient.audioOutControls == null
      ensures deepgramClient != null ==>
                && !deepgramClient.isConnected && deepgramClient.deepgramToken == None
                && deepgramClient.userWebsocket == None && deepgramClient.assistantWebsocket == None
                && deepgramClient.transcriptBuffer == old(deepgramClient.transcriptBuffer)
      ensures downstreamConnection != null ==>
                && downstreamConnection.websocket ==
                     (if IsOpenSocket(old(downstreamConnection.websocket))
                      then Some(old(downstreamConnection.websocket).value.Send(CallEndedMessage(now)))
                      else old(downstreamConnection.websocket))
                && downstreamConnection.queued == old(downstreamConnection.queued)
      ensures closedAgent == if synthflowClient != null && old(synthflowClient.websocket).Some?
                             then Some(old(synthflowClient.websocket).value.Close()) else None
      ensures closedUser == if deepgramClient != null && old(deepgramClient.userWebsocket).Some?
                            then Some(old(deepgramClient.userWebsocket).value.Close()) else None
      ensures closedAssistant == if deepgramClient != null && old(deepgramClient.assistantWebsocket).Some?
                                 then Some(old(deepgramClient.assistantWebsocket).value.Close()) else None
    {
      closedAgent, closedUser, closedAssistant := None, None, None;
      if synthflowClient != null {
        closedAgent := synthflowClient.Disconnect();
      }
      if deepgramClient != null {
        closedUser, closedAssistant := deepgramClient.Disconnect();
      }
      if downstreamConnection != null {
        downstreamConnection.SendCallEnd(now);
      }
      StopCallTimer();
      isActive := false;
      uiState := "ended";
    }

    /** `toggleCall`: ends an active call, starts one otherwise
        (`started` says which); a start that gets as far as the agent's
        wait for the recorder is left suspended, showing "connecting". */
    method ToggleCall(windowAssistantId: Option<string>,
                      token: TokenResponse, userState: ReadyState, assistantState: ReadyState,
                      fetch: FetchOutcome, audioOutStarts: bool, urlAccepted: bool, now: int)
      returns (started: bool)
      requires Valid()
      modifies this, synthflowClient, deepgramClient, downstreamConnection, SessionParts()
      ensures Valid()
      ensures started <==> !old(isActive)
      ensures !started ==> !isActive && uiState == "ended"
      ensures started ==> && fresh(synthflowClient) && fresh(deepgramClient) && !isActive
                          && (synthflowClient.awaitingRecording <==> uiState == "connecting")
                          && (uiState == "connecting" || uiState == "error")
      ensures downstreamConnection == old(downstreamConnection)
    {
      if isActive {
        var closedAgent, closedUser, closedAssistant := EndCall(now);
        started := false;
      } else {
        var pending := StartCall(windowAssistantId, token, userState, assistantState, fetch, audioOutStarts, urlAccepted);
        started := true;
      }
    }
  }
}
