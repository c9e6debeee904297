# Voice-call audio and transcript relay, modelled in Dafny

This project models the browser side of a GP-surgery voice-assistant call
and the server's downstream fan-out hub. Agent audio arrives on the
Synthflow socket. It is played through an audio worklet, stored in a
stream buffer, relayed downstream and sent to Deepgram for transcription.
Microphone audio goes to the agent and to Deepgram as user audio.
Deepgram's transcripts are filtered (finals only, no repeats) and
relayed downstream. The server broadcasts what one downstream client
sends to every other open client.

The model has one module per source file, plus three shared modules:

- `Common`: sockets as values (a ready state plus the log of sent
  messages), `Option`, and `Concat`.
- `Pcm`: the Int16 sample type, its little-endian byte view, and the
  float scaling.
- `JsString`: `trim`, `toLowerCase`, `String(n)` and `padStart(2, '0')`
  on `seq<char>`.

The source modules:

- `Playback`: `public/audio-out-worklet.js`.
- `Audio`: `src/utils/audio.js`.
- `Deepgram`: `DeepgramClient` of `src/utils/deepgram.js`.
- `Downstream`: `DownstreamConnection` of `src/utils/deepgram.js`.
- `Synthflow`: `src/utils/synthflow.js`.
- `Server`: the decision logic and broadcast hub of `server/server.js`.
- `CallWidget`: `src/components/CallWidget.js`.
- `ConfigHelper`: `config-helper.js`.

Objects whose fields the source updates are classes whose methods
modify them. Event handlers are methods, driven by the caller in the
order the environment would fire them.

The environment becomes parameters:

- A socket's state change is a `SocketStateChanged` call.
- An `await` at which socket events can run splits its operation in two:
  the agent session's `connect` suspends at `await this.startRecording()`
  (`Connect`, then `ConnectResumed`), and so does `startCall` with it
  (`StartCall`, then `StartCallResumed`).
- A fetch outcome and a token response are datatype arguments.
- `Date.now()` is an integer `now` in milliseconds.
- A pending 50 ms retry is an entry of `retryQueue`.

Callbacks are logs or return values:

- `onStatusUpdate` calls are kept in `statusUpdates`.
- The recorder's callbacks are kept in `events`.
- `onTranscript` is the `emitted` result of `HandleTranscriptMessage`.
- Chunks posted to the worklet are kept in `posted`.

Quirks that the contracts state as the code has them:

- Deepgram `connect` reports itself connected even when the token
  request fails (`Deepgram.DeepgramClient.Connect`).
- Recording starts inside the agent session's `connect`, before the
  agent reports ready. So `sessionActive` is true without a
  `status_agent_ready` (`Synthflow.SynthflowClient.ConnectResumed`).
- If the agent socket closes while `connect` waits for the recorder (the
  microphone prompt, say), `onclose` runs `cleanup` first and `connect`
  then marks the session active anyway: `isActive()` holds with no socket
  and no audio output, and the widget shows a live call
  (`Synthflow.CloseWhileRecordingStarts`, `CallWidget.CallState.StartCallResumed`).
- `flushQueues` sends every queued audio message before every queued
  transcript. Their relative order is kept exactly when no transcript
  was queued before an audio message (`Downstream.FlushKeepsOrderIff`,
  `Downstream.FlushReordersExample`).
- When an empty frame reaches the front of the playback queue, one pull
  returns "undefined" even though more frames are queued
  (`Playback.SampleQueue.PullSample`).
- Any non-empty `PORT` makes the server count as production, including
  the helper's own template value `PORT=3000`
  (`Server.PortMakesProduction`, `ConfigHelper.TemplateServerIsProduction`).
- The placeholder derived from "Synthflow Assistant ID" is not the
  template's `your_assistant_id_here`. So the untouched template counts
  that setting as configured (`ConfigHelper.TemplateReport`).
- `updateTimer` uses JavaScript `%`. A start time in the future shows
  negative parts such as `-1:-1` (`CallWidget.ClockMovedBack`).
- `updateTimer` treats a start time of 0 as missing
  (`CallWidget.CallState.UpdateTimer`).
- On an ordinary JSON message, the server's logging check can throw.
  This happens for `null`, and in production for a transcript message
  without `data.data.text`. The handler's `catch` then drops the message
  like non-JSON (`Server.LogCheckThrows`, `Server.Hub.OnClientMessage`).

## Model

| member | source | states |
|---|---|---|
| Common.Socket.Send | src/utils/deepgram.js:179 | sending appends the message to the socket's log and keeps its state |
| Common.Socket.Close | src/utils/deepgram.js:228-235 | closing keeps the log and leaves a socket that is not OPEN (CLOSING, or CLOSED if it already was) |
| Common.NewSocket | src/utils/synthflow.js:43 | a new socket is CONNECTING with nothing sent |
| Common.ConcatAppend | src/utils/audio.js:88-91 | concatenating one more chunk appends its samples |
| Common.ConcatSplit | src/utils/audio.js:88-91 | the concatenation of all chunks is that of a prefix followed by that of the rest |
| Pcm.ToBytes | src/utils/deepgram.js:165 | an Int16Array's buffer has two bytes per sample |
| Pcm.FromBytes | src/utils/deepgram.js:197 | an Int16Array over n bytes has floor(n/2) samples |
| Pcm.SampleRoundTrip | src/utils/synthflow.js:69 | one sample's two little-endian bytes read back as that sample |
| Pcm.FromToBytes | src/utils/synthflow.js:69 | viewing the bytes of an Int16Array as Int16 samples gives the samples back |
| Pcm.Int16ToFloat | public/audio-out-worklet.js:10-14 | the scaled sample lies in [-1, 1] and is negative exactly when the int16 is |
| Pcm.TruncateToInt16 | src/utils/audio.js:64 | storing into an Int16Array truncates toward zero: the result is within 1 of the value, on its zero side |
| Pcm.Clamp | src/utils/audio.js:63 | the clamped sample lies in [-1, 1] and is the sample itself when that is already in range |
| Pcm.FloatToInt16 | src/utils/audio.js:63-64 | one sample's conversion: clamp, scale by 0x8000 below zero and 0x7fff otherwise, store into an Int16Array; Pcm.QuantisationError states its accuracy |
| Pcm.QuantisationError | src/utils/audio.js:60-67 | a sample in [-1, 1] converted to int16 and scaled back is off by less than 1/32767 |
| JsString.TrimStart | src/utils/deepgram.js:119 | the leading half of trim; JsString.TrimStartSpec states what it removes |
| JsString.TrimEnd | src/utils/deepgram.js:119 | the trailing half of trim; JsString.TrimEndSpec states what it removes |
| JsString.Trim | src/utils/deepgram.js:119 | trim is trimEnd after trimStart; JsString.TrimEmptyIffBlank and JsString.TrimIdempotent state its properties |
| JsString.TrimStartSpec | src/utils/deepgram.js:119 | trimStart removes exactly the leading run of white space |
| JsString.TrimEndSpec | src/utils/deepgram.js:119 | trimEnd removes exactly the trailing run of white space |
| JsString.TrimEmptyIffBlank | src/utils/deepgram.js:119 | trim gives "" exactly when every character is white space |
| JsString.TrimIdempotent | src/utils/deepgram.js:132 | trimming twice is trimming once |
| JsString.ToLowerAscii | config-helper.js:81 | toLowerCase keeps the length, leaves no upper-case letter, keeps every other character, and maps each upper-case letter to the lower-case letter at the same place in the alphabet |
| JsString.ToLowerAsciiIdempotent | config-helper.js:81 | lower-casing twice is lower-casing once |
| JsString.ReplaceSpaces | config-helper.js:81 | replace(/ /g, '_') keeps the length, leaves no space, turns every space into an underscore and keeps every other character |
| JsString.ReplaceSpacesWithoutSpaces | config-helper.js:81 | a string without spaces comes back unchanged |
| JsString.ReplaceSpacesIdempotent | config-helper.js:81 | replacing the spaces twice is replacing them once |
| JsString.LowerAndReplaceCommute | config-helper.js:81 | lower-casing then replacing spaces is replacing spaces then lower-casing |
| JsString.NatToString | src/components/CallWidget.js:259 | String(n) is a non-empty run of decimal digits, with a leading zero only for 0, and one digit exactly when n < 10 |
| JsString.NatToStringRoundTrip | src/components/CallWidget.js:259 | the decimal digits of String(n) read back as n |
| JsString.IntToString | src/components/CallWidget.js:259 | String(n) on an integer: a minus sign before the digits of -n when n is negative; CallWidget.MinusOneText states the case the timer meets |
| JsString.LeadingZeroValue | src/components/CallWidget.js:259 | padding with a leading '0' leaves the value of the digits unchanged |
| JsString.PadStart2 | src/components/CallWidget.js:259 | padStart(2, '0'); JsString.PadStart2Spec states its result |
| JsString.PadStart2Spec | src/components/CallWidget.js:259 | padStart(2, '0') gives at least two characters: the string itself on the right, zeros before it |
| Playback.ReadWithinFrame | public/audio-out-worklet.js:47-49 | a read inside a frame yields the sample under the cursor, and the stream goes on from the next position |
| Playback.ReadNextFrame | public/audio-out-worklet.js:40-46 | shifting in the head frame yields its first sample, or nothing when it is empty; the rest of the stream then follows |
| Playback.SampleQueue.constructor | public/audio-out-worklet.js:35-38 | the queue starts empty, with no current frame and the cursor at 0 |
| Playback.SampleQueue.PushArray | public/audio-out-worklet.js:51-53 | the frame goes at the back; cursor and current frame are unchanged; the pending samples grow by the frame |
| Playback.SampleQueue.PulledStream | public/audio-out-worklet.js:39-50 | one step yields the first pending sample and removes exactly that one, or yields undefined and changes no pending sample; with no empty frames, undefined means nothing is pending |
| Playback.SampleQueue.PullSample | public/audio-out-worklet.js:39-50 | the shift-then-read step on the closure state; undefined exactly when an exhausted frame meets an empty queue or an empty head frame; successive pulls yield the pushed frames concatenated in push order |
| Playback.Processor.constructor | public/audio-out-worklet.js:4-6 | the processor owns a fresh, empty queue |
| Playback.Processor.OnMessage | public/audio-out-worklet.js:7-16 | the chunk is pushed as one frame of its samples scaled to floats, and the pending stream grows by them |
| Playback.Processor.FillSlot | public/audio-out-worklet.js:24-27 | one output slot gets the next sample, or 0 when the pull is undefined; earlier slots are unchanged |
| Playback.SlotStep | public/audio-out-worklet.js:22-29 | one slot's pull advances the read count by exactly the sample it consumes; with no empty frames, slot i carries stream sample i, or 0 once the stream is spent |
| Playback.Processor.Process | public/audio-out-worklet.js:19-31 | every slot is filled by one pull, always keep-alive; the pulled samples are a prefix of the pending stream; with no empty frames, slot j holds pending sample j, or 0 once they run out |
| Audio.TotalLength | src/utils/audio.js:84 | the reduce over chunk lengths; Audio.TotalLengthIsConcatLength states its value |
| Audio.TotalLengthIsConcatLength | src/utils/audio.js:84 | the reduce over chunk lengths counts exactly the samples of the concatenated chunks |
| Audio.TypedArraySet | src/utils/audio.js:89 | a.set(src, offset) copies src in at offset and leaves the rest unchanged |
| Audio.AudioStreamBuffer.constructor | src/utils/audio.js:71-74 | no chunks, sample rate 16000 |
| Audio.AudioStreamBuffer.AddChunk | src/utils/audio.js:76-78 | the chunk goes at the end; the earlier chunks are kept |
| Audio.AudioStreamBuffer.GetCompleteAudio | src/utils/audio.js:80-94 | null exactly when there are no chunks; otherwise all chunks concatenated in order, of total length; the chunks are not modified |
| Audio.AudioStreamBuffer.Clear | src/utils/audio.js:96-98 | no chunks remain, so the next getCompleteAudio is null |
| Audio.Quantise | src/utils/audio.js:60-67 | the conversion keeps the length and converts each sample on its own |
| Audio.Float32ToInt16 | src/utils/audio.js:60-67 | the filled Int16Array is every float sample converted, in order |
| Audio.QuantiseRoundTrip | src/utils/audio.js:60-67 | each in-range sample, recorded and then played back, is off by less than one quantisation step |
| Audio.ChunkBytes | src/utils/audio.js:39-42 | a chunk has two bytes per frame sample, and read as Int16 it is the converted frame |
| Audio.RecorderEventsShape | src/utils/audio.js:33-42 | onRecordingStarted fires exactly once, on the first frame and before its chunk; chunk i is frame i |
| Audio.Recorder.constructor | src/utils/audio.js:27-32 | not started, attached, no callbacks made |
| Audio.Recorder.OnAudioProcess | src/utils/audio.js:33-42 | the latch fires only on the first frame, then the frame's chunk is delivered; the callback log stays RecorderEvents of the frames |
| Audio.Recorder.Stop | src/utils/audio.js:49-55 | the handler is detached and stop is counted; the callbacks made stay made |
| Audio.AudioOut.constructor | src/utils/audio.js:4-15 | nothing posted, not stopped |
| Audio.AudioOut.EnqueueAudioChunk | src/utils/audio.js:16 | the chunk is posted to the worklet, after the earlier ones |
| Audio.AudioOut.Stop | src/utils/audio.js:18-22 | the audio graph is torn down once more; nothing more is posted |
| Deepgram.EntryOf | src/utils/deepgram.js:114-126 | the transcript entry built from one recognition message, if any; Deepgram.EntryOfSpec states when there is one and what it holds |
| Deepgram.EntryOfSpec | src/utils/deepgram.js:114-126 | an entry comes exactly from a first alternative with non-blank text; it carries that text, the speaker label and the time, isFinal from the message, and confidence defaulting to 0 |
| Deepgram.SameUtterance | src/utils/deepgram.js:132-134 | the some() test: equal trimmed text, same speaker, timestamps less than 2000 ms apart; Deepgram.SameUtteranceSymmetric states its symmetry |
| Deepgram.IsDuplicate | src/utils/deepgram.js:131-135 | some buffered entry is the same utterance; Deepgram.AppendKeepsDuplicateFree and HandleTranscriptMessage use it |
| Deepgram.SameUtteranceSymmetric | src/utils/deepgram.js:131-135 | the duplicate relation does not depend on which entry is already buffered |
| Deepgram.AppendKeepsDuplicateFree | src/utils/deepgram.js:131-140 | appending an entry that is no duplicate keeps the buffer free of repeated utterances |
| Deepgram.EveryThird | src/utils/deepgram.js:201-206 | floor(n/3) samples, with out[i] = in[3i] |
| Deepgram.ResampleUserAudio | src/utils/deepgram.js:195-209 | the result holds floor(floor(n/2)/3) samples, sample i being input sample 3i |
| Deepgram.DeepgramClient.constructor | src/utils/deepgram.js:4-12 | no sockets, not connected, empty buffer, no token, nothing logged |
| Deepgram.DeepgramClient.Connect | src/utils/deepgram.js:14-57 | when the token request succeeds the token is kept and both sockets are created; when it fails the sockets and token are unchanged; either way isConnected becomes true |
| Deepgram.DeepgramClient.SocketStateChanged | src/utils/deepgram.js:59-75 | a socket processAudio picks for the speaker that is not CLOSED moves to the new state, keeping its log; the other socket, the buffer, the token and both flags are unchanged |
| Deepgram.DeepgramClient.HandleTranscriptMessage | src/utils/deepgram.js:109-152 | only a final, non-blank, non-duplicate transcript grows the buffer, by exactly that entry at the end, and is emitted once; anything else changes nothing |
| Deepgram.DeepgramClient.ProcessAudio | src/utils/deepgram.js:154-193 | audio goes to the user socket exactly when the speaker is "user", else to the assistant socket, and only when that socket is OPEN and the format is supported; a missing or closed target sets the log-once flag, which never clears |
| Deepgram.DeepgramClient.GetFullTranscript | src/utils/deepgram.js:218-220 | the buffer, which holds only final, non-blank entries, no two of them the same utterance |
| Deepgram.DeepgramClient.ClearTranscript | src/utils/deepgram.js:222-224 | the buffer is emptied; nothing else changes |
| Deepgram.DeepgramClient.Disconnect | src/utils/deepgram.js:226-239 | both sockets null, not connected, no token; present sockets are closed; a second call closes nothing |
| Downstream.FiltersAppend | src/utils/deepgram.js:268-294 | queueing a message appends it to the queue of its type only |
| Downstream.QueueableAppend | src/utils/deepgram.js:268-294 | only audio and transcript messages are queued |
| Downstream.FiltersKind | src/utils/deepgram.js:268-294 | the audio queue holds only audio messages, and the transcript queue only transcripts |
| Downstream.FlushOrderIsPermutation | src/utils/deepgram.js:296-310 | flushing sends every queued message exactly once: the flush order is a permutation of the arrival order |
| Downstream.AllAudio | src/utils/deepgram.js:268-280 | with only audio queued, the audio queue is the arrival order and there are no transcripts |
| Downstream.InOrderWhenGrouped | src/utils/deepgram.js:296-310 | when no transcript arrived before an audio message, the flush keeps the arrival order |
| Downstream.FlushKeepsOrderIff | src/utils/deepgram.js:299-308 | the flush keeps the arrival order exactly when no transcript was queued before an audio message |
| Downstream.FlushReordersExample | src/utils/deepgram.js:299-308 | a transcript queued before an audio chunk is sent after it |
| Downstream.DownstreamConnection.constructor | src/utils/deepgram.js:244-248 | no socket, both queues empty |
| Downstream.DownstreamConnection.Connect | src/utils/deepgram.js:250-266 | a new CONNECTING socket, unless its constructor rejects the URL; the queues are kept |
| Downstream.DownstreamConnection.SocketStateChanged | src/utils/deepgram.js:260-262 | a state other than OPEN reaches the socket, keeping its log; the queues are unchanged (opening is OnOpen) |
| Downstream.DownstreamConnection.OnOpen | src/utils/deepgram.js:255-258 | the CONNECTING socket becomes OPEN and everything queued is sent in flush order; both queues end empty |
| Downstream.DownstreamConnection.SendAudio | src/utils/deepgram.js:268-280 | sent at once when OPEN, otherwise appended to the audio queue; the transcript queue is untouched |
| Downstream.DownstreamConnection.SendTranscript | src/utils/deepgram.js:282-294 | sent at once when OPEN, otherwise appended to the transcript queue; the audio queue is untouched |
| Downstream.DownstreamConnection.FlushQueues | src/utils/deepgram.js:296-310 | when OPEN, all queued audio and then all queued transcripts are sent, each FIFO, and both queues end empty; otherwise nothing changes |
| Downstream.DownstreamConnection.SendCallEnd | src/utils/deepgram.js:312-321 | call-ended is sent only when OPEN and is never queued |
| Downstream.DownstreamConnection.Disconnect | src/utils/deepgram.js:323-334 | call-end is signalled when OPEN, the socket is closed and both queues are dropped |
| Synthflow.GetSessionToken | src/utils/synthflow.js:17-30 | throws exactly when the fetch fails or the response is not ok; otherwise yields the body's sessionURL |
| Synthflow.SynthflowClient.constructor | src/utils/synthflow.js:7-15 | no socket, no controls, inactive, an empty stream buffer |
| Synthflow.SynthflowClient.Connect | src/utils/synthflow.js:32-47 | "connecting" first; the call reaches the wait for the recorder exactly when the token request and the audio out succeed and the socket constructor accepts the URL (a missing sessionURL included); the audio out is new exactly when the first two stages succeed, and a CONNECTING socket is held exactly when the call reaches the wait; otherwise "error" follows and the rest is as before; the session flag and the recorder are unchanged |
| Synthflow.SynthflowClient.ConnectResumed | src/utils/synthflow.js:48-57 | when the recorder starts it is held, fresh, and the session is active whatever the socket and audio out are by then; otherwise "error" follows and the flag and recorder are unchanged; the socket and audio out are untouched |
| Synthflow.SynthflowClient.SocketStateChanged | src/utils/synthflow.js:61-63 | only the socket's state changes, and a CLOSED socket stays closed |
| Synthflow.SynthflowClient.OnMessage | src/utils/synthflow.js:65-96 | a binary frame is played, stored, streamed downstream and sent for transcription as "assistant"; a status_agent_ready text reports "active"; any other text changes nothing |
| Synthflow.SynthflowClient.OnError | src/utils/synthflow.js:98-101 | "error" is reported; nothing else changes |
| Synthflow.SynthflowClient.OnClose | src/utils/synthflow.js:103-107 | "ended" is reported, then cleanup runs |
| Synthflow.SynthflowClient.SendWhenReady | src/utils/synthflow.js:127-136 | dropped on a CLOSED socket, sent exactly once on an OPEN one, otherwise retried later; with no socket, reading readyState throws |
| Synthflow.SynthflowClient.RetryTimerFired | src/utils/synthflow.js:134 | the oldest pending retry runs sendWhenReady again with its message |
| Synthflow.SynthflowClient.OnAudioProcess | src/utils/synthflow.js:110-125 | on the first frame the client-ready message goes through sendWhenReady; each chunk goes to the agent and to transcription as "user" only while the socket is OPEN |
| Synthflow.SynthflowClient.Cleanup | src/utils/synthflow.js:164-175 | each held control is stopped exactly once and dropped; no socket, inactive; a second call stops nothing |
| Synthflow.SynthflowClient.Disconnect | src/utils/synthflow.js:156-162 | the socket, when there is one, is closed, then cleanup runs |
| Synthflow.SynthflowClient.IsActive | src/utils/synthflow.js:177-179 | the session flag; an active session holds a recorder, but not necessarily a socket or audio out |
| Synthflow.CloseWhileRecordingStarts | src/utils/synthflow.js:43-51 | a socket that closes while connect waits for the recorder leaves isActive true with no socket and no audio output |
| Server.IsProduction | server/server.js:209-212 | the production test over NODE_ENV, the two Azure variables and PORT; Server.PortMakesProduction states the PORT case |
| Server.PortMakesProduction | server/server.js:209-212 | any non-empty PORT makes the server production |
| Server.RequestProtocol | server/server.js:317 | x-forwarded-proto when set, else https exactly on a TLS connection |
| Server.WebSocketUrl | server/server.js:316-323 | in production "<wsProto>://<host>", with wss exactly when the scheme is https; otherwise ws://localhost:8080 |
| Server.ForwardedHeaderWins | server/server.js:317-318 | a forwarded "http" header wins over a TLS connection |
| Server.UpstreamErrorStatus | server/server.js:95 | the upstream status when there is one, else 500 |
| Server.UpstreamErrorMessage | server/server.js:94 | the upstream body's error when set, else the error's message, else a fixed text; never empty |
| Server.SessionRoute | server/server.js:55-102 | 500 without an API key, checked before the assistant id; 400 without an assistant id; the upstream body when it answers; otherwise the mapped status, message and details |
| Server.LogCheckThrows | server/server.js:249 | the transcript log check throws on null, and in production on a transcript without text; Server.LogCheckThrowsCases states the cases |
| Server.LogCheckThrowsCases | server/server.js:249 | outside production only null throws; another message type throws only when null; in production a transcript throws exactly when its text is missing |
| Server.RecipientCountSpec | server/server.js:271-276 | the number of sends is the number of OPEN clients, minus one when the excluded client is OPEN |
| Server.Hub.constructor | server/server.js:234-237 | no clients; production as decided from the environment |
| Server.Hub.AcceptConnection | server/server.js:239-240 | the new client joins OPEN with nothing sent |
| Server.Hub.ClientStateChanged | server/server.js:260-262 | only that client's state changes |
| Server.Hub.BroadcastToDownstream | server/server.js:270-283 | exactly the OPEN clients other than the excluded one get the message, once each; sentCount counts them; raised tells whether the closing log check throws |
| Server.Hub.OnClientMessage | server/server.js:244-258 | a message that parses and passes the log check goes to every other OPEN client; anything else is dropped with no send |
| CallWidget.JsRemainder | src/components/CallWidget.js:255 | JavaScript's % agrees with modulo for a non-negative dividend and is non-positive, above -n, for a negative one |
| CallWidget.JsRemainderOdd | src/components/CallWidget.js:255 | negating the dividend negates the remainder |
| CallWidget.JsRemainderNegative | src/components/CallWidget.js:255 | -1 % 60 is -1, where modulo gives 59 |
| CallWidget.PaddedDigits | src/components/CallWidget.js:259 | a padded number is at least two digits that read back as the number |
| CallWidget.TwoDigits | src/components/CallWidget.js:259 | below 100 the padded number is exactly two digits |
| CallWidget.TimerDisplayReadBack | src/components/CallWidget.js:253-255 | the displayed seconds are below 60, and 60 times the minutes plus the seconds is the elapsed time |
| CallWidget.ColonJoin | src/components/CallWidget.js:259 | padded minutes and two-digit seconds joined by a colon form a display of the elapsed time |
| CallWidget.TimerText | src/components/CallWidget.js:252-259 | the MM:SS text of the elapsed time; CallWidget.TimerTextSpec and CallWidget.ClockMovedBack state its forms |
| CallWidget.TimerTextSpec | src/components/CallWidget.js:250-260 | for a non-negative elapsed time the text is MM:SS of the whole seconds elapsed: digits, a colon, seconds below 60 |
| CallWidget.ClockMovedBackParts | src/components/CallWidget.js:253-255 | one second before the start, floor division and JavaScript % give minutes -1 and seconds -1 |
| CallWidget.MinusOneText | src/components/CallWidget.js:259 | String(-1) is already two characters long, so padding keeps it |
| CallWidget.ClockMovedBack | src/components/CallWidget.js:250-260 | a start time one second in the future shows "-1:-1" |
| CallWidget.AssistantIdOrDefault | src/components/CallWidget.js:63 | the page's assistant id when it is a non-empty string, else the default; never empty |
| CallWidget.ConnectClients | src/components/CallWidget.js:66-85 | fresh clients; the transcription client always ends up connected; the agent connect reaches its wait for the recorder exactly when the token request, the audio out and the socket constructor succeed, with the agent session not yet active |
| CallWidget.CallState.constructor | src/components/CallWidget.js:3-11 | inactive, closed widget, no clients, no timer |
| CallWidget.CallState.InitializeCallWidget | src/components/CallWidget.js:14-40 | nothing without the widget element; otherwise the widget opens, and a relay connection is made when a URL is stored; the call, timer, UI state, status log and display are unchanged |
| CallWidget.CallState.StartCallTimer | src/components/CallWidget.js:233-236 | the start time is now and the timer runs |
| CallWidget.CallState.StopCallTimer | src/components/CallWidget.js:238-248 | no timer, no start time, "00:00" shown |
| CallWidget.CallState.UpdateTimer | src/components/CallWidget.js:250-261 | nothing without a start time (or with the start time 0); otherwise the timer text of the elapsed milliseconds |
| CallWidget.CallState.HandleTranscript | src/components/CallWidget.js:220-230 | every transcript, final or not, goes to the relay connection when there is one |
| CallWidget.CallState.StartCall | src/components/CallWidget.js:58-85 | "connecting" first; fresh clients, the transcription client connected whatever it does; the call is suspended at the agent's wait for the recorder exactly when the token request, the audio out and the socket constructor succeed; otherwise "error" is reported and the call stays as it was |
| CallWidget.CallState.StartCallResumed | src/components/CallWidget.js:85-97 | when the recorder starts, the timer runs, the call is active and the UI "active", whatever the agent socket did meanwhile; otherwise "error" is reported and the call stays as it was |
| CallWidget.CallState.EndCall | src/components/CallWidget.js:101-118 | whichever clients exist are disconnected, and each socket they held is returned closed; call-ended is sent downstream when OPEN; the timer stops; inactive, UI "ended" |
| CallWidget.CallState.ToggleCall | src/components/CallWidget.js:49-55 | ends the call exactly when one is active; otherwise starts one, which stays inactive and shows "connecting" exactly while suspended at the agent's wait for the recorder |
| ConfigHelper.PlaceholderName | config-helper.js:81 | the lower-cased name with spaces as underscores, character by character; it holds no space and no upper-case letter |
| ConfigHelper.PlaceholderFor | config-helper.js:81 | "your_", the name's placeholder spelling, "_here" |
| ConfigHelper.PlaceholderNameAppend | config-helper.js:81 | the spelling of a concatenation is the concatenation of the spellings |
| ConfigHelper.PlaceholderForPieces | config-helper.js:81 | a placeholder assembled from the spellings of two pieces of the name |
| ConfigHelper.IsConfigured | config-helper.js:81 | a value is set, non-empty and not the placeholder; ConfigHelper.CheckConfigs and ConfigHelper.TemplateReport state it per setting |
| ConfigHelper.CheckConfigs | config-helper.js:78-89 | each setting's status is the placeholder test; allConfigured holds exactly when every setting passes |
| ConfigHelper.SynthflowKeyPlaceholder | config-helper.js:18-27 | the Synthflow key's placeholder is its template value |
| ConfigHelper.DeepgramKeyPlaceholder | config-helper.js:18-27 | the Deepgram key's placeholder is its template value |
| ConfigHelper.AssistantIdPlaceholder | config-helper.js:18-27 | the assistant id's placeholder is "your_synthflow_assistant_id_here", not the template value |
| ConfigHelper.TemplateReport | config-helper.js:78-89 | on the untouched template both API keys count as not configured and the assistant id counts as configured |
| ConfigHelper.TemplateServerIsProduction | config-helper.js:26-27 | the template's PORT makes the server production despite NODE_ENV=development |

## Left out

- Float samples are reals: float32 rounding, NaN and infinities are not modelled.
- Pcm.ToBytes, ResampleUserAudio: the byte view assumes a little-endian platform. The error a Uint8Array at an odd byte offset raises in `resampleUserAudio` is not modelled.
- Strings are sequences of UTF-16 code units as Dafny `char`s. `toLowerCase` is modelled for ASCII letters only (JsString.ToLowerAscii). That is exact for the three setting names the helper uses.
- JSON text is not modelled. Messages arrive already parsed, as datatypes whose fields are the ones the code reads. Messages sent on sockets are kept as values, not as their `JSON.stringify` text. A non-string transcript field counts as no transcript.
- The Web Audio API (`AudioContext`, `ScriptProcessorNode`, `AudioWorkletNode`, `getUserMedia`) and the worklet's cross-thread `postMessage` are left out. The recorder and the worklet are driven by explicit `OnAudioProcess`, `OnMessage` and `Process` calls, and `startAudioOut` is the log of posted chunks.
- WebSocket construction and scheduling are not modelled. A socket is a ready state and a sent log. State changes are explicit calls. The 10-second wait in Deepgram's `waitForConnection` is the states passed to `Connect`; a socket that opens after the wait, or closes mid-call, is a later `SocketStateChanged` call. Deepgram's message handlers are `HandleTranscriptMessage` calls.
- `setTimeout` and `setInterval` are not modelled: the 50 ms retry is `RetryTimerFired`, and a timer tick is `UpdateTimer`. `Date.now()` and ISO timestamps are the integer `now`.
- `fetch`, axios and the upstream APIs are not modelled: their outcomes are arguments (`FetchOutcome`, `TokenResponse`, `UpstreamOutcome`). The session URL's contents are not modelled. Whether the `new WebSocket` constructor accepts it is the argument `urlAccepted`; a missing URL resolves as the relative URL "undefined" and is accepted.
- Express, Auth0 and static serving are left out, and so are the server's other routes (calls, Deepgram token, health, debug), the HTML routes and src/utils/auth.js. They are I/O glue.
- Console output and the `Math.random` sampled logging are left out.
- The DOM is left out: `updateCallUI` is its last argument (`uiState`), `updateCallStatus` is the `statusUpdates` log, and the timer element is assumed present.
- The `.env` file steps and the printed instructions of config-helper.js are left out. Settings arrive as values.
- The downstream hub identifies clients by their index in the client set, and `excludeClient` is such an index. An incoming message's `toString` and its 100-character log excerpt are not modelled.
- Server.WebSocketUrl: the `Host` header is assumed present.
- `window.deepgramClient` and `window.downstreamConnection` are the nullable arguments `dg` and `ds` of the agent session's handlers. The widget's transcript callback fan-out (`onTranscriptUpdate`, `onTranscript` into `handleTranscript`) is not wired between the objects: `HandleTranscriptMessage` returns the entry and `CallState.HandleTranscript` takes it.
- Promise rejections are left out. A failing `connect` returns `false` instead of throwing. `startCall`'s `catch` is its `!pending` or `!ok` branch.
- Only the last `await` of the agent session's `connect` lets socket events in. The earlier ones (the token fetch, the audio output) run before its socket exists.
- Clients created by a failed or repeated `startCall` are replaced without being disconnected, and their sockets and timers are not modelled after that.
- Playback.Processor.Process: the number of samples consumed is a ghost result. When the queue holds empty frames, the contract states only that the consumed samples form a prefix of the pending stream.
