/** The relay to the downstream application (`DownstreamConnection`):
    audio and transcript messages go out at once while the socket is OPEN
    and wait in one queue per type otherwise; `flushQueues` empties the
    audio queue first and the transcript queue second, so queued messages
    leave grouped by type rather than in arrival order. The JSON encoding
    of a message is not modelled: the socket log holds the messages. */
module Downstream {
  import opened Common
  import opened Pcm
  import opened Deepgram

  /** The three message objects the relay builds; `timestamp` is the
      creation time in milliseconds. */
  datatype RelayMessage =
    | AudioMessage(data: seq<int16>, timestamp: int)
    | TranscriptMessage(transcript: Entry, timestamp: int)
    | CallEndedMessage(timestamp: int)

  /** The audio messages of `q`, in order (a filter written as a fold). */
  function Audios(q: seq<RelayMessage>): seq<RelayMessage> {
    if q == [] then []
    else Audios(q[..|q| - 1]) + (if q[|q| - 1].AudioMessage? then [q[|q| - 1]] else [])
  }

  /** The transcript messages of `q`, in order. */
  function Transcripts(q: seq<RelayMessage>): seq<RelayMessage> {
    if q == [] then []
    else Transcripts(q[..|q| - 1]) + (if q[|q| - 1].TranscriptMessage? then [q[|q| - 1]] else [])
  }

  /** Only audio and transcript messages are ever queued. */
  predicate Queueable(q: seq<RelayMessage>) {
    forall i :: 0 <= i < |q| ==> q[i].AudioMessage? || q[i].TranscriptMessage?
  }

  /** The order in which `flushQueues` sends what was queued in the order
      `q`. */
  function FlushOrder(q: seq<RelayMessage>): seq<RelayMessage> {
    Audios(q) + Transcripts(q)
  }

  lemma FiltersAppend(q: seq<RelayMessage>, m: RelayMessage)
    ensures Audios(q + [m]) == Audios(q) + (if m.AudioMessage? then [m] else [])
    ensures Transcripts(q + [m]) == Transcripts(q) + (if m.TranscriptMessage? then [m] else [])
  {
    assert (q + [m])[..|q|] == q;
  }

  /** Queueing one more audio or transcript message. */
  lemma QueueableAppend(q: seq<RelayMessage>, m: RelayMessage)
    requires Queueable(q) && (m.AudioMessage? || m.TranscriptMessage?)
    ensures Queueable(q + [m])
  {
    var q' := q + [m];
    forall i | 0 <= i < |q'|
      ensures q'[i].AudioMessage? || q'[i].TranscriptMessage?
    {
      if i < |q| {
        assert q'[i] == q[i];
      }
    }
  }

  /** The filters keep what they promise and nothing else. */
  lemma {:induction false} FiltersKind(q: seq<RelayMessage>)
    ensures forall i :: 0 <= i < |Audios(q)| ==> Audios(q)[i].AudioMessage?
    ensures forall i :: 0 <= i < |Transcripts(q)| ==> Transcripts(q)[i].TranscriptMessage?
  {
    if q != [] {
      FiltersKind(q[..|q| - 1]);
    }
  }

  /** Flushing loses and invents nothing: the flush order is a permutation
      of the arrival order. */
  lemma {:induction false} FlushOrderIsPermutation(q: seq<RelayMessage>)
    requires Queueable(q)
    ensures multiset(FlushOrder(q)) == multiset(q)
  {
    if q != [] {
      var front, m := q[..|q| - 1], q[|q| - 1];
      assert q == front + [m];
      FlushOrderIsPermutation(front);
    }
  }

  /** A transcript queued before an audio message. */
  predicate TranscriptBeforeAudio(q: seq<RelayMessage>) {
    exists i, j :: 0 <= i < j < |q| && q[i].TranscriptMessage? && q[j].AudioMessage?
  }

  lemma {:induction false} AllAudio(q: seq<RelayMessage>)
    requires forall i :: 0 <= i < |q| ==> q[i].AudioMessage?
    ensures Audios(q) == q && Transcripts(q) == []
  {
    if q != [] {
      var front := q[..|q| - 1];
      assert q == front + [q[|q| - 1]];
      AllAudio(front);
    }
  }

  lemma {:induction false} InOrderWhenGrouped(q: seq<RelayMessage>)
    requires Queueable(q) && !TranscriptBeforeAudio(q)
    ensures FlushOrder(q) == q
  {
    if q != [] {
      var front, m := q[..|q| - 1], q[|q| - 1];
      assert q == front + [m];
      FiltersAppend(front, m);
      if m.AudioMessage? {
        forall i | 0 <= i < |front|
          ensures front[i].AudioMessage?
        {
          assert q[i] == front[i];
        }
        AllAudio(front);
        assert FlushOrder(q) == front + [m] + [];
      } else {
        InOrderWhenGrouped(front);
        assert FlushOrder(q) == (Audios(front) + Transcripts(front)) + [m];
      }
    }
  }

  /** The flush keeps the arrival order exactly when no transcript was
      queued before an audio message; otherwise it reorders. */
  lemma FlushKeepsOrderIff(q: seq<RelayMessage>)
    requires Queueable(q)
    ensures FlushOrder(q) == q <==> !TranscriptBeforeAudio(q)
  {
    if TranscriptBeforeAudio(q) {
      var i, j :| 0 <= i < j < |q| && q[i].TranscriptMessage? && q[j].AudioMessage?;
      FiltersKind(q);
      FlushOrderIsPermutation(q);
      assert |FlushOrder(q)| == |q| by {
        assert |multiset(FlushOrder(q))| == |multiset(q)|;
      }
      var n := |Audios(q)|;
      if i < n {
        assert FlushOrder(q)[i] == Audios(q)[i];
        assert FlushOrder(q)[i] != q[i];
      } else {
        assert FlushOrder(q)[j] == Transcripts(q)[j - n];
        assert FlushOrder(q)[j] != q[j];
      }
    } else {
      InOrderWhenGrouped(q);
    }
  }

  /** A transcript queued before an audio chunk is sent after it. */
  lemma FlushReordersExample(e: Entry, samples: seq<int16>)
    ensures var t, a := TranscriptMessage(e, 0), AudioMessage(samples, 1);
            FlushOrder([t, a]) == [a, t]
  {
    var t, a := TranscriptMessage(e, 0), AudioMessage(samples, 1);
    FiltersAppend([t], a);
    FiltersAppend([], t);
    assert [t, a] == [t] + [a];
    assert [t] == [] + [t];
  }

  class DownstreamConnection {
    var websocket: Option<Socket<RelayMessage>>
    var audioQueue: seq<RelayMessage>
    var transcriptQueue: seq<RelayMessage>
    /** Everything queued since the last flush or disconnect, in arrival
        order. */
    ghost var queued: seq<RelayMessage>

    ghost predicate Valid()
      reads this
    {
      && Queueable(queued)
      && audioQueue == Audios(queued)
      && transcriptQueue == Transcripts(queued)
    }

    constructor ()
      ensures Valid() && websocket == None && audioQueue == [] && transcriptQueue == []
      ensures queued == []
    {
      websocket := None;
      audioQueue := [];
      transcriptQueue := [];
      queued := [];
    }

    /** `connect(url)`: a new socket, unless the constructor rejects the
        URL (`accepted` false), in which case nothing changes. */
    method Connect(accepted: bool)
      requires Valid()
      modifies this
      ensures Valid()
      ensures websocket == if accepted then Some(NewSocket()) else old(websocket)
      ensures audioQueue == old(audioQueue) && transcriptQueue == old(transcriptQueue)
      ensures queued == old(queued)
    {
      if accepted {
        websocket := Some(NewSocket());
      }
    }

    /** The environment moves the socket to `state` other than OPEN; no
        handler of the relay runs. Opening always runs `onopen`, which is
        `OnOpen`. */
    method SocketStateChanged(state: ReadyState)
      requires Valid() && websocket.Some? && state != Open
      modifies this
      ensures Valid()
      ensures websocket == Some(Socket(state, old(websocket).value.sent))
      ensures audioQueue == old(audioQueue) && transcriptQueue == old(transcriptQueue)
      ensures queued == old(queued)
    {
      websocket := Some(Socket(state, websocket.value.sent));
    }

    /** `onopen`: the CONNECTING socket is OPEN and everything queued is
        flushed. */
    method OnOpen()
      requires Valid() && websocket.Some? && websocket.value.readyState == Connecting
      modifies this
      ensures Valid()
      ensures websocket == Some(Socket(Open, old(websocket).value.sent + FlushOrder(old(queued))))
      ensures audioQueue == [] && transcriptQueue == [] && queued == []
    {
      websocket := Some(Socket(Open, websocket.value.sent));
      FlushQueues();
    }

    /** The effect of one `sendAudio` building the message `m`. */
    twostate predicate AudioSent(m: RelayMessage)
      reads this
    {
      && (if IsOpenSocket(old(websocket)) then
            && websocket == Some(old(websocket).value.Send(m))
            && audioQueue == old(audioQueue) && queued == old(queued)
          else
            && websocket == old(websocket)
            && audioQueue == old(audioQueue) + [m] && queued == old(queued) + [m])
      && transcriptQueue == old(transcriptQueue)
    }

    /** `sendAudio`: sent at once when OPEN, else queued for audio. */
    method SendAudio(audioData: seq<int16>, now: int)
      requires Valid()
      modifies this
      ensures Valid()
      ensures AudioSent(AudioMessage(audioData, now))
    {
      var message := AudioMessage(audioData, now);
      if websocket.Some? && websocket.value.readyState == Open {
        websocket := Some(websocket.value.Send(message));
      } else {
        QueueableAppend(queued, message);
        FiltersAppend(queued, message);
        audioQueue := audioQueue + [message];
        queued := queued + [message];
      }
    }

    /** The effect of one `sendTranscript` building the message `m`. */
    twostate predicate TranscriptSent(m: RelayMessage)
      reads this
    {
      && (if IsOpenSocket(old(websocket)) then
            && websocket == Some(old(websocket).value.Send(m))
            && transcriptQueue == old(transcriptQueue) && queued == old(queued)
          else
            && websocket == old(websocket)
            && transcriptQueue == old(transcriptQueue) + [m] && queued == old(queued) + [m])
      && audioQueue == old(audioQueue)
    }

    /** `sendTranscript`: sent at once when OPEN, else queued for
        transcripts. */
    method SendTranscript(transcript: Entry, now: int)
      requires Valid()
      modifies this
      ensures Valid()
      ensures TranscriptSent(TranscriptMessage(transcript, now))
    {
      var message := TranscriptMessage(transcript, now);
      if websocket.Some? && websocket.value.readyState == Open {
        websocket := Some(websocket.value.Send(message));
      } else {
        QueueableAppend(queued, message);
        FiltersAppend(queued, message);
        transcriptQueue := transcriptQueue + [message];
        queued := queued + [message];
      }
    }

    /** `flushQueues`: when OPEN, every queued audio message is sent, then
        every queued transcript, each queue oldest first, and both queues
        end empty; otherwise nothing happens. */
    method FlushQueues()
      requires Valid()
      modifies this
      ensures Valid()
      ensures if IsOpenSocket(old(websocket)) then
                && websocket == Some(Socket(Open, old(websocket).value.sent + old(audioQueue) + old(transcriptQueue)))
                && websocket.value.sent == old(websocket).value.sent + FlushOrder(old(queued))
                && audioQueue == [] && transcriptQueue == [] && queued == []
              else
                && websocket == old(websocket) && audioQueue == old(audioQueue)
                && transcriptQueue == old(transcriptQueue) && queued == old(queued)
    {
      if websocket.Some? && websocket.value.readyState == Open {
        ghost var s0 := websocket.value.sent;
        while |audioQueue| > 0
          invariant websocket.Some? && websocket.value.readyState == Open
          invariant websocket.value.sent + audioQueue == s0 + old(audioQueue)
          invariant transcriptQueue == old(transcriptQueue)
        {
          var message := audioQueue[0];
          audioQueue := audioQueue[1..];
          websocket := Some(websocket.value.Send(message));
        }
        assert websocket.value.sent == s0 + old(audioQueue);
        ghost var s1 := websocket.value.sent;
        while |transcriptQueue| > 0
          invariant websocket.Some? && websocket.value.readyState == Open
          invariant websocket.value.sent + transcriptQueue == s1 + old(transcriptQueue)
          invariant audioQueue == []
        {
          var message := transcriptQueue[0];
          transcriptQueue := transcriptQueue[1..];
          websocket := Some(websocket.value.Send(message));
        }
        assert websocket.value.sent == s0 + old(audioQueue) + old(transcriptQueue);
        assert websocket == Some(Socket(Open, websocket.value.sent));
        queued := [];
      }
    }

    /** `sendCallEnd`: sent only when OPEN, and never queued. */
    method SendCallEnd(now: int)
      requires Valid()
      modifies this
      ensures Valid()
      ensures websocket == if IsOpenSocket(old(websocket))
                           then Some(old(websocket).value.Send(CallEndedMessage(now)))
                           else old(websocket)
      ensures audioQueue == old(audioQueue) && transcriptQueue == old(transcriptQueue)
      ensures queued == old(queued)
    {
      if websocket.Some? && websocket.value.readyState == Open {
        websocket := Some(websocket.value.Send(CallEndedMessage(now)));
      }
    }

    /** `disconnect`: call end is signalled (when OPEN), the socket is
        closed but kept, and both queues are dropped. */
    method Disconnect(now: int)
      requires Valid()
      modifies this
      ensures Valid()
      ensures websocket == if old(websocket).None? then None
                           else if old(websocket).value.IsOpen()
                           then Some(old(websocket).value.Send(CallEndedMessage(now)).Close())
                           else Some(old(websocket).value.Close())
      ensures audioQueue == [] && transcriptQueue == [] && queued == []
    {
      SendCallEnd(now);
      if websocket.Some? {
        websocket := Some(websocket.value.Close());
      }
      audioQueue := [];
      transcriptQueue := [];
      queued := [];
    }
  }
}
