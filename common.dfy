/** Shared vocabulary of the call relay: optional values, the WebSocket
    ready states and a socket seen from the sending side. */
module Common {

  datatype Option<+T> = None | Some(value: T)

  /** The four `readyState` values of a browser or `ws` WebSocket. */
  datatype ReadyState = Connecting | Open | Closing | Closed

  /** A socket as its owner sees it: a ready state, driven by the network,
      and the log of every message handed to `send`, oldest first. */
  datatype Socket<M> = Socket(readyState: ReadyState, sent: seq<M>)
  {
    predicate IsOpen() { readyState == Open }

    /** `ws.send(m)`: the message joins the outgoing log. */
    function Send(m: M): (s: Socket<M>)
      ensures s.readyState == readyState && s.sent == sent + [m]
    {
      Socket(readyState, sent + [m])
    }

    /** `ws.close()`: starts the closing handshake unless already closed;
        nothing already sent is taken back. */
    function Close(): (s: Socket<M>)
      ensures s.sent == sent
      ensures s.readyState == if readyState == Closed then Closed else Closing
      ensures !s.IsOpen()
    {
      if readyState == Closed then this else Socket(Closing, sent)
    }
  }

  /** A socket freshly built by `new WebSocket(url)`. */
  function NewSocket<M>(): (s: Socket<M>)
    ensures s.readyState == Connecting && s.sent == []
  {
    Socket(Connecting, [])
  }

  /** A socket that is present and OPEN, as checked by
      `ws && ws.readyState === WebSocket.OPEN`. */
  predicate IsOpenSocket<M>(ws: Option<Socket<M>>) {
    ws.Some? && ws.value.IsOpen()
  }

  /** All frames of `s`, one after the other. */
  function Concat<T>(s: seq<seq<T>>): seq<T> {
    if s == [] then [] else s[0] + Concat(s[1..])
  }

  lemma {:induction false} ConcatAppend<T>(s: seq<seq<T>>, a: seq<T>)
    ensures Concat(s + [a]) == Concat(s) + a
  {
    if s == [] {
      assert [a][1..] == [];
    } else {
      assert (s + [a])[1..] == s[1..] + [a];
      ConcatAppend(s[1..], a);
    }
  }

  /** Splitting a sequence of frames splits their concatenation. */
  lemma {:induction false} ConcatSplit<T>(s: seq<seq<T>>, k: nat)
    requires k <= |s|
    ensures Concat(s) == Concat(s[..k]) + Concat(s[k..])
  {
    if k > 0 {
      assert s[..k][0] == s[0] && s[..k][1..] == s[1..][..k - 1];
      assert s[k..] == s[1..][k - 1..];
      ConcatSplit(s[1..], k - 1);
    } else {
      assert s[k..] == s;
    }
  }
}
