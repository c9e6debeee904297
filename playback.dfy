/** The playback side of the audio-out worklet: the sample queue built by
    `getAudioBuffer` and the `Processor` whose realtime `process` callback
    drains it into the output channel. */
module Playback {
  import opened Common
  import opened Pcm

  /** No queued frame is empty. */
  predicate NoEmptyFrames<T>(s: seq<seq<T>>) {
    forall i :: 0 <= i < |s| ==> s[i] != []
  }

  /** The unread tail of the frame `current` when the read cursor is at
      `cursor` (nothing once it has passed the frame's end). */
  function UnreadOf<T>(current: Option<seq<T>>, cursor: nat): seq<T> {
    if current.Some? && cursor <= |current.value| then current.value[cursor..] else []
  }

  /** Reading inside a frame takes the sample under the cursor, and the
      rest of the stream follows from the next position. */
  lemma ReadWithinFrame<T>(c: seq<T>, k: nat, rest: seq<seq<T>>)
    requires k < |c|
    ensures var p := UnreadOf(Some(c), k) + Concat(rest);
            && p != [] && p[0] == c[k]
            && p[1..] == UnreadOf(Some(c), k + 1) + Concat(rest)
  {
    assert c[k..] == [c[k]] + c[k + 1..];
  }

  /** Shifting to the head frame and reading once: a non-empty head gives
      its first sample and leaves the rest of the stream; an empty head
      gives nothing and leaves the whole stream. */
  lemma ReadNextFrame<T>(arrays: seq<seq<T>>)
    requires arrays != []
    ensures var p, c := Concat(arrays), arrays[0];
            && (c == [] ==> p == UnreadOf(Some(c), 1) + Concat(arrays[1..]))
            && (c != [] ==> && p != [] && p[0] == c[0]
                            && p[1..] == UnreadOf(Some(c), 1) + Concat(arrays[1..]))
  {
    var c := arrays[0];
    assert Concat(arrays) == c + Concat(arrays[1..]);
    if c != [] {
      assert (c + Concat(arrays[1..]))[1..] == c[1..] + Concat(arrays[1..]);
    }
  }

  /** The closure state of `getAudioBuffer`: the queue `arrays`, the frame
      being read `currentArray` (undefined before the first pull) and the
      read cursor `samplePointer`. Frames are immutable once pushed. */
  class SampleQueue<T> {
    var arrays: seq<seq<T>>
    var samplePointer: nat
    var currentArray: Option<seq<T>>

    ghost predicate Valid()
      reads this
    {
      && (currentArray.None? ==> samplePointer == 0)
      // an empty frame is read once, which moves the cursor past its end
      && (currentArray.Some? ==>
            samplePointer <= |currentArray.value| || (currentArray.value == [] && samplePointer == 1))
    }

    /** The current frame has no unread sample: the next pull shifts. */
    predicate Exhausted()
      reads this
    {
      currentArray.None? || samplePointer >= |currentArray.value|
    }

    /** Samples not yet returned, in the order `pullSample` will return them. */
    ghost function Pending(): seq<T>
      reads this
    {
      UnreadOf(currentArray, samplePointer) + Concat(arrays)
    }

    constructor ()
      ensures Valid() && arrays == [] && currentArray == None && samplePointer == 0
      ensures Pending() == []
    {
      arrays := [];
      samplePointer := 0;
      currentArray := None;
    }

    /** `pushArray`: the frame joins the back of the queue. */
    method PushArray(a: seq<T>)
      requires Valid()
      modifies this
      ensures Valid()
      ensures arrays == old(arrays) + [a]
      ensures currentArray == old(currentArray) && samplePointer == old(samplePointer)
      ensures Pending() == old(Pending()) + a
      ensures a != [] && old(NoEmptyFrames(arrays)) ==> NoEmptyFrames(arrays)
    {
      ConcatAppend(arrays, a);
      arrays := arrays + [a];
    }

    /** One `pullSample` step, taking the queue from its old state to this
        one and returning `r`: an exhausted frame is replaced by the head of
        the queue (the cursor is reset, then moves past the sample read);
        otherwise the cursor moves by one within the frame. */
    twostate predicate Pulled(new r: Option<T>)
      reads this
    {
      if old(Exhausted()) then
        if old(arrays) == [] then
          arrays == [] && currentArray == None && samplePointer == 0 && r == None
        else
          && arrays == old(arrays)[1..] && currentArray == Some(old(arrays)[0])
          && samplePointer == 1
          && r == (if old(arrays)[0] == [] then None else Some(old(arrays)[0][0]))
      else
        && arrays == old(arrays) && currentArray == old(currentArray)
        && samplePointer == old(samplePointer) + 1
        && r == Some(old(currentArray).value[old(samplePointer)])
    }

    /** What a step means for the stream of samples. */
    twostate lemma PulledStream(new r: Option<T>)
      requires old(Valid()) && Pulled(r)
      ensures Valid()
      ensures r.None? <==> old(Exhausted()) && (old(arrays) == [] || old(arrays)[0] == [])
      ensures r.Some? ==> old(Pending()) != [] && r.value == old(Pending())[0]
                          && Pending() == old(Pending())[1..]
      ensures r.None? ==> Pending() == old(Pending())
      ensures old(NoEmptyFrames(arrays)) ==> NoEmptyFrames(arrays)
      ensures old(NoEmptyFrames(arrays)) ==> (r.None? <==> old(Pending()) == [])
    {
      if old(Exhausted()) {
        if old(arrays) != [] {
          ReadNextFrame(old(arrays));
        }
      } else {
        ReadWithinFrame(old(currentArray).value, old(samplePointer), old(arrays));
      }
    }

    /** `pullSample`: the next sample, or None (JavaScript `undefined`). */
    method PullSample() returns (r: Option<T>)
      requires Valid()
      modifies this
      ensures Valid()
      ensures arrays == if old(Exhausted()) && old(arrays) != [] then old(arrays)[1..] else old(arrays)
      ensures currentArray == if !old(Exhausted()) then old(currentArray)
                              else if old(arrays) == [] then None else Some(old(arrays)[0])
      ensures samplePointer == if !old(Exhausted()) then old(samplePointer) + 1
                               else if old(arrays) == [] then 0 else 1
      ensures r.None? <==> old(Exhausted()) && (old(arrays) == [] || old(arrays)[0] == [])
      ensures r.Some? ==> old(Pending()) != [] && r.value == old(Pending())[0]
                          && Pending() == old(Pending())[1..]
      ensures r.None? ==> Pending() == old(Pending())
      ensures old(NoEmptyFrames(arrays)) ==> NoEmptyFrames(arrays)
      ensures old(NoEmptyFrames(arrays)) ==> (r.None? <==> old(Pending()) == [])
    {
      if currentArray.None? || samplePointer >= |currentArray.value| {
        if arrays == [] {
          currentArray := None;
        } else {
          currentArray := Some(arrays[0]);
          arrays := arrays[1..];
        }
        samplePointer := 0;
      }
      if currentArray.None? {
        r := None;
      } else {
        var c := currentArray.value;
        // reading past the end of an (empty) frame gives undefined
        r := if samplePointer < |c| then Some(c[samplePointer]) else None;
        samplePointer := samplePointer + 1;
      }
      PulledStream(r);
    }
  }

  /** What slot `j` of the output carries when the samples `p` are played
      with no gaps: the sample, or silence once they run out. */
  function SampleOrSilence(p: seq<real>, j: nat): real {
    if j < |p| then p[j] else 0.0
  }

  /** The first `n` output slots when the samples `p` are played with no
      gaps. */
  function Played(p: seq<real>, n: nat): (out: seq<real>)
    ensures |out| == n && forall j :: 0 <= j < n ==> out[j] == SampleOrSilence(p, j)
  {
    seq(n, j requires 0 <= j < n => SampleOrSilence(p, j))
  }

  /** One more slot played: the output grows by that slot's sample. */
  lemma ExtendPlayed(p: seq<real>, i: nat, before: seq<real>, after: seq<real>)
    requires before == Played(p, i) && |after| == i + 1
    requires after[..i] == before && after[i] == SampleOrSilence(p, i)
    ensures after == Played(p, i + 1)
  {
    assert forall j :: 0 <= j < i ==> after[j] == after[..i][j];
  }

  /** One slot of `process` on the stream `p` of which `taken` samples are
      read (`rest` pending before the pull, `rest'` after it, `v` written):
      the read count moves with the pull, and with no empty frames the slot
      carries sample `i` of the stream, or silence. */
  lemma SlotStep(p: seq<real>, taken: nat, i: nat, rest: seq<real>, rest': seq<real>,
                 pulled: bool, v: real, noEmpty: bool)
    requires taken <= |p| && rest == p[taken..]
    requires pulled ==> rest != [] && v == rest[0] && rest' == rest[1..]
    requires !pulled ==> v == 0.0 && rest' == rest
    requires noEmpty ==> taken == (if i < |p| then i else |p|) && (pulled <==> rest != [])
    ensures var t := if pulled then taken + 1 else taken;
            && t <= |p| && rest' == p[t..]
            && (noEmpty ==> t == (if i + 1 < |p| then i + 1 else |p|) && v == SampleOrSilence(p, i))
  {
    if pulled {
      assert p[taken + 1..] == p[taken..][1..];
    }
  }

  /** The worklet processor: it owns one queue for its lifetime. */
  class Processor {
    const buffer: SampleQueue<real>

    ghost predicate Valid()
      reads this, buffer
    {
      buffer.Valid()
    }

    constructor ()
      ensures Valid() && fresh(buffer) && buffer.Pending() == [] && buffer.arrays == []
    {
      buffer := new SampleQueue<real>();
    }

    /** `port.onmessage`: an Int16Array chunk is scaled to floats and pushed
        as one frame. */
    method OnMessage(int16Array: seq<int16>)
      requires Valid()
      modifies buffer
      ensures Valid()
      ensures |buffer.arrays| == |old(buffer.arrays)| + 1
      ensures buffer.arrays[..|old(buffer.arrays)|] == old(buffer.arrays)
      ensures var f := buffer.arrays[|buffer.arrays| - 1];
              && |f| == |int16Array|
              && (forall i :: 0 <= i < |f| ==> f[i] == Int16ToFloat(int16Array[i]))
              && buffer.Pending() == old(buffer.Pending()) + f
      ensures int16Array != [] && old(NoEmptyFrames(buffer.arrays)) ==> NoEmptyFrames(buffer.arrays)
    {
      var float32Array := new real[|int16Array|];
      for i := 0 to |int16Array|
        modifies float32Array
        invariant forall j :: 0 <= j < i ==> float32Array[j] == Int16ToFloat(int16Array[j])
      {
        float32Array[i] := Int16ToFloat(int16Array[i]);
      }
      buffer.PushArray(float32Array[..]);
    }

    /** One slot of `process`: the next sample, or silence (0) when the
        pull yields undefined. */
    method FillSlot(channel: array<real>, i: nat) returns (pulled: bool)
      requires Valid() && i < channel.Length
      modifies buffer, channel
      ensures Valid()
      ensures channel[..i] == old(channel[..i])
      ensures pulled ==> && old(buffer.Pending()) != [] && channel[i] == old(buffer.Pending())[0]
                         && buffer.Pending() == old(buffer.Pending())[1..]
      ensures !pulled ==> channel[i] == 0.0 && buffer.Pending() == old(buffer.Pending())
      ensures old(NoEmptyFrames(buffer.arrays)) ==>
                NoEmptyFrames(buffer.arrays) && (pulled <==> old(buffer.Pending()) != [])
    {
      var sample := buffer.PullSample();
      pulled := sample.Some?;
      channel[i] := if pulled then sample.value else 0.0;
    }

    /** `process`: one pull per output slot, silence (0) where the pull
        yields undefined; the processor always asks to be kept alive. */
    method Process(channel: array<real>) returns (keepAlive: bool, ghost consumed: nat)
      requires Valid()
      modifies buffer, channel
      ensures Valid() && keepAlive
      ensures consumed <= channel.Length && consumed <= |old(buffer.Pending())|
      ensures buffer.Pending() == old(buffer.Pending())[consumed..]
      ensures old(NoEmptyFrames(buffer.arrays)) ==>
                forall j :: 0 <= j < channel.Length ==> channel[j] == SampleOrSilence(old(buffer.Pending()), j)
    {
      ghost var p := buffer.Pending();
      ghost var noEmpty := NoEmptyFrames(buffer.arrays);
      ghost var taken := 0;
      for i := 0 to channel.Length
        invariant Valid()
        invariant taken <= i && taken <= |p| && buffer.Pending() == p[taken..]
        invariant noEmpty ==> NoEmptyFrames(buffer.arrays)
        invariant noEmpty ==> taken == (if i < |p| then i else |p|) && channel[..i] == Played(p, i)
      {
        ghost var rest := buffer.Pending();
        ghost var before := channel[..i];
        var pulled := FillSlot(channel, i);
        SlotStep(p, taken, i, rest, buffer.Pending(), pulled, channel[i], noEmpty);
        if noEmpty {
          ExtendPlayed(p, i, before, channel[..i + 1]);
        }
        taken := if pulled then taken + 1 else taken;
      }
      assert noEmpty ==> channel[..] == Played(p, channel.Length);
      keepAlive, consumed := true, taken;
    }
  }
}
