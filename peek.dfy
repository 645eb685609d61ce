/** PeekTransform: a stream stage that passes every byte through unchanged
    and, once, reports the first `peekBytes` bytes it has seen (or all of
    them, when the stream ends sooner). Chunks are held back only until the
    peek. */
module Peek {
  import opened Wrappers

  newtype byte = b: int | 0 <= b < 256

  /** The bytes of a sequence of chunks, in order. */
  function Concat(chunks: seq<seq<byte>>): seq<byte> {
    if chunks == [] then [] else Concat(chunks[..|chunks| - 1]) + chunks[|chunks| - 1]
  }

  function Min(a: nat, b: nat): nat {
    if a <= b then a else b
  }

  /** What came in and what went out of the stage so far is recorded in the
      ghost fields `received` (every byte given to `Transform`), `sent`
      (every byte pushed downstream) and `peeks` (the buffers carried by the
      "peek" events); `ended` is set by `Flush`. */
  class PeekTransform {
    var buffer: seq<byte>
    var peeked: bool
    const peekBytes: nat
    ghost var received: seq<byte>
    ghost var sent: seq<byte>
    ghost var peeks: seq<seq<byte>>
    ghost var ended: bool

    /** Before the peek, everything received is held in `buffer` and nothing
        has gone out; it is fewer than `peekBytes` bytes, or none at all.
        After it, everything received has gone out and the one peek holds
        the first `peekBytes` bytes. After an end without a peek, the bytes
        held have gone out and were peeked at, if there were any. */
    ghost predicate Valid()
      reads this
    {
      if peeked then
        |received| >= peekBytes && buffer == received[..peekBytes] && sent == received && peeks == [buffer]
      else if ended then
        && sent == received && peeks == (if received == [] then [] else [received])
        && (received == [] || |received| < peekBytes)
      else
        buffer == received && sent == [] && peeks == [] && (received == [] || |received| < peekBytes)
    }

    constructor (peekBytes: nat)
      ensures Valid() && !ended && !peeked
      ensures this.peekBytes == peekBytes && received == [] && sent == [] && peeks == []
    {
      buffer := [];
      peeked := false;
      this.peekBytes := peekBytes;
      received, sent, peeks, ended := [], [], [], false;
    }

    /** At the end of the stream every byte has gone out, and there was
        one peek, at the first `peekBytes` bytes or all of them, unless no
        byte came at all; then the only possible peek is an empty one, taken
        when `peekBytes` is 0 and an empty chunk came. */
    lemma Ended()
      requires Valid() && ended
      ensures sent == received
      ensures |peeks| <= 1
      ensures received != [] ==> peeks == [received[..Min(peekBytes, |received|)]]
      ensures received == [] ==> (peeks == [] <==> !peeked) && (peeks != [] ==> peeks == [[]])
    {
      assert received[..|received|] == received;
    }

    /** `_transform`: returns the chunk pushed downstream and the buffer of
        the "peek" event, when there is one. The peek happens on the chunk
        that brings the bytes seen to `peekBytes`, and pushes them all. */
    method Transform(chunk: seq<byte>) returns (pushed: Option<seq<byte>>, peek: Option<seq<byte>>)
      requires Valid() && !ended
      modifies this
      ensures Valid() && !ended
      ensures received == old(received) + chunk
      ensures sent == old(sent) + (if pushed.Some? then pushed.value else [])
      ensures peeks == old(peeks) + (if peek.Some? then [peek.value] else [])
      ensures peek.Some? <==> !old(peeked) && |received| >= peekBytes
      ensures peeked
        <==> old(peeked) || |received| >= peekBytes
      ensures pushed.Some? <==> peeked
      ensures old(peeked) ==> pushed == Some(chunk)
    {
      pushed, peek := None, None;
      if !peeked {
        var combined := buffer + chunk;
        received := received + chunk;
        if |combined| >= peekBytes {
          buffer := combined[..peekBytes];
          peeked := true;
          peek := Some(buffer);
          peeks := peeks + [buffer];
          pushed := Some(combined);
          sent := sent + combined;
        } else {
          buffer := combined;
        }
        return;
      }
      received := received + chunk;
      pushed := Some(chunk);
      sent := sent + chunk;
    }

    /** `_flush`: at the end of the stream, bytes still held back (the
        stream was shorter than `peekBytes`) are peeked at and pushed. */
    method Flush() returns (pushed: Option<seq<byte>>, peek: Option<seq<byte>>)
      requires Valid() && !ended
      modifies this
      ensures Valid() && ended
      ensures received == old(received) && peeked == old(peeked)
      ensures sent == old(sent) + (if pushed.Some? then pushed.value else [])
      ensures peeks == old(peeks) + (if peek.Some? then [peek.value] else [])
      ensures peek.Some? <==> !peeked && received != []
      ensures peek.Some? ==> pushed == peek
      ensures pushed.Some? ==> peek.Some?
    {
      pushed, peek := None, None;
      ended := true;
      if !peeked && |buffer| > 0 {
        peek := Some(buffer);
        peeks := peeks + [buffer];
        pushed := Some(buffer);
        sent := sent + buffer;
      }
    }
  }

  /** Appending what a call emitted, if anything. */
  function Emit<T>(xs: seq<T>, o: Option<T>): seq<T> {
    if o.Some? then xs + [o.value] else xs
  }

  lemma ConcatEmit(out: seq<seq<byte>>, o: Option<seq<byte>>)
    ensures Concat(Emit(out, o)) == Concat(out) + (if o.Some? then o.value else [])
    ensures out != [] ==> Emit(out, o)[0] == out[0]
  {
    if o.Some? {
      assert (out + [o.value])[..|out|] == out;
    }
  }

  /** A whole stream through the stage: the chunks come out in the same
      bytes, there is at most one peek, it holds the first `peekBytes` bytes
      (all of them if the stream is shorter), and it is never later than the
      first chunk pushed, which starts with the peeked bytes. With no bytes
      at all, the peek is of nothing and happens only when `peekBytes` is 0
      and some chunk came. */
  method Pipe(peekBytes: nat, chunks: seq<seq<byte>>) returns (out: seq<seq<byte>>, peeks: seq<seq<byte>>)
    ensures Concat(out) == Concat(chunks)
    ensures |peeks| <= 1
    ensures Concat(chunks) != [] ==> peeks == [Concat(chunks)[..Min(peekBytes, |Concat(chunks)|)]]
    ensures Concat(chunks) == [] ==> (peeks == [] <==> peekBytes > 0 || chunks == [])
    ensures Concat(chunks) == [] && peeks != [] ==> peeks == [[]]
    ensures out != [] ==> |peeks| == 1 && peeks[0] <= out[0]
  {
    var t := new PeekTransform(peekBytes);
    out, peeks := [], [];
    var i := 0;
    while i < |chunks|
      invariant 0 <= i <= |chunks|
      invariant t.Valid() && !t.ended && t.peekBytes == peekBytes
      invariant t.received == Concat(chunks[..i])
      invariant Concat(out) == t.sent && peeks == t.peeks
      invariant !t.peeked ==> out == []
      invariant out != [] ==> |peeks| == 1 && peeks[0] <= out[0]
      invariant Concat(chunks[..i]) == [] ==> (t.peeked <==> peekBytes == 0 && i > 0)
    {
      assert chunks[..i + 1][..i] == chunks[..i];
      var pushed, peek := t.Transform(chunks[i]);
      ConcatEmit(out, pushed);
      out, peeks := Emit(out, pushed), Emit(peeks, peek);
      i := i + 1;
    }
    assert chunks[..i] == chunks;
    out, peeks := Finish(t, out, peeks);
  }

  /** The end of `Pipe`: the flush, and what the whole stream has done. */
  method Finish(t: PeekTransform, out0: seq<seq<byte>>, peeks0: seq<seq<byte>>) returns (out: seq<seq<byte>>, peeks: seq<seq<byte>>)
    requires t.Valid() && !t.ended
    requires Concat(out0) == t.sent && peeks0 == t.peeks
    requires !t.peeked ==> out0 == []
    requires out0 != [] ==> |peeks0| == 1 && peeks0[0] <= out0[0]
    modifies t
    ensures Concat(out) == t.received == old(t.received)
    ensures t.peeked == old(t.peeked) && peeks == t.peeks
    ensures |peeks| <= 1
    ensures t.received != [] ==> peeks == [t.received[..Min(t.peekBytes, |t.received|)]]
    ensures t.received == [] ==> (peeks == [] <==> !t.peeked) && (peeks != [] ==> peeks == [[]])
    ensures out != [] ==> |peeks| == 1 && peeks[0] <= out[0]
  {
    var pushed, peek := t.Flush();
    t.Ended();
    ConcatEmit(out0, pushed);
    out, peeks := Emit(out0, pushed), Emit(peeks0, peek);
  }
}
