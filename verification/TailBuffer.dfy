/** The output buffer of a spawned command (src/security/exec.ts): only the most recent
    `maxBuffer` bytes of a stream are kept, as a list of chunks trimmed from the front. */
module TailBuffer {

  newtype byte = x: int | 0 <= x < 256

  function Flatten(chunks: seq<seq<byte>>): (bytes: seq<byte>)
  {
    if chunks == [] then [] else chunks[0] + Flatten(chunks[1..])
  }

  /** The last `max` elements, or everything when there are fewer. */
  function Last(max: nat, bytes: seq<byte>): (tail: seq<byte>)
  {
    if |bytes| <= max then bytes else bytes[|bytes| - max..]
  }

  lemma FlattenAppend(chunks: seq<seq<byte>>, chunk: seq<byte>)
    ensures Flatten(chunks + [chunk]) == Flatten(chunks) + chunk
  {
    if chunks == [] {
      assert chunks + [chunk] == [chunk];
      assert Flatten([chunk]) == chunk + Flatten([chunk][1..]);
    } else {
      assert (chunks + [chunk])[1..] == chunks[1..] + [chunk];
      FlattenAppend(chunks[1..], chunk);
    }
  }

  /** One captured stream of a child process: its chunk list and its byte count. */
  class OutputTail {
    const maxBuffer: nat
    var chunks: seq<seq<byte>>

    constructor (maxBuffer: nat)
      ensures this.maxBuffer == maxBuffer && chunks == []
    {
      this.maxBuffer := maxBuffer;
      chunks := [];
    }

    /** `size` is the byte count the caller kept from the previous call. */
    method AppendTail(chunk: seq<byte>, size: nat) returns (total: nat)
      requires size == |Flatten(chunks)|
      modifies this`chunks
      ensures Flatten(chunks) == Last(maxBuffer, old(Flatten(chunks)) + chunk)
      ensures total == |Flatten(chunks)|
    {
      ghost var all := Flatten(chunks) + chunk;
      FlattenAppend(chunks, chunk);
      chunks := chunks + [chunk];
      total := size + |chunk|;
      while total > maxBuffer && |chunks| > 0
        invariant total == |Flatten(chunks)| <= |all|
        invariant Flatten(chunks) == all[|all| - total..]
        invariant total >= maxBuffer || total == |all|
        decreases total - maxBuffer, |chunks|
      {
        var head := chunks[0];
        var excess := total - maxBuffer;
        assert Flatten(chunks) == head + Flatten(chunks[1..]);
        if |head| <= excess {
          chunks := chunks[1..];
          total := total - |head|;
        } else {
          ghost var rest := Flatten(chunks[1..]);
          chunks := [head[excess..]] + chunks[1..];
          total := total - excess;
          assert Flatten(chunks) == head[excess..] + rest;
        }
      }
    }
  }

  /** The stream kept after a whole sequence of `data` events. */
  function Kept(max: nat, events: seq<seq<byte>>): (tail: seq<byte>)
  {
    if events == [] then []
    else Last(max, Kept(max, events[..|events| - 1]) + events[|events| - 1])
  }

  /** Trimming after every event loses nothing that trimming once at the end would keep. */
  lemma {:induction false} KeptIsTheTailOfTheStream(max: nat, events: seq<seq<byte>>)
    ensures Kept(max, events) == Last(max, Flatten(events))
    ensures |Kept(max, events)| == if |Flatten(events)| < max then |Flatten(events)| else max
  {
    if events != [] {
      var before, chunk := events[..|events| - 1], events[|events| - 1];
      assert events == before + [chunk];
      KeptIsTheTailOfTheStream(max, before);
      FlattenAppend(before, chunk);
      LastAbsorbs(max, Flatten(before), chunk);
    }
  }

  lemma LastAbsorbs(max: nat, stream: seq<byte>, chunk: seq<byte>)
    ensures Last(max, Last(max, stream) + chunk) == Last(max, stream + chunk)
  {
  }

  /** Feeds a sequence of `data` events through the buffer, as the stdout and stderr handlers do. */
  method Capture(maxBuffer: nat, events: seq<seq<byte>>) returns (bytes: seq<byte>, size: nat)
    ensures bytes == Last(maxBuffer, Flatten(events))
    ensures size == |bytes|
  {
    var tail := new OutputTail(maxBuffer);
    size := 0;
    for i := 0 to |events|
      invariant tail.maxBuffer == maxBuffer
      invariant Flatten(tail.chunks) == Kept(maxBuffer, events[..i])
      invariant size == |Flatten(tail.chunks)|
    {
      assert events[..i + 1][..i] == events[..i];
      size := tail.AppendTail(events[i], size);
    }
    assert events[..|events|] == events;
    KeptIsTheTailOfTheStream(maxBuffer, events);
    bytes := Flatten(tail.chunks);
  }
}
