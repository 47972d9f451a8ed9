/** The stream relay: `_stream_response`, an asynchronous generator that yields the
    upstream body chunk by chunk and releases the upstream response in its
    `finally` clause. Its states are the ones a Python generator goes through:
    not yet started, suspended after a yield, and finished. */
module Relay {
  import opened Transport

  /** One pull on the generator: a chunk, the end of iteration, or the re-raised
      read error. */
  datatype Step = Yielded(chunk: Chunk) | Finished | Reraised(message: string)

  /** The bytes of a chunk sequence, in order. */
  function Concat(chunks: seq<Chunk>): seq<Byte>
  {
    if chunks == [] then [] else Concat(chunks[..|chunks| - 1]) + chunks[|chunks| - 1]
  }

  /** The chunks yielded so far spell out a prefix of the whole body. */
  lemma {:induction false} ConcatOfPrefix(chunks: seq<Chunk>, n: nat)
    requires n <= |chunks|
    ensures |Concat(chunks[..n])| <= |Concat(chunks)|
    ensures Concat(chunks)[..|Concat(chunks[..n])|] == Concat(chunks[..n])
  {
    if n < |chunks| {
      var init := chunks[..|chunks| - 1];
      ConcatOfPrefix(init, n);
      assert init[..n] == chunks[..n];
      assert Concat(chunks) == Concat(init) + chunks[|chunks| - 1];
    } else {
      assert chunks[..n] == chunks;
    }
  }

  class StreamRelay {
    /** The upstream body the relay iterates over. */
    const source: Source
    /** How many chunks have been yielded. */
    var cursor: nat
    /** The generator body has begun running (the first pull happened). */
    var started: bool
    /** The generator can yield nothing more. */
    var finished: bool
    /** How many times `response.aclose()` has run. */
    var releases: nat

    /** The release discipline: at most one release, and a release exactly when a
        generator that started has finished. */
    ghost predicate Valid()
      reads this
    {
      && cursor <= |source.chunks|
      && (!started ==> cursor == 0)
      && releases <= 1
      && (releases == 1 <==> started && finished)
    }

    /** The chunks delivered so far. */
    function Sent(): seq<Chunk>
      reads this
      requires Valid()
    {
      source.chunks[..cursor]
    }

    constructor (source: Source)
      ensures Valid()
      ensures this.source == source && cursor == 0 && !started && !finished && releases == 0
    {
      this.source := source;
      cursor := 0;
      started := false;
      finished := false;
      releases := 0;
    }

    /** One pull: the next chunk while there is one; after the last chunk the
        `finally` clause releases the response and the iteration ends, or the read
        error is re-raised. A finished generator only reports the end again. */
    method Next() returns (step: Step)
      requires Valid()
      modifies this
      ensures Valid()
      ensures old(finished) ==> step == Finished && unchanged(this)
      ensures !old(finished) && old(cursor) < |source.chunks| ==>
        && step == Yielded(source.chunks[old(cursor)])
        && cursor == old(cursor) + 1 && started && !finished && releases == old(releases)
        && Concat(Sent()) == Concat(old(Sent())) + step.chunk
      ensures !old(finished) && old(cursor) == |source.chunks| ==>
        && cursor == old(cursor) && started && finished && releases == 1
        && step == (if source.tail.Exhausted? then Finished else Reraised(source.tail.message))
        && Concat(Sent()) == Concat(source.chunks)
    {
      if finished {
        return Finished;
      }
      started := true;
      if cursor < |source.chunks| {
        step := Yielded(source.chunks[cursor]);
        assert source.chunks[..cursor + 1][..cursor] == source.chunks[..cursor];
        cursor := cursor + 1;
      } else {
        releases := releases + 1;
        finished := true;
        step := if source.tail.Exhausted? then Finished else Reraised(source.tail.message);
        assert source.chunks[..cursor] == source.chunks;
      }
    }

    /** `aclose()` on the generator, as the server does when the client goes away.
        Suspended at a yield, it runs the `finally` clause and releases the
        response. A generator that never started finishes without running its body,
        so nothing is released; a finished one is left as it is. */
    method Abort()
      requires Valid()
      modifies this
      ensures Valid() && finished
      ensures cursor == old(cursor) && started == old(started)
      ensures old(finished) ==> releases == old(releases)
      ensures !old(finished) ==> releases == (if old(started) then 1 else 0)
    {
      if !finished {
        if started {
          releases := releases + 1;
        }
        finished := true;
      }
    }
  }
}
