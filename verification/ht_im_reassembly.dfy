/** The socket listener of `HtImUpstreamConnector`: chunks into frames. */
module HtImReassembly {
  import opened ByteStrings

  datatype Chunk = Chunk(data: Bytes, last: bool)

  /** A frame is complete when a chunk says it is the last one. */
  function OnChunk(buffer: Bytes, c: Chunk): (r: (Bytes, seq<Bytes>)) {
    if c.last then ([], [buffer + c.data]) else (buffer + c.data, [])
  }

  /** The frames a listener passes on while it receives `chunks`, and the bytes it still holds. */
  function Reassembled(buffer: Bytes, chunks: seq<Chunk>): (r: (Bytes, seq<Bytes>))
    decreases chunks
  {
    if chunks == [] then (buffer, [])
    else
      var step := OnChunk(buffer, chunks[0]);
      var rest := Reassembled(step.0, chunks[1..]);
      (rest.0, step.1 + rest.1)
  }

  function Payloads(chunks: seq<Chunk>): Bytes {
    if chunks == [] then [] else chunks[0].data + Payloads(chunks[1..])
  }

  function Concat(parts: seq<Bytes>): Bytes {
    if parts == [] then [] else parts[0] + Concat(parts[1..])
  }

  function Joined(cuts: seq<seq<Chunk>>): seq<Chunk> {
    if cuts == [] then [] else cuts[0] + Joined(cuts[1..])
  }

  ghost predicate IsCutOf(chunks: seq<Chunk>, frame: Bytes) {
    && chunks != []
    && Payloads(chunks) == frame
    && forall i :: 0 <= i < |chunks| ==> (chunks[i].last <==> i == |chunks| - 1)
  }

  ghost predicate AreCutsOf(cuts: seq<seq<Chunk>>, frames: seq<Bytes>) {
    |cuts| == |frames| && forall i :: 0 <= i < |cuts| ==> IsCutOf(cuts[i], frames[i])
  }

  lemma {:induction false} OneFrame(buffer: Bytes, chunks: seq<Chunk>, more: seq<Chunk>)
    requires chunks != []
    requires forall i :: 0 <= i < |chunks| ==> (chunks[i].last <==> i == |chunks| - 1)
    ensures var rest := Reassembled([], more);
            Reassembled(buffer, chunks + more) == (rest.0, [buffer + Payloads(chunks)] + rest.1)
    decreases chunks
  {
    assert (chunks + more)[1..] == chunks[1..] + more;
    if |chunks| == 1 {
      assert chunks[1..] + more == more;
      assert Payloads(chunks) == chunks[0].data + Payloads(chunks[1..]) == chunks[0].data;
    } else {
      OneFrame(buffer + chunks[0].data, chunks[1..], more);
      assert (buffer + chunks[0].data) + Payloads(chunks[1..]) == buffer + Payloads(chunks);
      assert [] + Reassembled(buffer + chunks[0].data, chunks[1..] + more).1 == Reassembled(buffer + chunks[0].data, chunks[1..] + more).1;
    }
  }

  /** However each frame is cut, exactly the original frames come out, in order, and nothing is left over. */
  lemma {:induction false} ReassemblyIsExact(frames: seq<Bytes>, cuts: seq<seq<Chunk>>)
    requires AreCutsOf(cuts, frames)
    ensures Reassembled([], Joined(cuts)) == ([], frames)
  {
    if cuts != [] {
      assert IsCutOf(cuts[0], frames[0]);
      ReassemblyIsExact(frames[1..], cuts[1..]);
      OneFrame([], cuts[0], Joined(cuts[1..]));
      assert [] + frames[0] == frames[0];
      assert frames == [frames[0]] + frames[1..];
    }
  }

  /** No chunk sequence, however it is flagged, loses, repeats or reorders a byte. */
  lemma {:induction false} ReassemblyConserves(buffer: Bytes, chunks: seq<Chunk>)
    ensures var r := Reassembled(buffer, chunks); Concat(r.1) + r.0 == buffer + Payloads(chunks)
    decreases chunks
  {
    if chunks != [] {
      var step := OnChunk(buffer, chunks[0]);
      ReassemblyConserves(step.0, chunks[1..]);
      var rest := Reassembled(step.0, chunks[1..]);
      assert buffer + Payloads(chunks) == (buffer + chunks[0].data) + Payloads(chunks[1..]);
      if chunks[0].last {
        assert (step.1 + rest.1)[1..] == rest.1;
        assert Concat(step.1 + rest.1) + rest.0 == (buffer + chunks[0].data) + (Concat(rest.1) + rest.0);
      } else {
        assert step.1 + rest.1 == rest.1;
      }
    }
  }
}
