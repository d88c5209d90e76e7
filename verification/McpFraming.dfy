/** Line framing of the MCP stdio transport: newline-delimited frames cut out of a byte stream that
    arrives in arbitrary chunks, with a bounded line buffer. */
module McpFraming {
  import opened LineSplitting
  import opened Wrappers

  type Byte = b: int | 0 <= b < 256

  const NEWLINE: Byte := 0x0a

  /** What is scheduled for one line: the line itself, or one oversize error. */
  datatype Frame = Line(bytes: seq<Byte>) | Oversized

  function FrameOf(line: seq<Byte>, limit: nat): Frame {
    if |line| > limit then Oversized else Line(line)
  }

  function FramesOf(lines: seq<seq<Byte>>, limit: nat): seq<Frame> {
    if lines == [] then [] else FramesOf(lines[..|lines| - 1], limit) + [FrameOf(lines[|lines| - 1], limit)]
  }

  /** The frames of a whole stream: one per line, and one for a trailing piece unless it is empty. */
  function Expected(stream: seq<Byte>, limit: nat): seq<Frame> {
    FramesOf(Lines(stream, NEWLINE), limit)
    + if Tail(stream, NEWLINE) == [] then [] else [FrameOf(Tail(stream, NEWLINE), limit)]
  }

  function Concat(parts: seq<seq<Byte>>): seq<Byte> {
    if parts == [] then [] else Concat(parts[..|parts| - 1]) + parts[|parts| - 1]
  }

  /** The framer of one `run`: the pieces of the current line, their size, and whether the rest of an
      oversized line is being thrown away. `stream` is a ghost record of everything read so far. */
  class LineFramer {
    const limit: nat
    var lineParts: seq<seq<Byte>>
    var lineBytes: nat
    var discarding: bool
    var scheduled: seq<Frame>
    ghost var stream: seq<Byte>

    ghost predicate Valid()
      reads this
    {
      && scheduled == FramesOf(Lines(stream, NEWLINE), limit)
      && |Concat(lineParts)| <= limit
      && (if discarding then lineParts == [] && |Tail(stream, NEWLINE)| > limit
          else Concat(lineParts) == Tail(stream, NEWLINE) && lineBytes == |Tail(stream, NEWLINE)|)
    }

    constructor (limit: nat)
      ensures Valid() && this.limit == limit && stream == []
    {
      this.limit := limit;
      lineParts, lineBytes, discarding, scheduled, stream := [], 0, false, [], [];
    }

    method Consume(part: seq<Byte>)
      requires Valid() && NEWLINE !in part
      modifies this
      ensures Valid() && stream == old(stream) + part
    {
      AppendPart(stream, part, NEWLINE);
      stream := stream + part;
      if !discarding {
        lineBytes := lineBytes + |part|;
        if lineBytes > limit {
          discarding := true;
          lineParts := [];
        } else if |part| > 0 {
          assert (lineParts + [part])[..|lineParts|] == lineParts;
          lineParts := lineParts + [part];
        }
      }
    }

    method EndLine()
      requires Valid()
      modifies this
      ensures Valid() && stream == old(stream) + [NEWLINE]
    {
      AppendMark(stream, NEWLINE);
      assert (Lines(stream, NEWLINE) + [Tail(stream, NEWLINE)])[..|Lines(stream, NEWLINE)|] == Lines(stream, NEWLINE);
      stream := stream + [NEWLINE];
      scheduled := scheduled + [if discarding then Oversized else Line(Concat(lineParts))];
      lineParts, lineBytes, discarding := [], 0, false;
    }

    /** `chunk.indexOf(0x0a, start)`. */
    static method IndexOfNewline(chunk: seq<Byte>, start: nat) returns (end: Option<nat>)
      requires start <= |chunk|
      ensures match end
              case Some(e) => start <= e < |chunk| && chunk[e] == NEWLINE && NEWLINE !in chunk[start..e]
              case None => NEWLINE !in chunk[start..]
    {
      var i := start;
      while i < |chunk|
        invariant start <= i <= |chunk| && NEWLINE !in chunk[start..i]
      {
        if chunk[i] == NEWLINE { return Some(i); }
        i := i + 1;
      }
      return None;
    }

    /** Take the rest of the current line from the chunk, if its newline is there. */
    method ReadLine(chunk: seq<Byte>, start: nat) returns (next: nat, more: bool)
      requires Valid() && start <= |chunk|
      modifies this
      ensures Valid() && start <= next <= |chunk|
      ensures stream == old(stream) + chunk[start..next]
      ensures if more then start < next else next == |chunk|
    {
      var end := IndexOfNewline(chunk, start);
      if end.None? {
        Consume(chunk[start..]);
        return |chunk|, false;
      }
      Consume(chunk[start..end.value]);
      EndLine();
      assert chunk[start..end.value + 1] == chunk[start..end.value] + [NEWLINE];
      assert old(stream) + chunk[start..end.value] + [NEWLINE] == old(stream) + (chunk[start..end.value] + [NEWLINE]);
      return end.value + 1, true;
    }

    method Read(chunk: seq<Byte>)
      requires Valid()
      modifies this
      ensures Valid() && stream == old(stream) + chunk
    {
      var start, more := 0, true;
      while more
        invariant 0 <= start <= |chunk| && (!more ==> start == |chunk|)
        invariant Valid() && stream == old(stream) + chunk[..start]
        decreases |chunk| - start, more
      {
        var next: nat;
        ghost var read := stream;
        next, more := ReadLine(chunk, start);
        assert chunk[..next] == chunk[..start] + chunk[start..next];
        assert read + chunk[start..next] == old(stream) + (chunk[..start] + chunk[start..next]);
        start := next;
      }
      assert chunk[..start] == chunk;
    }

    /** The end of the input. */
    method Finish()
      requires Valid()
      modifies this
      ensures scheduled == Expected(stream, limit) && stream == old(stream)
    {
      if discarding {
        scheduled := scheduled + [Oversized];
      } else if lineBytes > 0 {
        scheduled := scheduled + [Line(Concat(lineParts))];
      }
    }
  }

  /** Line after line of the stream is a frame, with its bytes if it is within the limit and as one oversize
      error if it is not. */
  lemma {:induction false} FramesAreLines(lines: seq<seq<Byte>>, limit: nat, k: nat)
    requires k < |lines|
    ensures |FramesOf(lines, limit)| == |lines|
    ensures |lines[k]| <= limit ==> FramesOf(lines, limit)[k] == Line(lines[k])
    ensures |lines[k]| > limit ==> FramesOf(lines, limit)[k] == Oversized
    decreases |lines|
  {
    var front := lines[..|lines| - 1];
    if k < |front| {
      FramesAreLines(front, limit, k);
    } else if front != [] {
      FramesAreLines(front, limit, 0);
    }
  }

  /** So a stream of lines and a last piece gives these frames and no other, however it is cut. */
  lemma FramesOfJoined(lines: seq<seq<Byte>>, last: seq<Byte>, limit: nat)
    requires NEWLINE !in last && forall line | line in lines :: NEWLINE !in line
    ensures var frames := Expected(Join(lines, last, NEWLINE), limit);
            && |frames| == |lines| + (if last == [] then 0 else 1)
            && (forall k | 0 <= k < |lines| ::
                  frames[k] == if |lines[k]| <= limit then Line(lines[k]) else Oversized)
            && (last != [] ==> frames[|lines|] == if |last| <= limit then Line(last) else Oversized)
  {
    JoinThenSplit(lines, last, NEWLINE);
    forall k | 0 <= k < |lines|
      ensures |FramesOf(lines, limit)| == |lines|
      ensures FramesOf(lines, limit)[k] == if |lines[k]| <= limit then Line(lines[k]) else Oversized
    {
      FramesAreLines(lines, limit, k);
    }
    if lines != [] {
      FramesAreLines(lines, limit, 0);
    }
  }

  /** Reading a stream in chunks schedules the frames of the whole stream. */
  method Run(chunks: seq<seq<Byte>>, limit: nat) returns (frames: seq<Frame>)
    ensures frames == Expected(Concat(chunks), limit)
  {
    var framer := new LineFramer(limit);
    var i := 0;
    while i < |chunks|
      invariant 0 <= i <= |chunks| && fresh(framer)
      invariant framer.Valid() && framer.limit == limit && framer.stream == Concat(chunks[..i])
    {
      assert chunks[..i + 1][..i] == chunks[..i];
      framer.Read(chunks[i]);
      i := i + 1;
    }
    assert chunks[..i] == chunks;
    framer.Finish();
    return framer.scheduled;
  }
}
