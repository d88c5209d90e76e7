/** Cutting a stream at a separator, and putting it back together. */
module LineSplitting {

  /** The complete lines of a stream, without their separators. */
  function Lines<T(==)>(stream: seq<T>, mark: T): seq<seq<T>> {
    if stream == [] then []
    else
      var front := stream[..|stream| - 1];
      if stream[|stream| - 1] == mark then Lines(front, mark) + [Tail(front, mark)] else Lines(front, mark)
  }

  /** What follows the last separator. */
  function Tail<T(==)>(stream: seq<T>, mark: T): seq<T> {
    if stream == [] || stream[|stream| - 1] == mark then []
    else Tail(stream[..|stream| - 1], mark) + [stream[|stream| - 1]]
  }

  /** Lines and tail put back together. */
  function Join<T>(lines: seq<seq<T>>, tail: seq<T>, mark: T): seq<T> {
    if lines == [] then tail else lines[0] + [mark] + Join(lines[1..], tail, mark)
  }

  lemma {:induction false} JoinAppends<T>(lines: seq<seq<T>>, line: seq<T>, tail: seq<T>, mark: T)
    ensures Join(lines + [line], tail, mark) == Join(lines, line + [mark] + tail, mark)
  {
    if lines == [] {
      assert ([] + [line])[1..] == [];
    } else {
      assert (lines + [line])[1..] == lines[1..] + [line];
      JoinAppends(lines[1..], line, tail, mark);
    }
  }

  lemma {:induction false} JoinExtends<T>(lines: seq<seq<T>>, tail: seq<T>, more: seq<T>, mark: T)
    ensures Join(lines, tail + more, mark) == Join(lines, tail, mark) + more
  {
    if lines != [] {
      JoinExtends(lines[1..], tail, more, mark);
      assert lines[0] + [mark] + (Join(lines[1..], tail, mark) + more)
          == lines[0] + [mark] + Join(lines[1..], tail, mark) + more;
    }
  }

  /** Splitting loses nothing and splits at every separator: the pieces hold none. */
  lemma {:induction false} SplitThenJoin<T>(stream: seq<T>, mark: T)
    ensures Join(Lines(stream, mark), Tail(stream, mark), mark) == stream
    ensures forall line | line in Lines(stream, mark) :: mark !in line
    ensures mark !in Tail(stream, mark)
  {
    if stream != [] {
      var front, last := stream[..|stream| - 1], stream[|stream| - 1];
      SplitThenJoin(front, mark);
      if last == mark {
        JoinAppends(Lines(front, mark), Tail(front, mark), [], mark);
        assert Tail(front, mark) + [mark] + [] == Tail(front, mark) + [mark];
        JoinExtends(Lines(front, mark), Tail(front, mark), [mark], mark);
      } else {
        JoinExtends(Lines(front, mark), Tail(front, mark), [last], mark);
      }
      assert stream == front + [last];
    }
  }

  /** There is no other way to cut the stream into separator-free pieces. */
  lemma {:induction false} JoinThenSplit<T>(lines: seq<seq<T>>, tail: seq<T>, mark: T)
    requires mark !in tail && forall line | line in lines :: mark !in line
    ensures Lines(Join(lines, tail, mark), mark) == lines && Tail(Join(lines, tail, mark), mark) == tail
  {
    if lines == [] {
      AppendPart([], tail, mark);
      assert [] + tail == tail;
    } else {
      var front, last := lines[..|lines| - 1], lines[|lines| - 1];
      assert front + [last] == lines;
      JoinAppends(front, last, tail, mark);
      JoinExtends(front, last + [mark], tail, mark);
      JoinExtends(front, last, [mark], mark);
      forall line | line in front ensures line in lines { }
      JoinThenSplit(front, last, mark);
      AppendMark(Join(front, last, mark), mark);
      AppendPart(Join(front, last, mark) + [mark], tail, mark);
    }
  }

  lemma {:induction false} AppendPart<T>(stream: seq<T>, part: seq<T>, mark: T)
    requires mark !in part
    ensures Lines(stream + part, mark) == Lines(stream, mark) && Tail(stream + part, mark) == Tail(stream, mark) + part
  {
    if part == [] {
      assert stream + part == stream;
    } else {
      var front := part[..|part| - 1];
      assert part == front + [part[|part| - 1]];
      assert (stream + part)[..|stream + part| - 1] == stream + front;
      AppendPart(stream, front, mark);
    }
  }

  lemma AppendMark<T>(stream: seq<T>, mark: T)
    ensures Lines(stream + [mark], mark) == Lines(stream, mark) + [Tail(stream, mark)]
            && Tail(stream + [mark], mark) == []
  {
    assert (stream + [mark])[..|stream|] == stream;
  }

  /** A stream that starts on a fresh line contributes its own lines. */
  lemma {:induction false} AppendStream<T>(stream: seq<T>, more: seq<T>, mark: T)
    requires Tail(stream, mark) == []
    ensures Lines(stream + more, mark) == Lines(stream, mark) + Lines(more, mark)
    ensures Tail(stream + more, mark) == Tail(more, mark)
  {
    if more == [] {
      assert stream + more == stream;
    } else {
      var front := more[..|more| - 1];
      assert (stream + more)[..|stream + more| - 1] == stream + front;
      AppendStream(stream, front, mark);
      if more[|more| - 1] == mark {
        assert Lines(stream, mark) + (Lines(front, mark) + [Tail(front, mark)])
            == Lines(stream, mark) + Lines(front, mark) + [Tail(front, mark)];
      }
    }
  }

  /** A cut stream has a prefix of the lines, and a proper one if the cut is before the last separator. */
  lemma {:induction false} CutLines<T>(stream: seq<T>, n: nat, mark: T)
    requires n <= |stream|
    ensures Lines(stream[..n], mark) <= Lines(stream, mark)
    ensures n < |stream| && stream[|stream| - 1] == mark ==> |Lines(stream[..n], mark)| < |Lines(stream, mark)|
  {
    if n == |stream| {
      assert stream[..n] == stream;
    } else {
      CutLines(stream[..|stream| - 1], n, mark);
      assert stream[..|stream| - 1][..n] == stream[..n];
    }
  }
}
