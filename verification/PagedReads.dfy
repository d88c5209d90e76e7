/** The two bounded paging loops over the ledger: the reader of one snapshot's records and the
    range reader of the preview coordinator. Both are proved equal to a plain range query. */
module PagedReads {
  import opened Wrappers
  import opened EventLedger

  const LEDGER_PAGE_SIZE: nat := 1_000
  const MAX_SNAPSHOT_RECORDS: nat := 5_000
  const MAX_SEQUENCE_SPAN: nat := 50_000

  datatype ReadError = LimitInvalid | SpanExceeded | SequenceInvalid | RangeIncomplete | TooManyRecords

  type Records = Result<seq<Record>, ReadError>

  /** Some record lies at or beyond `to`: the ledger has reached the end of the range. */
  ghost predicate Reaches(ledger: seq<Record>, to: int) {
    exists i | 0 <= i < |ledger| :: ledger[i].sequence >= to
  }

  /** What reading a snapshot's records returns: the first `limit` records of the range, and an
      incomplete range exactly when those are too few and the ledger stops short of `to`. */
  ghost function SnapshotRead(ledger: seq<Record>, session: string, from: int, to: int, limit: int): Records {
    if limit < 1 || limit > MAX_SNAPSHOT_RECORDS + 1 then Err(LimitInvalid)
    else if to - from + 1 < 1 || to - from + 1 > MAX_SEQUENCE_SPAN then Err(SpanExceeded)
    else if from < 1 then Err(SequenceInvalid)
    else
      var all := Select(ledger, session, from, to);
      if |all| < limit && !Reaches(ledger, to) then Err(RangeIncomplete)
      else Ok(FirstN(all, limit))
  }

  /** What the coordinator's range reader returns: the whole range or an error. */
  ghost function RangeRead(ledger: seq<Record>, session: string, from: int, to: int): Records {
    if to - from + 1 < 1 || to - from + 1 > MAX_SEQUENCE_SPAN then Err(SpanExceeded)
    else if from < 1 then Err(SequenceInvalid)
    else
      var all := Select(ledger, session, from, to);
      if |all| > MAX_SNAPSHOT_RECORDS then Err(TooManyRecords)
      else if !Reaches(ledger, to) then Err(RangeIncomplete)
      else Ok(all)
  }

  /** The range reader succeeds exactly when a snapshot read asking for one record more than the
      maximum returns no more than the maximum, and then both return the same records. */
  lemma RangeReadAgreesWithSnapshotRead(ledger: seq<Record>, session: string, from: int, to: int)
    ensures var wide := SnapshotRead(ledger, session, from, to, MAX_SNAPSHOT_RECORDS + 1);
            var range := RangeRead(ledger, session, from, to);
            && (range.Ok? <==> wide.Ok? && |wide.value| <= MAX_SNAPSHOT_RECORDS)
            && (range.Ok? ==> range == wide)
            && (wide.Err? ==> range == wide)
            && (range == Err(TooManyRecords) <==> wide.Ok? && |wide.value| == MAX_SNAPSHOT_RECORDS + 1)
  {
  }

  lemma FirstNConcat(a: seq<Record>, b: seq<Record>, n: nat)
    ensures FirstN(FirstN(a, n) + b, n) == FirstN(a + b, n)
  {
  }

  /** Before record `j` of a page: everything of the session so far has been appended. */
  ghost predicate Collecting(page: seq<Record>, session: string, records: seq<Record>, j: nat, collected: seq<Record>) {
    j <= |page| && collected == records + Own(page[..j], session)
  }

  lemma CollectingNext(page: seq<Record>, session: string, records: seq<Record>, j: nat, collected: seq<Record>)
    requires Collecting(page, session, records, j, collected) && j < |page|
    ensures Collecting(page, session, records, j + 1,
                       if page[j].session == session then collected + [page[j]] else collected)
  {
    assert page[..j + 1] == page[..j] + [page[j]];
    OwnAppends(page[..j], page[j], session);
  }

  /** A full result is the first part of what the whole page would give. */
  lemma CollectedIsFirst(page: seq<Record>, session: string, records: seq<Record>, j: nat, end: nat,
                         collected: seq<Record>, limit: nat)
    requires Collecting(page, session, records, j, collected) && j <= end <= |page|
    requires |collected| == limit || (j == end && |collected| <= limit)
    ensures collected == FirstN(records + Own(page[..end], session), limit)
  {
    assert page[..end] == page[..j] + page[j..end];
    OwnConcat(page[..j], page[j..end], session);
    assert records + Own(page[..end], session) == collected + Own(page[j..end], session);
    if j == end {
      assert page[j..end] == [];
    }
  }

  /** One page's inner loop: append the session's records up to `to`, stopping at `limit`. */
  method CollectPage(page: seq<Record>, session: string, to: int, records: seq<Record>, limit: nat)
    returns (collected: seq<Record>)
    requires Ordered(page) && |records| < limit
    ensures collected == FirstN(records + Own(page[..Upto(page, to)], session), limit)
  {
    collected := records;
    ghost var end := Upto(page, to);
    UptoSplits(page, to);
    var j := 0;
    assert page[..0] == [];
    while j < |page|
      invariant 0 <= j <= end
      invariant Collecting(page, session, records, j, collected)
      invariant |collected| < limit
    {
      var record := page[j];
      if record.sequence > to { break; }
      CollectingNext(page, session, records, j, collected);
      if record.session == session { collected := collected + [record]; }
      j := j + 1;
      if |collected| == limit {
        CollectedIsFirst(page, session, records, j, end, collected, limit);
        return;
      }
    }
    CollectedIsFirst(page, session, records, j, end, collected, limit);
  }

  /** The records of a page are a slice of the ledger. */
  lemma PageIsSlice(ledger: seq<Record>, cursor: nat, limit: nat)
    requires Ordered(ledger) && 1 <= limit <= MAX_READ_LIMIT
    ensures var i, page := Upto(ledger, cursor), ReadAfter(ledger, cursor, limit);
            && Ordered(page) && i + |page| == Min(i + limit, |ledger|) && (page == [] <==> i == |ledger|)
            && (forall k | 0 <= k < |page| :: page[k] == ledger[i + k] && page[k].sequence > cursor)
  {
    UptoSplits(ledger, cursor);
  }

  /** A prefix of a page ends where the ledger passes `next`. */
  lemma PageCut(ledger: seq<Record>, page: seq<Record>, i: nat, to: int)
    requires Ordered(ledger) && Ordered(page) && page != [] && i + |page| <= |ledger|
    requires i > 0 ==> ledger[i - 1].sequence < page[0].sequence && ledger[i - 1].sequence < to
    requires forall k | 0 <= k < |page| :: page[k] == ledger[i + k]
    ensures Upto(ledger, Min(page[|page| - 1].sequence, to)) == i + Upto(page, to)
  {
    UptoSplits(page, to);
    var cut := Upto(page, to);
    assert cut > 0 ==> ledger[i + cut - 1] == page[cut - 1];
    assert cut < |page| ==> ledger[i + cut] == page[cut];
    assert ledger[i + |page| - 1] == page[|page| - 1];
    UptoIs(ledger, Min(page[|page| - 1].sequence, to), i + cut);
  }

  /** How far a page moves the cursor, and that its records are the next slice of the ledger. */
  lemma PageAdvances(ledger: seq<Record>, cursor: nat, to: nat, limit: nat)
    requires Ordered(ledger) && cursor < to && 1 <= limit <= MAX_READ_LIMIT
    ensures var i := Upto(ledger, cursor);
            var page := ReadAfter(ledger, cursor, limit);
            && Ordered(page)
            && (page == [] <==> i == |ledger|)
            && (page != [] ==>
                  && cursor < page[|page| - 1].sequence
                  && i + Upto(page, to) <= |ledger|
                  && page[..Upto(page, to)] == ledger[i..i + Upto(page, to)]
                  && Upto(ledger, Min(page[|page| - 1].sequence, to)) == i + Upto(page, to))
  {
    var i := Upto(ledger, cursor);
    var page := ReadAfter(ledger, cursor, limit);
    PageIsSlice(ledger, cursor, limit);
    if page != [] {
      UptoSplits(ledger, cursor);
      PageCut(ledger, page, i, to);
    }
  }

  lemma ReachesIffBeyond(ledger: seq<Record>, cursor: int, to: int)
    requires Ordered(ledger) && cursor < to && Upto(ledger, cursor) == |ledger|
    ensures !Reaches(ledger, to)
  {
    UptoSplits(ledger, cursor);
  }

  /** What the outer loop knows at `cursor`: it holds the range's records up to there. */
  ghost predicate ReadSoFar(ledger: seq<Record>, session: string, from: int, cursor: int, limit: nat,
                            records: seq<Record>)
  {
    records == FirstN(Select(ledger, session, from, cursor), limit)
  }

  lemma SelectExtends(ledger: seq<Record>, session: string, from: int, cursor: int, next: int)
    requires Ordered(ledger) && from - 1 <= cursor <= next
    ensures Upto(ledger, cursor) <= Upto(ledger, next)
    ensures Select(ledger, session, from, next)
         == Select(ledger, session, from, cursor)
          + Own(ledger[Upto(ledger, cursor)..Upto(ledger, next)], session)
  {
    var lo, i, j := Upto(ledger, from - 1), Upto(ledger, cursor), Upto(ledger, next);
    SelectIsSlice(ledger, session, from, cursor);
    SelectIsSlice(ledger, session, from, next);
    UptoMonotone(ledger, cursor, next);
    SliceSplits(ledger, lo, i, j);
    OwnConcat(ledger[lo..i], ledger[i..j], session);
  }

  lemma ReadStarts(ledger: seq<Record>, session: string, from: int, limit: nat)
    requires Ordered(ledger)
    ensures ReadSoFar(ledger, session, from, from - 1, limit, [])
  {
    SelectIsSlice(ledger, session, from, from - 1);
  }

  lemma ReadContinues(ledger: seq<Record>, session: string, from: int, cursor: nat, to: nat, limit: nat,
                      pageLimit: nat, records: seq<Record>, collected: seq<Record>)
    requires Ordered(ledger) && from - 1 <= cursor < to && 1 <= pageLimit <= MAX_READ_LIMIT
    requires ReadSoFar(ledger, session, from, cursor, limit, records)
    requires var page := ReadAfter(ledger, cursor, pageLimit);
             && page != [] && Ordered(page)
             && collected == FirstN(records + Own(page[..Upto(page, to)], session), limit)
    ensures var page := ReadAfter(ledger, cursor, pageLimit);
            var next := Min(page[|page| - 1].sequence, to);
            && cursor < next <= to
            && ReadSoFar(ledger, session, from, next, limit, collected)
            && (next == to ==> Reaches(ledger, to))
  {
    var page := ReadAfter(ledger, cursor, pageLimit);
    var next := Min(page[|page| - 1].sequence, to);
    PageAdvances(ledger, cursor, to, pageLimit);
    SelectExtends(ledger, session, from, cursor, next);
    FirstNConcat(Select(ledger, session, from, cursor), Own(page[..Upto(page, to)], session), limit);
    assert page[|page| - 1] in ledger;
  }

  lemma ReadEnds(ledger: seq<Record>, session: string, from: int, cursor: int, to: int, limit: nat,
                 records: seq<Record>)
    requires Ordered(ledger) && from - 1 <= cursor <= to
    requires ReadSoFar(ledger, session, from, cursor, limit, records)
    requires |records| >= limit || cursor == to || Upto(ledger, cursor) == |ledger|
    ensures records == FirstN(Select(ledger, session, from, to), limit)
    ensures |records| < limit && cursor < to ==> !Reaches(ledger, to)
  {
    SelectExtends(ledger, session, from, cursor, to);
    if cursor < to && Upto(ledger, cursor) == |ledger| {
      ReachesIffBeyond(ledger, cursor, to);
    }
  }

  /** The shared outer loop. It stops at `limit` records, at `to`, or at the end of the ledger. */
  method ReadPages(ledger: seq<Record>, session: string, from: nat, to: nat, limit: nat)
    returns (r: Records)
    requires Ordered(ledger) && 1 <= from <= to && limit >= 1
    ensures var all := Select(ledger, session, from, to);
            r == if |all| < limit && !Reaches(ledger, to) then Err(RangeIncomplete) else Ok(FirstN(all, limit))
  {
    var records: seq<Record> := [];
    var cursor: nat := from - 1;
    ReadStarts(ledger, session, from, limit);
    while cursor < to && |records| < limit
      invariant from - 1 <= cursor <= to
      invariant ReadSoFar(ledger, session, from, cursor, limit, records)
      invariant cursor == to ==> Reaches(ledger, to)
    {
      var pageLimit := Min(LEDGER_PAGE_SIZE, to - cursor);
      var page := ReadAfter(ledger, cursor, pageLimit);
      PageAdvances(ledger, cursor, to, pageLimit);
      if page == [] {
        ReadEnds(ledger, session, from, cursor, to, limit, records);
        return Err(RangeIncomplete);
      }
      var collected := CollectPage(page, session, to, records, limit);
      ReadContinues(ledger, session, from, cursor, to, limit, pageLimit, records, collected);
      records := collected;
      cursor := Min(page[|page| - 1].sequence, to);
    }
    ReadEnds(ledger, session, from, cursor, to, limit, records);
    return Ok(records);
  }

  method ReadSnapshotRecords(ledger: seq<Record>, session: string, from: int, to: int, resultLimit: int)
    returns (r: Records)
    requires Ordered(ledger)
    ensures r == SnapshotRead(ledger, session, from, to, resultLimit)
  {
    if resultLimit < 1 || resultLimit > MAX_SNAPSHOT_RECORDS + 1 { return Err(LimitInvalid); }
    var span := to - from + 1;
    if span < 1 || span > MAX_SEQUENCE_SPAN { return Err(SpanExceeded); }
    if from < 1 { return Err(SequenceInvalid); }
    r := ReadPages(ledger, session, from, to, resultLimit);
  }

  method LedgerRange(ledger: seq<Record>, session: string, from: int, to: int) returns (r: Records)
    requires Ordered(ledger)
    ensures r == RangeRead(ledger, session, from, to)
  {
    var span := to - from + 1;
    if span < 1 || span > MAX_SEQUENCE_SPAN { return Err(SpanExceeded); }
    if from < 1 { return Err(SequenceInvalid); }
    r := ReadPages(ledger, session, from, to, MAX_SNAPSHOT_RECORDS + 1);
    if r.Ok? && |r.value| > MAX_SNAPSHOT_RECORDS { return Err(TooManyRecords); }
  }
}
