/** The scans made before a snapshot is accepted: the references inside its range, the session's
    uncovered earlier events, and its later events. Each scan reads at most 1,000 pages of 1,000. */
module SnapshotScans {
  import opened Wrappers
  import opened EventLedger
  import opened PagedReads

  const SCAN_PAGE: nat := 1_000
  const SCAN_PAGES: nat := 1_000
  const SCAN_WINDOW: nat := 1_000_000
  const MAX_REFERENCES: nat := 10_000

  datatype ScanError = ReferenceLimit | RangeOutsideRevision | ScanWindowExceeded

  datatype Observation = Observation(references: seq<Record>, uncoveredEarlier: bool, laterEvent: bool,
                                     sourceClosed: bool)

  predicate Has(records: seq<Record>, session: string) {
    exists i | 0 <= i < |records| :: records[i].session == session
  }

  /** The session has an event in the interval (start, end]. */
  ghost predicate EventIn(ledger: seq<Record>, session: string, start: int, end: int) {
    exists i | 0 <= i < |ledger| :: ledger[i].session == session && start < ledger[i].sequence <= end
  }

  /** `MAX(sequence)` of one session, or zero. */
  function LatestSequence(ledger: seq<Record>, session: string): (n: nat) {
    if ledger == [] then 0
    else
      var last := ledger[|ledger| - 1];
      if last.session == session then last.sequence else LatestSequence(ledger[..|ledger| - 1], session)
  }

  lemma {:induction false} LatestIsMaximum(ledger: seq<Record>, session: string)
    requires Ordered(ledger)
    ensures forall i | 0 <= i < |ledger| && ledger[i].session == session ::
              ledger[i].sequence <= LatestSequence(ledger, session)
    ensures var n := LatestSequence(ledger, session);
            if n == 0 then !Has(ledger, session)
            else exists i | 0 <= i < |ledger| :: ledger[i].session == session && ledger[i].sequence == n
  {
    if ledger != [] {
      var front := ledger[..|ledger| - 1];
      LatestIsMaximum(front, session);
      if ledger[|ledger| - 1].session != session {
        var n := LatestSequence(front, session);
        if n != 0 {
          var i :| 0 <= i < |front| && front[i].session == session && front[i].sequence == n;
          assert ledger[i] == front[i];
        }
      }
    }
  }

  /** Where the last page of a scan of (start, end] begins: full pages of records come before it. */
  ghost function LastPageIndex(ledger: seq<Record>, start: int, end: int): (i: nat)
    requires Upto(ledger, start) <= Upto(ledger, end)
    ensures Upto(ledger, start) <= i <= Upto(ledger, end)
  {
    var lo, hi := Upto(ledger, start), Upto(ledger, end);
    lo + SCAN_PAGE * ((hi - lo) / SCAN_PAGE)
  }

  ghost function LastPageCursor(ledger: seq<Record>, start: int, end: int): int
    requires Upto(ledger, start) <= Upto(ledger, end)
  {
    var b := LastPageIndex(ledger, start, end);
    if b == Upto(ledger, start) then start else ledger[b - 1].sequence
  }

  /** Between the last full page and `end` no sequence number is missing. */
  ghost predicate GapFreeTail(ledger: seq<Record>, start: int, end: int)
    requires Upto(ledger, start) <= Upto(ledger, end)
  {
    end - LastPageCursor(ledger, start, end) == Upto(ledger, end) - LastPageIndex(ledger, start, end)
  }

  /** How far into the ledger the scan of (start, end] really reads. Its last page asks for as many
      records as there are integers left, so every missing integer makes it read one record too far. */
  ghost function Visited(ledger: seq<Record>, start: int, end: int): int
    requires Ordered(ledger) && start <= end
  {
    UptoMonotone(ledger, start, end);
    VisitedFrom(LastPageIndex(ledger, start, end), Upto(ledger, end), end - LastPageCursor(ledger, start, end),
                |ledger|)
  }

  /** The last page begins at index `b`; the interval ends at `m`, and `span` integers are left. */
  function VisitedFrom(b: int, m: int, span: int, length: int): int {
    if span == m - b then m else Min(b + Min(SCAN_PAGE, span), length)
  }

  lemma {:induction false} Spread(ledger: seq<Record>, i: nat, j: nat)
    requires Ordered(ledger) && i <= j < |ledger|
    ensures ledger[j].sequence - ledger[i].sequence >= j - i
    decreases j - i
  {
    if i < j {
      Spread(ledger, i, j - 1);
    }
  }

  /** Records after `cursor` use up distinct integers. */
  lemma SpreadAfter(ledger: seq<Record>, cursor: int, j: nat)
    requires Ordered(ledger) && Upto(ledger, cursor) <= j < |ledger|
    ensures ledger[j].sequence >= cursor + 1 + j - Upto(ledger, cursor)
  {
    UptoSplits(ledger, cursor);
    Spread(ledger, Upto(ledger, cursor), j);
  }

  lemma VisitedCoversInterval(ledger: seq<Record>, start: int, end: int)
    requires Ordered(ledger) && start <= end
    ensures Upto(ledger, start) <= Upto(ledger, end) <= Visited(ledger, start, end) <= |ledger|
  {
    UptoMonotone(ledger, start, end);
    TailFits(ledger, start, end);
  }

  /** The records left for the last page fit into the integers left. */
  lemma TailFits(ledger: seq<Record>, start: int, end: int)
    requires Ordered(ledger) && start <= end && Upto(ledger, start) <= Upto(ledger, end)
    ensures var b, m, a := LastPageIndex(ledger, start, end), Upto(ledger, end), LastPageCursor(ledger, start, end);
            && m - b < SCAN_PAGE && m - b <= end - a
            && Upto(ledger, a) == b
            && (m - b == end - a && b < m ==> ledger[m - 1].sequence == end)
  {
    var b, m, a := LastPageIndex(ledger, start, end), Upto(ledger, end), LastPageCursor(ledger, start, end);
    UptoSplits(ledger, end);
    UptoSplits(ledger, start);
    UptoIs(ledger, a, b);
    if b < m {
      SpreadAfter(ledger, a, m - 1);
    }
  }

  /** Between two pages, while only full pages have been read. */
  ghost predicate FullPages(ledger: seq<Record>, session: string, start: int, end: int,
                            after: int, pages: nat, found: bool)
    requires Ordered(ledger) && start <= end
  {
    var lo, i := Upto(ledger, start), Upto(ledger, after);
    && i == lo + SCAN_PAGE * pages <= Upto(ledger, end)
    && after == (if pages == 0 then start else ledger[i - 1].sequence)
    && start + SCAN_PAGE * pages <= after <= end
    && found == Has(ledger[lo..i], session)
  }

  /** The scan has read everything it will. */
  ghost predicate Finished(ledger: seq<Record>, session: string, start: int, end: int, after: int, found: bool)
    requires Ordered(ledger) && start <= end
  {
    && (after >= end || Upto(ledger, after) == |ledger|)
    && Found(ledger, session, start, end, found)
  }

  /** The answer of a scan: does the visited part of the ledger hold an event of the session? */
  ghost predicate Found(ledger: seq<Record>, session: string, start: int, end: int, found: bool)
    requires Ordered(ledger) && start <= end
  {
    && Upto(ledger, start) <= Visited(ledger, start, end) <= |ledger|
    && found == Has(ledger[Upto(ledger, start)..Visited(ledger, start, end)], session)
  }

  lemma HasConcat(a: seq<Record>, b: seq<Record>, session: string)
    ensures Has(a + b, session) <==> Has(a, session) || Has(b, session)
  {
    if Has(a, session) {
      var i :| 0 <= i < |a| && a[i].session == session;
      assert (a + b)[i].session == session;
    }
    if Has(b, session) {
      var i :| 0 <= i < |b| && b[i].session == session;
      assert (a + b)[|a| + i].session == session;
    }
  }

  lemma HasExtends(ledger: seq<Record>, session: string, lo: nat, i: nat, next: nat)
    requires lo <= i <= next <= |ledger|
    ensures Has(ledger[lo..next], session) <==> Has(ledger[lo..i], session) || Has(ledger[i..next], session)
  {
    assert ledger[lo..next] == ledger[lo..i] + ledger[i..next];
    HasConcat(ledger[lo..i], ledger[i..next], session);
  }

  lemma FullPageStep(ledger: seq<Record>, session: string, start: int, end: nat, after: nat, pages: nat, found: bool)
    requires Ordered(ledger) && start <= end && after < end
    requires FullPages(ledger, session, start, end, after, pages, found)
    requires Upto(ledger, after) + SCAN_PAGE <= Upto(ledger, end)
    ensures var page := ReadAfter(ledger, after, Min(SCAN_PAGE, end - after));
            && page != []
            && FullPages(ledger, session, start, end, page[|page| - 1].sequence, pages + 1, found || Has(page, session))
  {
    var i := Upto(ledger, after);
    var next := i + SCAN_PAGE;
    FullPageFits(ledger, end, after, i, next);
    assert ReadAfter(ledger, after, Min(SCAN_PAGE, end - after)) == ledger[i..next];
    HasExtends(ledger, session, Upto(ledger, start), i, next);
  }

  lemma FullPageFits(ledger: seq<Record>, end: int, after: int, i: nat, next: nat)
    requires Ordered(ledger) && i == Upto(ledger, after) && next == i + SCAN_PAGE <= Upto(ledger, end)
    ensures after + SCAN_PAGE <= ledger[next - 1].sequence <= end
    ensures Upto(ledger, ledger[next - 1].sequence) == next
  {
    UptoSplits(ledger, end);
    SpreadAfter(ledger, after, next - 1);
    UptoIs(ledger, ledger[next - 1].sequence, next);
  }

  lemma LastPageBegins(ledger: seq<Record>, session: string, start: int, end: int, after: int, pages: nat, found: bool)
    requires Ordered(ledger) && start <= end
    requires FullPages(ledger, session, start, end, after, pages, found)
    requires Upto(ledger, after) + SCAN_PAGE > Upto(ledger, end)
    ensures Upto(ledger, start) <= Upto(ledger, end)
    ensures LastPageIndex(ledger, start, end) == Upto(ledger, after)
    ensures LastPageCursor(ledger, start, end) == after
  {
  }

  /** The last page ends where the visited part ends, and past `end` unless the ledger ends first. */
  lemma LastPageEnds(ledger: seq<Record>, start: int, end: int, b: nat, a: int)
    requires Ordered(ledger) && start <= end && Upto(ledger, start) <= Upto(ledger, end)
    requires b == LastPageIndex(ledger, start, end) && a == LastPageCursor(ledger, start, end) < end
    ensures var next := Min(b + Min(SCAN_PAGE, end - a), |ledger|);
            && next == Visited(ledger, start, end)
            && (b < next < |ledger| ==> ledger[next - 1].sequence >= end)
  {
    TailFits(ledger, start, end);
    LastPageReaches(ledger, end, b, Upto(ledger, end), end - a);
  }

  lemma LastPageReaches(ledger: seq<Record>, end: int, b: nat, m: nat, span: int)
    requires Ordered(ledger) && m == Upto(ledger, end) && b <= m && span > 0 && m - b < SCAN_PAGE && m - b <= span
    requires m - b == span && b < m ==> ledger[m - 1].sequence == end
    ensures var next := Min(b + Min(SCAN_PAGE, span), |ledger|);
            && next == VisitedFrom(b, m, span, |ledger|)
            && (b < next < |ledger| ==> ledger[next - 1].sequence >= end)
  {
    UptoSplits(ledger, end);
  }

  /** Fewer than a page of records is left before `end`, so this page is the last one that matters. */
  lemma LastPageStep(ledger: seq<Record>, session: string, start: int, end: nat, after: nat, pages: nat, found: bool)
    requires Ordered(ledger) && start <= end && after < end
    requires FullPages(ledger, session, start, end, after, pages, found)
    requires Upto(ledger, after) + SCAN_PAGE > Upto(ledger, end)
    ensures var page := ReadAfter(ledger, after, Min(SCAN_PAGE, end - after));
            if page == [] then Finished(ledger, session, start, end, end, found)
            else Finished(ledger, session, start, end, page[|page| - 1].sequence, found || Has(page, session))
  {
    var i, limit := Upto(ledger, after), Min(SCAN_PAGE, end - after);
    var next := Min(i + limit, |ledger|);
    LastPageBegins(ledger, session, start, end, after, pages, found);
    LastPageEnds(ledger, start, end, i, after);
    PageShape(ledger, after, limit, i, next);
    LastPageFinishes(ledger, session, start, end, i, next, ReadAfter(ledger, after, limit), found);
  }

  lemma PageShape(ledger: seq<Record>, after: nat, limit: nat, i: nat, next: nat)
    requires 1 <= limit <= MAX_READ_LIMIT && i == Upto(ledger, after) && next == Min(i + limit, |ledger|)
    ensures var page := ReadAfter(ledger, after, limit);
            page == ledger[i..next] && |page| == next - i && (page != [] ==> page[|page| - 1] == ledger[next - 1])
  {
  }

  lemma LastPageFinishes(ledger: seq<Record>, session: string, start: int, end: nat, i: nat, next: nat,
                         page: seq<Record>, found: bool)
    requires Ordered(ledger) && start <= end && next == Visited(ledger, start, end)
    requires Upto(ledger, start) <= i <= next <= |ledger| && found == Has(ledger[Upto(ledger, start)..i], session)
    requires i < next < |ledger| ==> ledger[next - 1].sequence >= end
    requires page == ledger[i..next] && |page| == next - i
    requires page != [] ==> page[|page| - 1] == ledger[next - 1]
    ensures if page == [] then Finished(ledger, session, start, end, end, found)
            else Finished(ledger, session, start, end, page[|page| - 1].sequence, found || Has(page, session))
  {
    HasExtends(ledger, session, Upto(ledger, start), i, next);
    if i < next && next == |ledger| {
      UptoIs(ledger, ledger[next - 1].sequence, next);
    }
  }

  lemma FinishedStep(ledger: seq<Record>, session: string, start: int, end: nat, after: nat, found: bool)
    requires Ordered(ledger) && start <= end && after < end
    requires Finished(ledger, session, start, end, after, found)
    ensures ReadAfter(ledger, after, Min(SCAN_PAGE, end - after)) == []
  {
  }

  lemma FullPagesDone(ledger: seq<Record>, session: string, start: int, end: int, pages: nat, found: bool)
    requires Ordered(ledger) && start <= end
    requires FullPages(ledger, session, start, end, end, pages, found)
    ensures Found(ledger, session, start, end, found)
  {
    assert LastPageIndex(ledger, start, end) == Upto(ledger, end);
  }

  /** The scan loop, at its top. */
  ghost predicate Scanning(ledger: seq<Record>, session: string, start: int, end: int, after: int, pages: nat,
                           found: bool)
    requires Ordered(ledger) && start <= end
  {
    FullPages(ledger, session, start, end, after, pages, found) || Finished(ledger, session, start, end, after, found)
  }

  lemma ScanStarts(ledger: seq<Record>, session: string, start: int, end: int)
    requires Ordered(ledger) && start <= end
    ensures Scanning(ledger, session, start, end, start, 0, false)
  {
    assert ledger[Upto(ledger, start)..Upto(ledger, start)] == [];
    UptoMonotone(ledger, start, end);
  }

  lemma ScanStep(ledger: seq<Record>, session: string, start: int, end: nat, after: nat, pages: nat, found: bool)
    requires Ordered(ledger) && start <= end && after < end
             && Scanning(ledger, session, start, end, after, pages, found)
    ensures var page := ReadAfter(ledger, after, Min(SCAN_PAGE, end - after));
            if page == [] then Found(ledger, session, start, end, found)
            else Scanning(ledger, session, start, end, page[|page| - 1].sequence, pages + 1,
                          found || Has(page, session))
  {
    if Finished(ledger, session, start, end, after, found) {
      FinishedStep(ledger, session, start, end, after, found);
    } else if Upto(ledger, after) + SCAN_PAGE <= Upto(ledger, end) {
      FullPageStep(ledger, session, start, end, after, pages, found);
    } else {
      LastPageStep(ledger, session, start, end, after, pages, found);
    }
  }

  /** 1,000 pages are enough: full pages alone use up the whole window. */
  lemma ScanEnds(ledger: seq<Record>, session: string, start: int, end: int, after: int, pages: nat, found: bool)
    requires Ordered(ledger) && start <= end <= start + SCAN_WINDOW
             && Scanning(ledger, session, start, end, after, pages, found)
    requires after >= end || pages >= SCAN_PAGES
    ensures Found(ledger, session, start, end, found)
  {
    if !Found(ledger, session, start, end, found) {
      FullPagesDone(ledger, session, start, end, pages, found);
    }
  }

  /** One scan loop, capped at 1,000 pages of 1,000 records. */
  method ScanInterval(ledger: seq<Record>, session: string, start: nat, end: nat) returns (found: bool)
    requires Ordered(ledger) && start <= end <= start + SCAN_WINDOW
    ensures Found(ledger, session, start, end, found)
  {
    found := false;
    var after: nat, pages: nat := start, 0;
    ScanStarts(ledger, session, start, end);
    while after < end && pages < SCAN_PAGES
      invariant Scanning(ledger, session, start, end, after, pages, found)
      decreases SCAN_PAGES - pages
    {
      ScanStep(ledger, session, start, end, after, pages, found);
      var records := ReadAfter(ledger, after, Min(SCAN_PAGE, end - after));
      if records == [] {
        return;
      }
      found, after, pages := found || Has(records, session), records[|records| - 1].sequence, pages + 1;
    }
    ScanEnds(ledger, session, start, end, after, pages, found);
  }

  /** A scan that finds nothing is right: the interval holds no event of the session. */
  lemma ScanIsSound(ledger: seq<Record>, session: string, start: int, end: int)
    requires Ordered(ledger) && start <= end
    requires Found(ledger, session, start, end, false)
    ensures !EventIn(ledger, session, start, end)
  {
    VisitedCoversInterval(ledger, start, end);
    UptoSplits(ledger, start);
    UptoSplits(ledger, end);
    var lo := Upto(ledger, start);
    forall i | 0 <= i < |ledger| && start < ledger[i].sequence <= end ensures ledger[i].session != session {
      assert ledger[i] == ledger[lo..Visited(ledger, start, end)][i - lo];
    }
  }

  /** A scan that reads no further than its interval is complete as well as sound. */
  lemma ScanIsComplete(ledger: seq<Record>, session: string, start: int, end: int, found: bool)
    requires Ordered(ledger) && start <= end
    requires Visited(ledger, start, end) <= Upto(ledger, end)
    requires Found(ledger, session, start, end, found)
    ensures found <==> EventIn(ledger, session, start, end)
  {
    var lo, visited := Upto(ledger, start), Visited(ledger, start, end);
    if found {
      var j :| 0 <= j < |ledger[lo..visited]| && ledger[lo..visited][j].session == session;
      UptoSplits(ledger, start);
      UptoSplits(ledger, end);
      assert ledger[lo + j].session == session;
    } else {
      ScanIsSound(ledger, session, start, end);
    }
  }

  /** A gap before a record of the session makes the last page read that record. */
  lemma GapReadsTooFar(ledger: seq<Record>, session: string, start: int, end: int, found: bool)
    requires Ordered(ledger) && start <= end && Upto(ledger, start) <= Upto(ledger, end)
    requires Upto(ledger, end) < |ledger| && ledger[Upto(ledger, end)].session == session
    requires !GapFreeTail(ledger, start, end)
    requires Found(ledger, session, start, end, found)
    ensures found
  {
    var lo, m, visited := Upto(ledger, start), Upto(ledger, end), Visited(ledger, start, end);
    TailFits(ledger, start, end);
    assert m < visited;
    assert ledger[lo..visited][m - lo] == ledger[m];
  }

  /** The first record at or beyond `from` is the session's. */
  lemma OwnIsNext(ledger: seq<Record>, session: string, from: int)
    requires Ordered(ledger)
    requires exists i | 0 <= i < |ledger| :: ledger[i].session == session && ledger[i].sequence == from
    ensures Upto(ledger, from - 1) < |ledger| && ledger[Upto(ledger, from - 1)].session == session
  {
    var own :| 0 <= own < |ledger| && ledger[own].session == session && ledger[own].sequence == from;
    UptoIs(ledger, from - 1, own);
  }

  /** The scan before `from` is exact if and only if no sequence number is missing after its last
      full page: otherwise it reads the session's own first record and reports it as earlier. */
  lemma EarlierScanIsExact(ledger: seq<Record>, session: string, start: int, from: int, found: bool)
    requires Ordered(ledger) && start < from
    requires exists i | 0 <= i < |ledger| :: ledger[i].session == session && ledger[i].sequence == from
    requires Found(ledger, session, start, from - 1, found)
    ensures Upto(ledger, start) <= Upto(ledger, from - 1)
    ensures found <==> EventIn(ledger, session, start, from - 1) || !GapFreeTail(ledger, start, from - 1)
  {
    UptoMonotone(ledger, start, from - 1);
    OwnIsNext(ledger, session, from);
    if GapFreeTail(ledger, start, from - 1) {
      ScanIsComplete(ledger, session, start, from - 1, found);
    } else {
      GapReadsTooFar(ledger, session, start, from - 1, found);
    }
  }

  lemma FoundIsSomewhere(ledger: seq<Record>, session: string, start: int, end: int)
    requires Ordered(ledger) && start <= end && Found(ledger, session, start, end, true)
    ensures exists i | 0 <= i < |ledger| :: ledger[i].session == session && start < ledger[i].sequence
  {
    var lo, visited := Upto(ledger, start), Visited(ledger, start, end);
    var j :| 0 <= j < |ledger[lo..visited]| && ledger[lo..visited][j].session == session;
    UptoSplits(ledger, start);
    assert ledger[lo + j].session == session;
  }

  /** The scan up to the session's latest event is always exact. */
  lemma LaterScanIsExact(ledger: seq<Record>, session: string, to: int, found: bool)
    requires Ordered(ledger) && to <= LatestSequence(ledger, session)
    requires Found(ledger, session, to, LatestSequence(ledger, session), found)
    ensures found <==> EventIn(ledger, session, to, LatestSequence(ledger, session))
  {
    if found {
      LatestIsMaximum(ledger, session);
      FoundIsSomewhere(ledger, session, to, LatestSequence(ledger, session));
    } else {
      ScanIsSound(ledger, session, to, LatestSequence(ledger, session));
    }
  }

  /** One page of references. It is empty only at the end of the ledger. */
  method ReferencePage(ledger: seq<Record>, session: string, ghost first: nat, after: nat, to: nat,
                       references: seq<Record>)
    returns (collected: seq<Record>, next: nat)
    requires Ordered(ledger) && first - 1 <= after < to && |references| <= MAX_REFERENCES
    requires ReadSoFar(ledger, session, first, after, MAX_REFERENCES + 1, references)
    ensures after <= next
    ensures if next == after then collected == references && Upto(ledger, after) == |ledger|
            else ReadSoFar(ledger, session, first, Min(next, to), MAX_REFERENCES + 1, collected)
  {
    var limit := Min(SCAN_PAGE, to - after);
    var records := ReadAfter(ledger, after, limit);
    PageAdvances(ledger, after, to, limit);
    if records == [] { return references, after; }
    collected := CollectPage(records, session, to, references, MAX_REFERENCES + 1);
    ReadContinues(ledger, session, first, after, to, MAX_REFERENCES + 1, limit, references, collected);
    next := records[|records| - 1].sequence;
  }

  /** The references of a snapshot: every record of the session in its range. */
  method CollectReferences(ledger: seq<Record>, session: string, from: nat, to: nat)
    returns (r: Result<seq<Record>, ScanError>)
    requires Ordered(ledger) && from <= to
    ensures var all := if from == 0 && to == 0 then [] else Select(ledger, session, from, to);
            r == if |all| > MAX_REFERENCES then Err(ReferenceLimit) else Ok(all)
  {
    var references: seq<Record> := [];
    if from == 0 && to == 0 { return Ok(references); }
    var after: nat := if from == 0 then 0 else from - 1;
    ghost var first: nat := if from == 0 then 1 else from;
    SelectFromOne(ledger, session, from, to);
    ReadStarts(ledger, session, first, MAX_REFERENCES + 1);
    while after < to
      invariant first - 1 <= after && |references| <= MAX_REFERENCES
      invariant ReadSoFar(ledger, session, first, Min(after, to), MAX_REFERENCES + 1, references)
    {
      var next: nat;
      references, next := ReferencePage(ledger, session, first, after, to, references);
      if next == after { break; }
      after := next;
      if |references| > MAX_REFERENCES { break; }
    }
    ReadEnds(ledger, session, first, Min(after, to), to, MAX_REFERENCES + 1, references);
    if |references| > MAX_REFERENCES { return Err(ReferenceLimit); }
    return Ok(references);
  }

  lemma {:induction false} SelectFromOne(ledger: seq<Record>, session: string, from: int, to: int)
    requires Ordered(ledger)
    ensures from <= 1 ==> Select(ledger, session, from, to) == Select(ledger, session, 1, to)
  {
    if ledger != [] {
      SelectFromOne(ledger[..|ledger| - 1], session, from, to);
    }
  }

  /** What the observer reports for a range of which `all` are the session's records. */
  ghost predicate Observed(ledger: seq<Record>, session: string, previousTo: nat, from: nat, to: nat,
                           all: seq<Record>, seen: Observation)
    requires Ordered(ledger) && from <= to && (previousTo == 0 || previousTo < from)
  {
    && seen.references == all
    && (if from == 0 then !seen.uncoveredEarlier
        else Found(ledger, session, previousTo, from - 1, seen.uncoveredEarlier))
    && to <= LatestSequence(ledger, session)
    && Found(ledger, session, to, LatestSequence(ledger, session), seen.laterEvent)
    && (seen.sourceClosed <==>
          && !seen.uncoveredEarlier && !seen.laterEvent
          && all != [] && all[|all| - 1].closes)
  }

  /** Look up the last reference again, by its sequence number. */
  method LastCloses(ledger: seq<Record>, session: string, from: nat, to: nat, references: seq<Record>)
    returns (closes: bool)
    requires Ordered(ledger) && references != [] && references == Select(ledger, session, from, to)
    ensures closes == references[|references| - 1].closes
  {
    LastIsReadBack(ledger, session, from, to);
    return ReadAfter(ledger, references[|references| - 1].sequence - 1, 1)[0].closes;
  }

  /** Observe the range [from, to], given where the accepted predecessor ends (0 when there is none). */
  method Observe(ledger: seq<Record>, session: string, previousTo: nat, from: nat, to: nat)
    returns (r: Result<Observation, ScanError>)
    requires Ordered(ledger)
    requires from <= to && (previousTo == 0 || previousTo < from)
    ensures var capture := LatestSequence(ledger, session);
            var empty := from == 0 && to == 0;
            var all := if empty then [] else Select(ledger, session, from, to);
            if |all| > MAX_REFERENCES then r == Err(ReferenceLimit)
            else if !empty && (from < 1 || to > capture) then r == Err(RangeOutsideRevision)
            else if capture - previousTo > SCAN_WINDOW then r == Err(ScanWindowExceeded)
            else r.Ok? && Observed(ledger, session, previousTo, from, to, all, r.value)
  {
    var captureRevision := LatestSequence(ledger, session);
    var collected := CollectReferences(ledger, session, from, to);
    if collected.Err? { return Err(collected.error); }
    var references := collected.value;
    var empty := from == 0 && to == 0;
    if !empty && (from < 1 || to > captureRevision) { return Err(RangeOutsideRevision); }
    if captureRevision - previousTo > SCAN_WINDOW { return Err(ScanWindowExceeded); }
    var seen := Scan(ledger, session, previousTo, from, to, references);
    return Ok(seen);
  }

  /** Both scans, and the closing event. */
  method Scan(ledger: seq<Record>, session: string, previousTo: nat, from: nat, to: nat, references: seq<Record>)
    returns (seen: Observation)
    requires Ordered(ledger) && from <= to && (previousTo == 0 || previousTo < from)
    requires to <= LatestSequence(ledger, session) <= previousTo + SCAN_WINDOW && (from == 0 ==> to == 0)
    requires references == if from == 0 then [] else Select(ledger, session, from, to)
    ensures Observed(ledger, session, previousTo, from, to, references, seen)
  {
    var uncoveredEarlier := ScanEarlier(ledger, session, previousTo, from);
    var laterEvent := ScanInterval(ledger, session, to, LatestSequence(ledger, session));
    var sourceClosed := Closes(ledger, session, from, to, references, uncoveredEarlier, laterEvent);
    seen := Observation(references, uncoveredEarlier, laterEvent, sourceClosed);
  }

  method ScanEarlier(ledger: seq<Record>, session: string, previousTo: nat, from: nat) returns (found: bool)
    requires Ordered(ledger) && (previousTo == 0 || previousTo < from) && from <= previousTo + SCAN_WINDOW + 1
    ensures if from == 0 then !found else Found(ledger, session, previousTo, from - 1, found)
  {
    found := false;
    if from > 0 {
      found := ScanInterval(ledger, session, previousTo, from - 1);
    }
  }

  method Closes(ledger: seq<Record>, session: string, from: nat, to: nat, references: seq<Record>,
                uncoveredEarlier: bool, laterEvent: bool) returns (closes: bool)
    requires Ordered(ledger) && (references == [] || references == Select(ledger, session, from, to))
    ensures closes <==> !uncoveredEarlier && !laterEvent && references != [] && references[|references| - 1].closes
  {
    closes := false;
    if !uncoveredEarlier && !laterEvent && references != [] {
      closes := LastCloses(ledger, session, from, to, references);
    }
  }

  lemma LastIsReadBack(ledger: seq<Record>, session: string, from: int, to: int)
    requires Ordered(ledger) && Select(ledger, session, from, to) != []
    ensures var all := Select(ledger, session, from, to);
            && all[|all| - 1].sequence >= 1
            && ReadAfter(ledger, all[|all| - 1].sequence - 1, 1) == [all[|all| - 1]]
  {
    var all := Select(ledger, session, from, to);
    SelectElements(ledger, session, from, to);
    assert all[|all| - 1] in all;
    RecordIsReadBack(ledger, all[|all| - 1]);
  }

  lemma RecordIsReadBack(ledger: seq<Record>, record: Record)
    requires Ordered(ledger) && record in ledger
    ensures record.sequence >= 1 && ReadAfter(ledger, record.sequence - 1, 1) == [record]
  {
    var i :| 0 <= i < |ledger| && ledger[i] == record;
    UptoIs(ledger, record.sequence - 1, i);
  }

  /** For a range that begins and ends at events of the session: it is reported closed if and only if
      its last event closes the session, no event lies before or after it, and no sequence number is
      missing in the last page before it. */
  lemma ClosedIsExact(ledger: seq<Record>, session: string, previousTo: nat, from: nat, to: nat, seen: Observation)
    requires Ordered(ledger) && previousTo < from <= to
    requires exists i | 0 <= i < |ledger| :: ledger[i].session == session && ledger[i].sequence == from
    requires Observed(ledger, session, previousTo, from, to, Select(ledger, session, from, to), seen)
    ensures Upto(ledger, previousTo) <= Upto(ledger, from - 1) && seen.references != []
    ensures seen.sourceClosed <==>
              && !EventIn(ledger, session, previousTo, from - 1)
              && !EventIn(ledger, session, to, LatestSequence(ledger, session))
              && seen.references[|seen.references| - 1].closes
              && GapFreeTail(ledger, previousTo, from - 1)
  {
    EarlierScanIsExact(ledger, session, previousTo, from, seen.uncoveredEarlier);
    LaterScanIsExact(ledger, session, to, seen.laterEvent);
    SelectElements(ledger, session, from, to);
    var i :| 0 <= i < |ledger| && ledger[i].session == session && ledger[i].sequence == from;
    assert ledger[i] in seen.references;
  }

  /** A gap makes the scan fail its purpose: sequence 1 belongs to another session, 2 is missing, and
      the session owns 3 alone. Nothing of it lies before 3, yet the scan says so. */
  lemma GapIsReportedAsEarlierEvent()
    ensures var ledger := [Record(1, "other", false), Record(3, "own", true)];
            && Ordered(ledger) && !EventIn(ledger, "own", 0, 2)
            && Found(ledger, "own", 0, 2, true)
  {
    var ledger := [Record(1, "other", false), Record(3, "own", true)];
    UptoIs(ledger, 0, 0);
    UptoIs(ledger, 2, 1);
    assert LastPageIndex(ledger, 0, 2) == 0;
    assert Visited(ledger, 0, 2) == 2;
    assert ledger[0..2][1].session == "own";
  }
}
