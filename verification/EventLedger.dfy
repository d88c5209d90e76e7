/** The conversation ledger as its readers see it: an append-only list of records with strictly
    increasing sequence numbers, which may have gaps, and the query `readAfter`. */
module EventLedger {
  import opened Wrappers

  const MAX_READ_LIMIT: nat := 1_000

  /** `closes` says that the event type is `session.ended`. */
  datatype Record = Record(sequence: nat, session: string, closes: bool)

  ghost predicate Ordered(ledger: seq<Record>) {
    && (forall i | 0 <= i < |ledger| :: ledger[i].sequence >= 1)
    && (forall i, j | 0 <= i < j < |ledger| :: ledger[i].sequence < ledger[j].sequence)
  }

  /** How many records have a sequence number up to `cursor`. */
  function Upto(ledger: seq<Record>, cursor: int): (n: nat)
    ensures n <= |ledger|
  {
    if ledger == [] || ledger[|ledger| - 1].sequence <= cursor then |ledger|
    else Upto(ledger[..|ledger| - 1], cursor)
  }

  lemma {:induction false} UptoSplits(ledger: seq<Record>, cursor: int)
    requires Ordered(ledger)
    ensures forall i | 0 <= i < Upto(ledger, cursor) :: ledger[i].sequence <= cursor
    ensures forall i | Upto(ledger, cursor) <= i < |ledger| :: ledger[i].sequence > cursor
  {
    if ledger != [] && ledger[|ledger| - 1].sequence > cursor {
      UptoSplits(ledger[..|ledger| - 1], cursor);
    }
  }

  lemma UptoIs(ledger: seq<Record>, cursor: int, n: nat)
    requires Ordered(ledger) && n <= |ledger|
    requires n > 0 ==> ledger[n - 1].sequence <= cursor
    requires n < |ledger| ==> ledger[n].sequence > cursor
    ensures Upto(ledger, cursor) == n
  {
    UptoSplits(ledger, cursor);
  }

  lemma UptoMonotone(ledger: seq<Record>, a: int, b: int)
    requires Ordered(ledger) && a <= b
    ensures Upto(ledger, a) <= Upto(ledger, b)
  {
    UptoSplits(ledger, a);
    UptoSplits(ledger, b);
  }

  /** `SELECT ... WHERE sequence > cursor ORDER BY sequence LIMIT limit`. */
  function ReadAfter(ledger: seq<Record>, cursor: nat, limit: nat): seq<Record>
    requires 1 <= limit <= MAX_READ_LIMIT
  {
    var i := Upto(ledger, cursor);
    ledger[i..Min(i + limit, |ledger|)]
  }

  /** The records of one session, in ledger order. */
  function Own(records: seq<Record>, session: string): seq<Record> {
    if records == [] then []
    else
      var last := records[|records| - 1];
      Own(records[..|records| - 1], session) + if last.session == session then [last] else []
  }

  lemma {:induction false} OwnConcat(a: seq<Record>, b: seq<Record>, session: string)
    ensures Own(a + b, session) == Own(a, session) + Own(b, session)
  {
    if b == [] {
      assert a + b == a;
    } else {
      assert (a + b)[..|a + b| - 1] == a + b[..|b| - 1];
      OwnConcat(a, b[..|b| - 1], session);
    }
  }

  lemma {:induction false} OwnElements(records: seq<Record>, session: string)
    ensures forall r :: r in Own(records, session) <==> r in records && r.session == session
  {
    if records != [] {
      var front, last := records[..|records| - 1], records[|records| - 1];
      assert records == front + [last];
      OwnElements(front, session);
    }
  }

  lemma {:induction false} OwnOrdered(records: seq<Record>, session: string)
    requires Ordered(records)
    ensures Ordered(Own(records, session))
  {
    if records != [] {
      OwnOrdered(records[..|records| - 1], session);
      OwnElements(records[..|records| - 1], session);
    }
  }

  /** The plain reading of a range query: one session's records with sequence in [from, to]. */
  function Select(ledger: seq<Record>, session: string, from: int, to: int): seq<Record> {
    if ledger == [] then []
    else
      var last := ledger[|ledger| - 1];
      Select(ledger[..|ledger| - 1], session, from, to)
      + if last.session == session && from <= last.sequence <= to then [last] else []
  }

  lemma OwnAppends(records: seq<Record>, r: Record, session: string)
    ensures Own(records + [r], session) == Own(records, session) + if r.session == session then [r] else []
  {
    assert (records + [r])[..|records|] == records;
  }

  /** Cutting the last record off does not move where an earlier sequence number lies. */
  lemma UptoOfFront(ledger: seq<Record>, cursor: int)
    requires Ordered(ledger) && ledger != []
    ensures Upto(ledger[..|ledger| - 1], cursor)
         == if ledger[|ledger| - 1].sequence <= cursor then |ledger| - 1 else Upto(ledger, cursor)
  {
    if ledger[|ledger| - 1].sequence <= cursor {
      UptoIs(ledger[..|ledger| - 1], cursor, |ledger| - 1);
    }
  }

  /** In an ordered ledger a range query reads one contiguous slice. */
  lemma {:induction false} SelectIsSlice(ledger: seq<Record>, session: string, from: int, to: int)
    requires Ordered(ledger) && from <= to + 1
    ensures Upto(ledger, from - 1) <= Upto(ledger, to)
    ensures Select(ledger, session, from, to)
         == Own(ledger[Upto(ledger, from - 1)..Upto(ledger, to)], session)
  {
    UptoMonotone(ledger, from - 1, to);
    if ledger != [] {
      SelectIsSlice(ledger[..|ledger| - 1], session, from, to);
      UptoOfFront(ledger, from - 1);
      UptoOfFront(ledger, to);
      SliceOfFront(ledger, session, Upto(ledger, from - 1), Upto(ledger, to));
    }
  }

  lemma SliceOfFront(ledger: seq<Record>, session: string, lo: nat, hi: nat)
    requires ledger != [] && lo <= hi <= |ledger|
    ensures var front, last := ledger[..|ledger| - 1], ledger[|ledger| - 1];
            Own(ledger[lo..hi], session)
            == if hi < |ledger| then Own(front[lo..hi], session)
               else if lo < |ledger|
               then Own(front[lo..|front|], session) + if last.session == session then [last] else []
               else []
  {
    var front, last := ledger[..|ledger| - 1], ledger[|ledger| - 1];
    if hi < |ledger| {
      assert ledger[lo..hi] == front[lo..hi];
    } else if lo < |ledger| {
      assert ledger[lo..hi] == front[lo..|front|] + [last];
      OwnAppends(front[lo..|front|], last, session);
    }
  }

  lemma SliceSplits(ledger: seq<Record>, lo: nat, i: nat, j: nat)
    requires lo <= i <= j <= |ledger|
    ensures ledger[lo..j] == ledger[lo..i] + ledger[i..j]
  {
  }

  lemma {:induction false} SelectElements(ledger: seq<Record>, session: string, from: int, to: int)
    ensures forall r :: r in Select(ledger, session, from, to)
                   <==> r in ledger && r.session == session && from <= r.sequence <= to
  {
    if ledger != [] {
      var front, last := ledger[..|ledger| - 1], ledger[|ledger| - 1];
      assert ledger == front + [last];
      SelectElements(front, session, from, to);
    }
  }

  lemma {:induction false} SelectOrdered(ledger: seq<Record>, session: string, from: int, to: int)
    requires Ordered(ledger)
    ensures Ordered(Select(ledger, session, from, to))
  {
    if ledger != [] {
      SelectOrdered(ledger[..|ledger| - 1], session, from, to);
      SelectElements(ledger[..|ledger| - 1], session, from, to);
    }
  }
}
