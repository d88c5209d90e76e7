/** Incremental snapshots of a session: which range is extracted next, whether the snapshot is
    accepted, and what the ranges of a whole run cover. */
module SnapshotPlan {
  import opened Wrappers
  import opened EventLedger
  import opened PagedReads
  import opened SnapshotScans

  /** A transcript identity hash: transcripts of different sessions hash differently. */
  datatype TranscriptId = TranscriptId(session: string, content: string)

  datatype Pipeline = Pipeline(compiler: string, policy: string, configuration: string)

  datatype Cursor = Cursor(byteOffset: nat, lineNumber: nat)

  /** An inspected transcript. `captured` says that the ledger already holds all of it. */
  datatype Source = Source(transcript: TranscriptId, cursor: Cursor, ignoredRecords: nat, captured: bool)

  datatype Snapshot = Snapshot(transcript: TranscriptId, pipeline: Pipeline, from: nat, to: nat, cursor: Cursor)

  datatype Plan =
    | Ready(from: nat, to: nat, through: nat)
    | Current(through: nat)
    | LedgerChanged
    | CaptureNotCurrent
    | UnsupportedSource
    | NoExtractableEvents
    | ReadFailed(error: ReadError)

  /** What one coordination does: nothing new (the plan says why), a refusal, or a snapshot. */
  datatype Coordination =
    | NotReady(plan: Plan)
    | Refused
    | Created(through: nat)
    | Existing(through: nat)

  /** The most recently created snapshot of a session. */
  function Newest(snapshots: seq<Snapshot>, session: string): (r: Option<Snapshot>)
    ensures r.Some? ==> r.value in snapshots && r.value.transcript.session == session
    ensures r.None? ==> forall s | s in snapshots :: s.transcript.session != session
  {
    if snapshots == [] then None
    else
      var last := snapshots[|snapshots| - 1];
      if last.transcript.session == session then Some(last) else Newest(snapshots[..|snapshots| - 1], session)
  }

  predicate SameIdentity(s: Snapshot, source: Source, pipeline: Pipeline) {
    s.transcript == source.transcript && s.pipeline == pipeline
  }

  function Extraction(records: seq<Record>, revision: nat): Plan {
    if records == [] then NoExtractableEvents else Ready(records[0].sequence, records[|records| - 1].sequence, revision)
  }

  /** The decision of the planner, with the ledger reads as range queries. */
  ghost function Planned(ledger: seq<Record>, snapshots: seq<Snapshot>, session: string, expected: nat,
                         inspected: Option<Source>, pipeline: Pipeline): Plan
  {
    var revision := LatestSequence(ledger, session);
    if revision != expected then LedgerChanged
    else if inspected.None? then UnsupportedSource
    else if !inspected.value.captured then CaptureNotCurrent
    else
      var previous := Newest(snapshots, session);
      var matches := previous.Some? && SameIdentity(previous.value, inspected.value, pipeline);
      var first := FirstNew(snapshots, session);
      var added := if first > revision then Ok([]) else RangeRead(ledger, session, first, revision);
      if added.Err? then ReadFailed(added.error)
      else if added.value == [] && matches then Current(revision)
      else
        var again := if added.value == [] && previous.Some?
                     then RangeRead(ledger, session, previous.value.from, previous.value.to) else added;
        if again.Err? then ReadFailed(again.error)
        else Extraction(again.value, revision)
  }

  /** Where the scan for uncovered earlier events starts: after the newest snapshot if it has the
      same transcript and pipeline and ends before the range, and otherwise at the very beginning. */
  function PreviousTo(snapshots: seq<Snapshot>, source: Source, pipeline: Pipeline, from: nat): (n: nat)
    ensures n == 0 || n < from
  {
    var candidate := Newest(snapshots, source.transcript.session);
    if candidate.Some? && SameIdentity(candidate.value, source, pipeline) && candidate.value.to < from
    then candidate.value.to else 0
  }

  predicate CursorNotBehind(previous: Cursor, next: Cursor) {
    previous.byteOffset <= next.byteOffset && previous.lineNumber <= next.lineNumber
  }

  class SnapshotStore {
    var snapshots: seq<Snapshot>

    constructor ()
      ensures snapshots == []
    {
      snapshots := [];
    }

    /** Insert the snapshot unless its identity is already stored. */
    method Put(snapshot: Snapshot) returns (created: bool)
      modifies this
      ensures created <==> snapshot !in old(snapshots)
      ensures snapshots == if created then old(snapshots) + [snapshot] else old(snapshots)
    {
      created := snapshot !in snapshots;
      if created { snapshots := snapshots + [snapshot]; }
    }
  }

  class PreviewCoordinator {
    const store: SnapshotStore

    constructor (store: SnapshotStore)
      ensures this.store == store
    {
      this.store := store;
    }

    method Plan(ledger: seq<Record>, session: string, expected: nat, inspected: Option<Source>, pipeline: Pipeline)
      returns (plan: Plan)
      requires Ordered(ledger)
      ensures plan == Planned(ledger, store.snapshots, session, expected, inspected, pipeline)
    {
      var revision := LatestSequence(ledger, session);
      if revision != expected { return LedgerChanged; }
      if inspected.None? { return UnsupportedSource; }
      if !inspected.value.captured { return CaptureNotCurrent; }
      var previous := Newest(store.snapshots, session);
      var matches := previous.Some? && SameIdentity(previous.value, inspected.value, pipeline);
      var first := FirstNew(store.snapshots, session);
      if first > revision && matches { return Current(revision); }
      var records: seq<Record> := [];
      if first <= revision {
        var added := LedgerRange(ledger, session, first, revision);
        if added.Err? { return ReadFailed(added.error); }
        records := added.value;
      }
      if records == [] && matches { return Current(revision); }
      if records == [] && previous.Some? {
        var again := LedgerRange(ledger, session, previous.value.from, previous.value.to);
        if again.Err? { return ReadFailed(again.error); }
        records := again.value;
      }
      return Extraction(records, revision);
    }

    /** Read the range, claim its completeness, and compare the claim with the observer's view. */
    method Accepts(ledger: seq<Record>, session: string, previousTo: nat, from: nat, to: nat, ignored: nat)
      returns (ok: bool)
      requires Ordered(ledger) && previousTo < from <= to <= LatestSequence(ledger, session)
      requires OwnAt(ledger, session, from)
      ensures ok <==> Acceptable(ledger, session, previousTo, from, to, ignored)
    {
      var read := LedgerRange(ledger, session, from, to);
      if read.Err? || read.value == [] { return false; }
      var claimed := read.value[|read.value| - 1].closes && ignored == 0;
      var observed := Observe(ledger, session, previousTo, from, to);
      if observed.Err? { return false; }
      ClosedIsExact(ledger, session, previousTo, from, to, observed.value);
      return observed.value.sourceClosed == claimed;
    }

    /** Plan, observe, compare the two views of completeness, and store the snapshot. */
    method Coordinate(ledger: seq<Record>, session: string, expected: nat, inspected: Option<Source>,
                      pipeline: Pipeline)
      returns (r: Coordination)
      requires Ordered(ledger)
      requires inspected.Some? ==> inspected.value.transcript.session == session
      requires Bounded(ledger, store.snapshots)
      modifies store
      ensures (store.snapshots, r) == Coordinated(ledger, old(store.snapshots), session, expected, inspected, pipeline)
    {
      var plan := Plan(ledger, session, expected, inspected, pipeline);
      if !plan.Ready? { return NotReady(plan); }
      var source := inspected.value;
      PlannedRange(ledger, store.snapshots, session, expected, inspected, pipeline);
      var previousTo := PreviousTo(store.snapshots, source, pipeline, plan.from);
      var accepted := Accepts(ledger, session, previousTo, plan.from, plan.to, source.ignoredRecords);
      if !accepted { return Refused; }
      var snapshot := Snapshot(source.transcript, pipeline, plan.from, plan.to, source.cursor);
      if snapshot in store.snapshots { return Existing(plan.through); }
      var previous := Newest(store.snapshots, session);
      if previousTo > 0 && previous.Some? && !CursorNotBehind(previous.value.cursor, source.cursor) { return Refused; }
      var created := store.Put(snapshot);
      return Created(plan.through);
    }
  }

  /** The claim made when asking for the snapshot agrees with what the observer sees. */
  ghost predicate CompletenessAgrees(ledger: seq<Record>, session: string, previousTo: nat, from: nat, to: nat,
                                     ignored: nat)
    requires Ordered(ledger) && previousTo < from <= to
  {
    UptoMonotone(ledger, previousTo, from - 1);
    var all := Select(ledger, session, from, to);
    && all != []
    && (all[|all| - 1].closes ==>
          (ignored == 0
           <==> && !EventIn(ledger, session, previousTo, from - 1)
                && !EventIn(ledger, session, to, LatestSequence(ledger, session))
                && GapFreeTail(ledger, previousTo, from - 1)))
  }

  ghost predicate Acceptable(ledger: seq<Record>, session: string, previousTo: nat, from: nat, to: nat, ignored: nat)
    requires Ordered(ledger) && previousTo < from <= to
  {
    && RangeRead(ledger, session, from, to).Ok?
    && LatestSequence(ledger, session) - previousTo <= SCAN_WINDOW
    && CompletenessAgrees(ledger, session, previousTo, from, to, ignored)
  }

  ghost function Coordinated(ledger: seq<Record>, snapshots: seq<Snapshot>, session: string, expected: nat,
                             inspected: Option<Source>, pipeline: Pipeline): (seq<Snapshot>, Coordination)
    requires Ordered(ledger)
  {
    var plan := Planned(ledger, snapshots, session, expected, inspected, pipeline);
    if !plan.Ready? then (snapshots, NotReady(plan))
    else if !(1 <= plan.from <= plan.to) then (snapshots, Refused)
    else
      var source := inspected.value;
      var previousTo := PreviousTo(snapshots, source, pipeline, plan.from);
      var snapshot := Snapshot(source.transcript, pipeline, plan.from, plan.to, source.cursor);
      if !Acceptable(ledger, session, previousTo, plan.from, plan.to, source.ignoredRecords) then (snapshots, Refused)
      else if snapshot in snapshots then (snapshots, Existing(plan.through))
      else
        var previous := Newest(snapshots, session);
        if previousTo > 0 && previous.Some? && !CursorNotBehind(previous.value.cursor, source.cursor)
        then (snapshots, Refused)
        else (snapshots + [snapshot], Created(plan.through))
  }

  /** The session owns the record with this sequence number. */
  ghost predicate OwnAt(ledger: seq<Record>, session: string, sequence: nat) {
    exists i | 0 <= i < |ledger| :: ledger[i].session == session && ledger[i].sequence == sequence
  }

  ghost predicate SameRange(a: Snapshot, b: Snapshot) {
    a.from == b.from && a.to == b.to
  }

  /** Some snapshot of the session has the sequence number in its range. */
  ghost predicate Covered(snapshots: seq<Snapshot>, session: string, sequence: nat) {
    exists i | 0 <= i < |snapshots| ::
      snapshots[i].transcript.session == session && snapshots[i].from <= sequence <= snapshots[i].to
  }

  /** What holds of the snapshots at every moment of a run. */
  ghost predicate Sound(ledger: seq<Record>, snapshots: seq<Snapshot>) {
    && Bounded(ledger, snapshots)
    && Disjoint(snapshots)
    && Complete(ledger, snapshots)
  }

  /** Every range begins and ends at an event of its session. */
  ghost predicate Bounded(ledger: seq<Record>, snapshots: seq<Snapshot>) {
    forall s | s in snapshots ::
      && s.from <= s.to
      && OwnAt(ledger, s.transcript.session, s.from) && OwnAt(ledger, s.transcript.session, s.to)
  }

  /** Two ranges of a session are the same range or follow one another. */
  ghost predicate Disjoint(snapshots: seq<Snapshot>) {
    forall i, j | 0 <= i < j < |snapshots| && snapshots[i].transcript.session == snapshots[j].transcript.session ::
      SameRange(snapshots[i], snapshots[j]) || snapshots[i].to < snapshots[j].from
  }

  /** Every event of a session up to the end of any of its ranges lies in one of its ranges. */
  ghost predicate Complete(ledger: seq<Record>, snapshots: seq<Snapshot>) {
    forall s, r | s in snapshots && r in ledger && r.session == s.transcript.session && r.sequence <= s.to ::
      Covered(snapshots, r.session, r.sequence)
  }

  /** The newest snapshot of a session reaches at least as far as every other. */
  lemma {:induction false} NewestReachesFurthest(snapshots: seq<Snapshot>, session: string)
    requires Disjoint(snapshots)
    requires forall s | s in snapshots :: s.from <= s.to
    ensures Newest(snapshots, session).Some? ==>
              forall s | s in snapshots && s.transcript.session == session ::
                SameRange(s, Newest(snapshots, session).value) || s.to < Newest(snapshots, session).value.from
  {
    if snapshots != [] {
      var front, last := snapshots[..|snapshots| - 1], snapshots[|snapshots| - 1];
      if last.transcript.session != session {
        NewestReachesFurthest(front, session);
      }
      forall s | s in snapshots && s.transcript.session == session && Newest(snapshots, session).Some?
        ensures SameRange(s, Newest(snapshots, session).value) || s.to < Newest(snapshots, session).value.from
      {
        var i :| 0 <= i < |snapshots| && snapshots[i] == s;
        if last.transcript.session != session {
          assert s in front;
        }
      }
    }
  }

  /** Only events after the newest snapshot, and all of them. */
  ghost predicate NextRange(ledger: seq<Record>, snapshots: seq<Snapshot>, session: string, from: nat, to: nat) {
    var previous := Newest(snapshots, session);
    && (previous.Some? ==> previous.value.to < from)
    && to == LatestSequence(ledger, session)
    && !EventIn(ledger, session, if previous.Some? then previous.value.to else 0, from - 1)
  }

  /** Exactly the range of the newest snapshot, which already reaches the session's last event. */
  ghost predicate LatestRangeAgain(ledger: seq<Record>, snapshots: seq<Snapshot>, session: string, from: nat, to: nat) {
    var previous := Newest(snapshots, session);
    && previous.Some? && from == previous.value.from && to == previous.value.to
    && LatestSequence(ledger, session) <= previous.value.to
  }

  lemma RangeEnds(ledger: seq<Record>, session: string, from: nat, to: nat)
    requires Ordered(ledger) && Select(ledger, session, from, to) != []
    ensures var all := Select(ledger, session, from, to);
            var first, last := all[0].sequence, all[|all| - 1].sequence;
            && 1 <= first && from <= first <= last <= to
            && OwnAt(ledger, session, first) && OwnAt(ledger, session, last)
            && !EventIn(ledger, session, from - 1, first - 1)
            && (OwnAt(ledger, session, from) ==> first == from)
            && (OwnAt(ledger, session, to) && from <= to ==> last == to)
  {
    var all := Select(ledger, session, from, to);
    SelectElements(ledger, session, from, to);
    SelectOrdered(ledger, session, from, to);
    assert all[0] in all && all[|all| - 1] in all;
    forall i | 0 <= i < |ledger| && ledger[i].session == session && from <= ledger[i].sequence <= to
      ensures all[0].sequence <= ledger[i].sequence <= all[|all| - 1].sequence
    {
      assert ledger[i] in all;
    }
  }

  lemma OwnIsUpToLatest(ledger: seq<Record>, session: string, sequence: nat)
    requires Ordered(ledger) && OwnAt(ledger, session, sequence)
    ensures 1 <= sequence <= LatestSequence(ledger, session)
    ensures OwnAt(ledger, session, LatestSequence(ledger, session))
  {
    LatestIsMaximum(ledger, session);
  }

  /** With a newer event there is something to extract, and the range ends at the latest event. */
  lemma NewEventsAreSelected(ledger: seq<Record>, session: string, first: nat)
    requires Ordered(ledger) && 1 <= first <= LatestSequence(ledger, session)
    ensures var all := Select(ledger, session, first, LatestSequence(ledger, session));
            && all != [] && all[|all| - 1].sequence == LatestSequence(ledger, session)
  {
    var revision := LatestSequence(ledger, session);
    LatestIsMaximum(ledger, session);
    SelectElements(ledger, session, first, revision);
    var i :| 0 <= i < |ledger| && ledger[i].session == session && ledger[i].sequence == revision;
    assert ledger[i] in Select(ledger, session, first, revision);
    RangeEnds(ledger, session, first, revision);
  }

  ghost predicate RangeOwned(ledger: seq<Record>, session: string, from: nat, to: nat) {
    && 1 <= from <= to <= LatestSequence(ledger, session)
    && OwnAt(ledger, session, from) && OwnAt(ledger, session, to)
  }

  /** Where the next range may begin. */
  function FirstNew(snapshots: seq<Snapshot>, session: string): nat {
    var previous := Newest(snapshots, session);
    if previous.Some? then previous.value.to + 1 else 1
  }

  lemma SelectedRangeIsNext(ledger: seq<Record>, snapshots: seq<Snapshot>, session: string)
    requires Ordered(ledger) && FirstNew(snapshots, session) <= LatestSequence(ledger, session)
    ensures var all := Select(ledger, session, FirstNew(snapshots, session), LatestSequence(ledger, session));
            && all != []
            && RangeOwned(ledger, session, all[0].sequence, all[|all| - 1].sequence)
            && NextRange(ledger, snapshots, session, all[0].sequence, all[|all| - 1].sequence)
  {
    var first := FirstNew(snapshots, session);
    NewEventsAreSelected(ledger, session, first);
    RangeEnds(ledger, session, first, LatestSequence(ledger, session));
  }

  lemma RangeBetweenOwnEvents(ledger: seq<Record>, session: string, from: nat, to: nat)
    requires Ordered(ledger) && from <= to && OwnAt(ledger, session, from) && OwnAt(ledger, session, to)
    ensures var all := Select(ledger, session, from, to);
            && all != [] && all[0].sequence == from && all[|all| - 1].sequence == to
            && RangeOwned(ledger, session, from, to)
  {
    SelectElements(ledger, session, from, to);
    var i :| 0 <= i < |ledger| && ledger[i].session == session && ledger[i].sequence == from;
    assert ledger[i] in Select(ledger, session, from, to);
    RangeEnds(ledger, session, from, to);
    OwnIsUpToLatest(ledger, session, to);
  }

  /** The plan made when there are newer events. */
  lemma PlansNextRange(ledger: seq<Record>, snapshots: seq<Snapshot>, session: string, expected: nat,
                       inspected: Option<Source>, pipeline: Pipeline)
    requires Ordered(ledger) && FirstNew(snapshots, session) <= LatestSequence(ledger, session)
    ensures var plan := Planned(ledger, snapshots, session, expected, inspected, pipeline);
            !plan.Current? && plan != NoExtractableEvents
            && (plan.Ready? ==>
                  && plan.through == LatestSequence(ledger, session)
                  && RangeOwned(ledger, session, plan.from, plan.to)
                  && NextRange(ledger, snapshots, session, plan.from, plan.to))
  {
    SelectedRangeIsNext(ledger, snapshots, session);
    var all := Select(ledger, session, FirstNew(snapshots, session), LatestSequence(ledger, session));
    var plan := Planned(ledger, snapshots, session, expected, inspected, pipeline);
    if plan.Ready? {
      assert plan == Ready(all[0].sequence, all[|all| - 1].sequence, LatestSequence(ledger, session));
    }
  }

  /** The plan made when there are none. */
  lemma PlansLatestRangeAgain(ledger: seq<Record>, snapshots: seq<Snapshot>, session: string, expected: nat,
                              inspected: Option<Source>, pipeline: Pipeline)
    requires Ordered(ledger) && Bounded(ledger, snapshots)
    requires FirstNew(snapshots, session) > LatestSequence(ledger, session)
    ensures var plan := Planned(ledger, snapshots, session, expected, inspected, pipeline);
            plan.Ready? ==>
              && plan.through == LatestSequence(ledger, session)
              && RangeOwned(ledger, session, plan.from, plan.to)
              && LatestRangeAgain(ledger, snapshots, session, plan.from, plan.to)
              && inspected.Some? && !SameIdentity(Newest(snapshots, session).value, inspected.value, pipeline)
  {
    var plan := Planned(ledger, snapshots, session, expected, inspected, pipeline);
    var previous := Newest(snapshots, session);
    if plan.Ready? {
      RangeBetweenOwnEvents(ledger, session, previous.value.from, previous.value.to);
      assert plan == Ready(previous.value.from, previous.value.to, LatestSequence(ledger, session));
    }
  }

  /** A ready plan names either the next range or exactly the latest range again, the second only when
      there is nothing new and the transcript or the pipeline is not that of the newest snapshot. Both
      ends are events of the session. */
  lemma PlannedRange(ledger: seq<Record>, snapshots: seq<Snapshot>, session: string, expected: nat,
                     inspected: Option<Source>, pipeline: Pipeline)
    requires Ordered(ledger) && Bounded(ledger, snapshots)
    ensures var plan := Planned(ledger, snapshots, session, expected, inspected, pipeline);
            plan.Ready? ==>
              && plan.through == LatestSequence(ledger, session)
              && RangeOwned(ledger, session, plan.from, plan.to)
              && (|| NextRange(ledger, snapshots, session, plan.from, plan.to)
                  || LatestRangeAgain(ledger, snapshots, session, plan.from, plan.to))
              && inspected.Some?
              && (LatestRangeAgain(ledger, snapshots, session, plan.from, plan.to) ==>
                    !SameIdentity(Newest(snapshots, session).value, inspected.value, pipeline))
  {
    if FirstNew(snapshots, session) <= LatestSequence(ledger, session) {
      PlansNextRange(ledger, snapshots, session, expected, inspected, pipeline);
    } else {
      PlansLatestRangeAgain(ledger, snapshots, session, expected, inspected, pipeline);
    }
  }

  lemma CreatedKeepsBounded(ledger: seq<Record>, snapshots: seq<Snapshot>, s: Snapshot)
    requires Bounded(ledger, snapshots) && RangeOwned(ledger, s.transcript.session, s.from, s.to)
    ensures Bounded(ledger, snapshots + [s])
  {
  }

  lemma CreatedKeepsDisjoint(ledger: seq<Record>, snapshots: seq<Snapshot>, s: Snapshot)
    requires Bounded(ledger, snapshots) && Disjoint(snapshots)
    requires || NextRange(ledger, snapshots, s.transcript.session, s.from, s.to)
             || LatestRangeAgain(ledger, snapshots, s.transcript.session, s.from, s.to)
    ensures Disjoint(snapshots + [s])
  {
    var session := s.transcript.session;
    NewestReachesFurthest(snapshots, session);
    forall i | 0 <= i < |snapshots| && snapshots[i].transcript.session == session
      ensures SameRange(snapshots[i], s) || snapshots[i].to < s.from
    {
      assert snapshots[i] in snapshots;
      var previous := Newest(snapshots, session).value;
      assert SameRange(snapshots[i], previous) || snapshots[i].to < previous.from;
    }
  }

  lemma CoveredExtends(snapshots: seq<Snapshot>, s: Snapshot, session: string, sequence: nat)
    ensures Covered(snapshots, session, sequence) ==> Covered(snapshots + [s], session, sequence)
    ensures s.transcript.session == session && s.from <= sequence <= s.to
            ==> Covered(snapshots + [s], session, sequence)
  {
    var all := snapshots + [s];
    if Covered(snapshots, session, sequence) {
      var i :| 0 <= i < |snapshots| && snapshots[i].transcript.session == session
               && snapshots[i].from <= sequence <= snapshots[i].to;
      assert all[i] == snapshots[i];
    }
    assert all[|snapshots|] == s;
  }

  /** Up to the end of a planned range every event of the session is covered once the range is. */
  lemma PlannedRangeCovers(ledger: seq<Record>, snapshots: seq<Snapshot>, s: Snapshot, r: Record)
    requires Ordered(ledger) && Complete(ledger, snapshots)
    requires r in ledger && r.session == s.transcript.session && r.sequence <= s.to
    requires || NextRange(ledger, snapshots, r.session, s.from, s.to)
             || LatestRangeAgain(ledger, snapshots, r.session, s.from, s.to)
    ensures Covered(snapshots + [s], r.session, r.sequence)
  {
    CoveredExtends(snapshots, s, r.session, r.sequence);
    var previous := Newest(snapshots, r.session);
    if r.sequence < s.from {
      var i :| 0 <= i < |ledger| && ledger[i] == r;
      if previous.Some? && r.sequence <= previous.value.to {
        assert Covered(snapshots, r.session, r.sequence);
      }
    }
  }

  lemma CreatedKeepsComplete(ledger: seq<Record>, snapshots: seq<Snapshot>, s: Snapshot)
    requires Ordered(ledger) && Complete(ledger, snapshots)
    requires || NextRange(ledger, snapshots, s.transcript.session, s.from, s.to)
             || LatestRangeAgain(ledger, snapshots, s.transcript.session, s.from, s.to)
    ensures Complete(ledger, snapshots + [s])
  {
    forall t, r | t in snapshots + [s] && r in ledger && r.session == t.transcript.session && r.sequence <= t.to
      ensures Covered(snapshots + [s], r.session, r.sequence)
    {
      if t in snapshots {
        assert Covered(snapshots, r.session, r.sequence);
        CoveredExtends(snapshots, s, r.session, r.sequence);
      } else {
        PlannedRangeCovers(ledger, snapshots, s, r);
      }
    }
  }

  /** Every event of the session up to `through` is in some snapshot's range. */
  ghost predicate CoveredThrough(ledger: seq<Record>, snapshots: seq<Snapshot>, session: string, through: nat) {
    forall r | r in ledger && r.session == session && r.sequence <= through :: Covered(snapshots, session, r.sequence)
  }

  /** The snapshot asked for by a ready plan. */
  function Requested(plan: Plan, source: Source, pipeline: Pipeline): Snapshot
    requires plan.Ready?
  {
    Snapshot(source.transcript, pipeline, plan.from, plan.to, source.cursor)
  }

  lemma CoordinatedShape(ledger: seq<Record>, snapshots: seq<Snapshot>, session: string, expected: nat,
                         inspected: Option<Source>, pipeline: Pipeline)
    requires Ordered(ledger)
    ensures var (after, r) := Coordinated(ledger, snapshots, session, expected, inspected, pipeline);
            var plan := Planned(ledger, snapshots, session, expected, inspected, pipeline);
            && (!r.Created? ==> after == snapshots)
            && (r.NotReady? ==> r.plan == plan && !plan.Ready?)
            && (r.Created? || r.Existing? ==> plan.Ready? && inspected.Some? && r.through == plan.through)
            && (r.Created? ==> after == snapshots + [Requested(plan, inspected.value, pipeline)])
            && (r.Existing? ==> Requested(plan, inspected.value, pipeline) in snapshots)
  {
  }

  /** A snapshot of the next range, or of the latest range again. */
  ghost predicate Extends(ledger: seq<Record>, snapshots: seq<Snapshot>, s: Snapshot) {
    && RangeOwned(ledger, s.transcript.session, s.from, s.to)
    && (|| NextRange(ledger, snapshots, s.transcript.session, s.from, s.to)
        || LatestRangeAgain(ledger, snapshots, s.transcript.session, s.from, s.to))
  }

  lemma ExtendsKeepsSound(ledger: seq<Record>, snapshots: seq<Snapshot>, s: Snapshot)
    requires Ordered(ledger) && Sound(ledger, snapshots) && Extends(ledger, snapshots, s)
    ensures Sound(ledger, snapshots + [s])
  {
    CreatedKeepsBounded(ledger, snapshots, s);
    CreatedKeepsDisjoint(ledger, snapshots, s);
    CreatedKeepsComplete(ledger, snapshots, s);
  }

  lemma SoundCoversThrough(ledger: seq<Record>, snapshots: seq<Snapshot>, s: Snapshot, through: nat)
    requires Sound(ledger, snapshots) && s in snapshots && through <= s.to
    ensures CoveredThrough(ledger, snapshots, s.transcript.session, through)
  {
  }

  /** One coordination keeps the ranges disjoint and complete. */
  lemma CoordinationKeepsSound(ledger: seq<Record>, snapshots: seq<Snapshot>, session: string, expected: nat,
                               inspected: Option<Source>, pipeline: Pipeline)
    requires Ordered(ledger) && Sound(ledger, snapshots)
    requires inspected.Some? ==> inspected.value.transcript.session == session
    ensures Sound(ledger, Coordinated(ledger, snapshots, session, expected, inspected, pipeline).0)
  {
    CoordinatedShape(ledger, snapshots, session, expected, inspected, pipeline);
    PlannedRange(ledger, snapshots, session, expected, inspected, pipeline);
    var plan := Planned(ledger, snapshots, session, expected, inspected, pipeline);
    if Coordinated(ledger, snapshots, session, expected, inspected, pipeline).1.Created? {
      ExtendsKeepsSound(ledger, snapshots, Requested(plan, inspected.value, pipeline));
    }
  }

  lemma CurrentIsUpToDate(ledger: seq<Record>, snapshots: seq<Snapshot>, session: string, expected: nat,
                          inspected: Option<Source>, pipeline: Pipeline)
    requires Ordered(ledger)
    requires Planned(ledger, snapshots, session, expected, inspected, pipeline).Current?
    ensures Newest(snapshots, session).Some?
    ensures Planned(ledger, snapshots, session, expected, inspected, pipeline).through
         == LatestSequence(ledger, session) <= Newest(snapshots, session).value.to
  {
    if FirstNew(snapshots, session) <= LatestSequence(ledger, session) {
      PlansNextRange(ledger, snapshots, session, expected, inspected, pipeline);
    }
  }

  lemma RequestedReachesThrough(ledger: seq<Record>, snapshots: seq<Snapshot>, session: string, expected: nat,
                                inspected: Option<Source>, pipeline: Pipeline)
    requires Ordered(ledger) && Bounded(ledger, snapshots)
    ensures var plan := Planned(ledger, snapshots, session, expected, inspected, pipeline);
            plan.Ready? ==> plan.through <= plan.to
  {
    PlannedRange(ledger, snapshots, session, expected, inspected, pipeline);
  }

  /** Whenever a coordination answers with a compiled-through sequence, all events up to it are covered. */
  lemma CoordinationCoversThrough(ledger: seq<Record>, snapshots: seq<Snapshot>, session: string, expected: nat,
                                  inspected: Option<Source>, pipeline: Pipeline)
    requires Ordered(ledger) && Sound(ledger, snapshots)
    requires inspected.Some? ==> inspected.value.transcript.session == session
    ensures var (after, r) := Coordinated(ledger, snapshots, session, expected, inspected, pipeline);
            match r
            case Created(through) => CoveredThrough(ledger, after, session, through)
            case Existing(through) => CoveredThrough(ledger, after, session, through)
            case NotReady(Current(through)) => CoveredThrough(ledger, after, session, through)
            case _ => true
  {
    var (after, r) := Coordinated(ledger, snapshots, session, expected, inspected, pipeline);
    var plan := Planned(ledger, snapshots, session, expected, inspected, pipeline);
    CoordinatedShape(ledger, snapshots, session, expected, inspected, pipeline);
    CoordinationKeepsSound(ledger, snapshots, session, expected, inspected, pipeline);
    if r.Created? || r.Existing? {
      RequestedReachesThrough(ledger, snapshots, session, expected, inspected, pipeline);
      SoundCoversThrough(ledger, after, Requested(plan, inspected.value, pipeline), plan.through);
    } else if r.NotReady? && plan.Current? {
      CurrentIsUpToDate(ledger, snapshots, session, expected, inspected, pipeline);
      SoundCoversThrough(ledger, after, Newest(snapshots, session).value, plan.through);
    }
  }

  lemma OwnAtAppends(ledger: seq<Record>, more: seq<Record>, session: string, sequence: nat)
    requires OwnAt(ledger, session, sequence)
    ensures OwnAt(ledger + more, session, sequence)
  {
    var i :| 0 <= i < |ledger| && ledger[i].session == session && ledger[i].sequence == sequence;
    assert (ledger + more)[i].session == session && (ledger + more)[i].sequence == sequence;
  }

  lemma PrefixOrdered(ledger: seq<Record>, more: seq<Record>)
    requires Ordered(ledger + more)
    ensures Ordered(ledger)
    ensures forall r, i | r in ledger + more && 0 <= i < |ledger| && r.sequence <= ledger[i].sequence :: r in ledger
  {
    var all := ledger + more;
    forall i | 0 <= i < |ledger| ensures ledger[i] == all[i] { }
    forall r, i | r in all && 0 <= i < |ledger| && r.sequence <= ledger[i].sequence ensures r in ledger {
      var k :| 0 <= k < |all| && all[k] == r;
      assert k <= i;
      assert ledger[k] == r;
    }
  }

  /** Appending to the ledger keeps the ranges disjoint and complete. */
  lemma AppendKeepsSound(ledger: seq<Record>, more: seq<Record>, snapshots: seq<Snapshot>)
    requires Ordered(ledger + more) && Sound(ledger, snapshots)
    ensures Ordered(ledger) && Sound(ledger + more, snapshots)
  {
    PrefixOrdered(ledger, more);
    forall s | s in snapshots
      ensures OwnAt(ledger + more, s.transcript.session, s.from) && OwnAt(ledger + more, s.transcript.session, s.to)
      ensures forall r | r in ledger + more && r.sequence <= s.to :: r in ledger
    {
      OwnAtAppends(ledger, more, s.transcript.session, s.from);
      OwnAtAppends(ledger, more, s.transcript.session, s.to);
      var j :| 0 <= j < |ledger| && ledger[j].session == s.transcript.session && ledger[j].sequence == s.to;
    }
  }

  datatype Action =
    | Append(more: seq<Record>)
    | Coordinate(session: string, expected: nat, inspected: Option<Source>, pipeline: Pipeline)

  ghost predicate Possible(ledger: seq<Record>, action: Action) {
    match action
    case Append(more) => Ordered(ledger + more)
    case Coordinate(session, _, inspected, _) =>
      inspected.Some? ==> inspected.value.transcript.session == session
  }

  /** A serial run: appends and coordinations, each finished before the next begins. */
  ghost function Run(ledger: seq<Record>, snapshots: seq<Snapshot>, actions: seq<Action>)
    : (r: (seq<Record>, seq<Snapshot>))
    requires Ordered(ledger)
    ensures Ordered(r.0)
    decreases |actions|
  {
    if actions == [] || !Possible(ledger, actions[0]) then (ledger, snapshots)
    else
      match actions[0]
      case Append(more) => Run(ledger + more, snapshots, actions[1..])
      case Coordinate(session, expected, inspected, pipeline) =>
        Run(ledger, Coordinated(ledger, snapshots, session, expected, inspected, pipeline).0, actions[1..])
  }

  /** Over every serial run the ranges of a session are disjoint, or the same range again, and cover
      every event up to the end of the last one. */
  lemma {:induction false} RunsAreSound(ledger: seq<Record>, snapshots: seq<Snapshot>, actions: seq<Action>)
    requires Ordered(ledger) && Sound(ledger, snapshots)
    ensures var (l, s) := Run(ledger, snapshots, actions); Sound(l, s)
    decreases |actions|
  {
    if actions != [] && Possible(ledger, actions[0]) {
      match actions[0]
      case Append(more) =>
        AppendKeepsSound(ledger, more, snapshots);
        RunsAreSound(ledger + more, snapshots, actions[1..]);
      case Coordinate(session, expected, inspected, pipeline) =>
        CoordinationKeepsSound(ledger, snapshots, session, expected, inspected, pipeline);
        RunsAreSound(ledger, Coordinated(ledger, snapshots, session, expected, inspected, pipeline).0, actions[1..]);
    }
  }

  /** There is nothing new, and the range of the newest snapshot has been extracted before from this very
      transcript, up to this cursor, by this pipeline. */
  ghost predicate Repeats(ledger: seq<Record>, snapshots: seq<Snapshot>, session: string, source: Source,
                          pipeline: Pipeline) {
    var newest := Newest(snapshots, session);
    && newest.Some? && LatestSequence(ledger, session) <= newest.value.to
    && Snapshot(source.transcript, pipeline, newest.value.from, newest.value.to, source.cursor) in snapshots
  }

  /** A coordination that answers for a snapshot finds it exactly if the request repeats one. */
  lemma ExistingExactly(ledger: seq<Record>, snapshots: seq<Snapshot>, session: string, expected: nat,
                        inspected: Option<Source>, pipeline: Pipeline)
    requires Ordered(ledger) && Sound(ledger, snapshots)
    requires inspected.Some? ==> inspected.value.transcript.session == session
    ensures var (after, r) := Coordinated(ledger, snapshots, session, expected, inspected, pipeline);
            r.Created? || r.Existing? ==>
              inspected.Some? && (r.Existing? <==> Repeats(ledger, snapshots, session, inspected.value, pipeline))
  {
    CoordinatedShape(ledger, snapshots, session, expected, inspected, pipeline);
    PlannedRange(ledger, snapshots, session, expected, inspected, pipeline);
    NewestReachesFurthest(snapshots, session);
  }

  /** A new snapshot settles the question: it is answered with CURRENT from then on. */
  lemma CreatedSettles(ledger: seq<Record>, snapshots: seq<Snapshot>, session: string, expected: nat,
                       inspected: Option<Source>, pipeline: Pipeline)
    requires Ordered(ledger) && Bounded(ledger, snapshots)
    requires inspected.Some? ==> inspected.value.transcript.session == session
    ensures var (after, r) := Coordinated(ledger, snapshots, session, expected, inspected, pipeline);
            r.Created? ==> Planned(ledger, after, session, expected, inspected, pipeline) == Current(r.through)
  {
    PlannedRange(ledger, snapshots, session, expected, inspected, pipeline);
    var (after, r) := Coordinated(ledger, snapshots, session, expected, inspected, pipeline);
    if r.Created? {
      var s := Requested(Planned(ledger, snapshots, session, expected, inspected, pipeline), inspected.value, pipeline);
      assert after[|after| - 1] == s && Newest(after, session) == Some(s);
    }
  }

  /** The snapshots after coordinating `n` times over an unchanged ledger. */
  ghost function Coordinations(ledger: seq<Record>, snapshots: seq<Snapshot>, session: string, expected: nat,
                               inspected: Option<Source>, pipeline: Pipeline, n: nat): seq<Snapshot>
    requires Ordered(ledger)
    decreases n
  {
    if n == 0 then snapshots
    else
      var before := Coordinations(ledger, snapshots, session, expected, inspected, pipeline, n - 1);
      Coordinated(ledger, before, session, expected, inspected, pipeline).0
  }

  lemma {:induction false} CoordinationsStay(ledger: seq<Record>, snapshots: seq<Snapshot>, session: string,
                                             expected: nat, inspected: Option<Source>, pipeline: Pipeline, n: nat)
    requires Ordered(ledger) && n >= 1
    requires var first := Coordinated(ledger, snapshots, session, expected, inspected, pipeline).0;
             Coordinated(ledger, first, session, expected, inspected, pipeline).0 == first
    ensures Coordinations(ledger, snapshots, session, expected, inspected, pipeline, n)
            == Coordinated(ledger, snapshots, session, expected, inspected, pipeline).0
    decreases n
  {
    if n == 1 {
      assert Coordinations(ledger, snapshots, session, expected, inspected, pipeline, 0) == snapshots;
    } else {
      CoordinationsStay(ledger, snapshots, session, expected, inspected, pipeline, n - 1);
    }
  }

  /** What the same question is answered with after a coordination that answered for a snapshot. */
  lemma SecondAnswer(ledger: seq<Record>, snapshots: seq<Snapshot>, session: string, expected: nat,
                     inspected: Option<Source>, pipeline: Pipeline)
    requires Ordered(ledger) && Sound(ledger, snapshots)
    requires inspected.Some? && inspected.value.transcript.session == session
    requires var r := Coordinated(ledger, snapshots, session, expected, inspected, pipeline).1;
             r.Created? || r.Existing?
    ensures var (first, r) := Coordinated(ledger, snapshots, session, expected, inspected, pipeline);
            var plan := Planned(ledger, first, session, expected, inspected, pipeline);
            if Repeats(ledger, snapshots, session, inspected.value, pipeline)
            then first == snapshots && plan.Ready?
                 && plan == Planned(ledger, snapshots, session, expected, inspected, pipeline)
            else plan == Current(r.through)
  {
    ExistingExactly(ledger, snapshots, session, expected, inspected, pipeline);
    CreatedSettles(ledger, snapshots, session, expected, inspected, pipeline);
    CoordinatedShape(ledger, snapshots, session, expected, inspected, pipeline);
  }

  /** The range that is planned can be stored: it can be read and validated, request and observer agree on
      its completeness, and the cursor is not behind that of the snapshot it follows. */
  ghost predicate Storable(ledger: seq<Record>, snapshots: seq<Snapshot>, session: string, source: Source,
                           pipeline: Pipeline, from: nat, to: nat)
    requires Ordered(ledger)
  {
    var previousTo := PreviousTo(snapshots, source, pipeline, from);
    var newest := Newest(snapshots, session);
    && 1 <= from <= to
    && Acceptable(ledger, session, previousTo, from, to, source.ignoredRecords)
    && (previousTo > 0 && newest.Some? ==> CursorNotBehind(newest.value.cursor, source.cursor))
  }

  /** A snapshot that continues the newest one is not in the store yet, so its cursor is always compared. */
  lemma ContinuingIsNew(ledger: seq<Record>, snapshots: seq<Snapshot>, session: string, source: Source,
                        pipeline: Pipeline, from: nat, to: nat)
    requires Sound(ledger, snapshots) && source.transcript.session == session && from <= to
    requires PreviousTo(snapshots, source, pipeline, from) > 0
    ensures Snapshot(source.transcript, pipeline, from, to, source.cursor) !in snapshots
  {
    NewestReachesFurthest(snapshots, session);
  }

  /** A coordination answers for a snapshot exactly if its plan is ready and the range can be stored. */
  lemma AnswersExactly(ledger: seq<Record>, snapshots: seq<Snapshot>, session: string, expected: nat,
                       inspected: Option<Source>, pipeline: Pipeline)
    requires Ordered(ledger) && Sound(ledger, snapshots)
    requires inspected.Some? ==> inspected.value.transcript.session == session
    ensures var r := Coordinated(ledger, snapshots, session, expected, inspected, pipeline).1;
            var plan := Planned(ledger, snapshots, session, expected, inspected, pipeline);
            (r.Created? || r.Existing?) <==>
              && plan.Ready? && inspected.Some?
              && Storable(ledger, snapshots, session, inspected.value, pipeline, plan.from, plan.to)
  {
    PlannedRange(ledger, snapshots, session, expected, inspected, pipeline);
    var plan := Planned(ledger, snapshots, session, expected, inspected, pipeline);
    if plan.Ready? && PreviousTo(snapshots, inspected.value, pipeline, plan.from) > 0 {
      ContinuingIsNew(ledger, snapshots, session, inspected.value, pipeline, plan.from, plan.to);
    }
  }

  /** Coordinating changes the answer to the same question exactly if the plan was ready, its range can be
      stored, and it repeats no snapshot. */
  ghost predicate Settles(ledger: seq<Record>, snapshots: seq<Snapshot>, session: string, source: Source,
                          pipeline: Pipeline, plan: Plan)
    requires Ordered(ledger)
  {
    && plan.Ready?
    && Storable(ledger, snapshots, session, source, pipeline, plan.from, plan.to)
    && !Repeats(ledger, snapshots, session, source, pipeline)
  }

  /** Coordinating again and again: the question is settled at once, by one snapshot, and CURRENT for ever;
      or nothing is ever stored, and it gets the same answer for ever. */
  lemma SettlesExactly(ledger: seq<Record>, snapshots: seq<Snapshot>, session: string, expected: nat,
                       inspected: Option<Source>, pipeline: Pipeline, n: nat)
    requires Ordered(ledger) && Sound(ledger, snapshots) && n >= 1
    requires inspected.Some? ==> inspected.value.transcript.session == session
    ensures var plan := Planned(ledger, snapshots, session, expected, inspected, pipeline);
            var after := Coordinations(ledger, snapshots, session, expected, inspected, pipeline, n);
            var next := Planned(ledger, after, session, expected, inspected, pipeline);
            if inspected.Some? && Settles(ledger, snapshots, session, inspected.value, pipeline, plan)
            then after == snapshots + [Requested(plan, inspected.value, pipeline)] && next == Current(plan.through)
            else after == snapshots && next == plan
  {
    AnswersExactly(ledger, snapshots, session, expected, inspected, pipeline);
    CoordinatedShape(ledger, snapshots, session, expected, inspected, pipeline);
    var (first, r) := Coordinated(ledger, snapshots, session, expected, inspected, pipeline);
    if r.Created? || r.Existing? {
      SecondAnswer(ledger, snapshots, session, expected, inspected, pipeline);
    }
    CoordinatedShape(ledger, first, session, expected, inspected, pipeline);
    CoordinationsStay(ledger, snapshots, session, expected, inspected, pipeline, n);
  }

  /** The pipeline or the transcript has changed, all of the transcript is supported, and the range ends the
      session but does not begin it. */
  ghost predicate EndsAfterChange(ledger: seq<Record>, snapshots: seq<Snapshot>, session: string, source: Source,
                                  pipeline: Pipeline, from: nat, to: nat)
  {
    var newest, all := Newest(snapshots, session), Select(ledger, session, from, to);
    && newest.Some? && !SameIdentity(newest.value, source, pipeline)
    && source.ignoredRecords == 0
    && EventIn(ledger, session, 0, from - 1)
    && all != [] && all[|all| - 1].closes
  }

  lemma EarlierEventsForbidStoring(ledger: seq<Record>, snapshots: seq<Snapshot>, session: string, source: Source,
                                   pipeline: Pipeline, from: nat, to: nat)
    requires Ordered(ledger) && source.transcript.session == session
    requires EndsAfterChange(ledger, snapshots, session, source, pipeline, from, to)
    ensures !Storable(ledger, snapshots, session, source, pipeline, from, to)
  {
    assert PreviousTo(snapshots, source, pipeline, from) == 0;
  }

  /** After a change of the pipeline or the transcript, an ended session whose range is not its first is
      never compiled: the observer starts from the beginning and sees the events before the range, so it
      calls the source open that the request calls closed. */
  lemma EndedRangeNeverSettles(ledger: seq<Record>, snapshots: seq<Snapshot>, session: string, expected: nat,
                               source: Source, pipeline: Pipeline, plan: Plan, n: nat)
    requires Ordered(ledger) && Sound(ledger, snapshots) && n >= 1
    requires source.transcript.session == session && plan.Ready?
    requires Planned(ledger, snapshots, session, expected, Some(source), pipeline) == plan
    requires EndsAfterChange(ledger, snapshots, session, source, pipeline, plan.from, plan.to)
    ensures var after := Coordinations(ledger, snapshots, session, expected, Some(source), pipeline, n);
            after == snapshots && Planned(ledger, after, session, expected, Some(source), pipeline) == plan
  {
    EarlierEventsForbidStoring(ledger, snapshots, session, source, pipeline, plan.from, plan.to);
    assert !Settles(ledger, snapshots, session, source, pipeline, plan);
    SettlesExactly(ledger, snapshots, session, expected, Some(source), pipeline, n);
  }

  lemma SingleRead(closes: bool)
    ensures var ledger := [Record(1, "own", closes)];
            && Ordered(ledger) && LatestSequence(ledger, "own") == 1 && Upto(ledger, 0) == 0 && Upto(ledger, 1) == 1
            && Select(ledger, "own", 1, 1) == ledger && Reaches(ledger, 1)
  {
    var ledger := [Record(1, "own", closes)];
    assert ledger[..0] == [];
    assert Select([], "own", 1, 1) == [];
    assert ledger[0].sequence >= 1;
    UptoIs(ledger, 0, 0);
  }

  lemma SingleRecord(closes: bool, ignored: nat)
    ensures var ledger := [Record(1, "own", closes)];
            && Ordered(ledger) && LatestSequence(ledger, "own") == 1
            && Select(ledger, "own", 1, 1) == ledger
            && RangeRead(ledger, "own", 1, 1) == Ok(ledger)
            && (Acceptable(ledger, "own", 0, 1, 1, ignored) <==> closes ==> ignored == 0)
  {
    SingleRead(closes);
  }

  /** Switching the pipeline away and back never settles: the old snapshot exists, but it is not the
      newest, so the session is planned again and again. */
  lemma SwitchingBackNeverSettles(a: Pipeline, b: Pipeline, source: Source)
    requires a != b && source.captured && source.transcript.session == "own"
    ensures var ledger := [Record(1, "own", false)];
            var both := [Snapshot(source.transcript, a, 1, 1, source.cursor),
                         Snapshot(source.transcript, b, 1, 1, source.cursor)];
            && Ordered(ledger)
            && Coordinated(ledger, both[..1], "own", 1, Some(source), b) == (both, Created(1))
            && Coordinated(ledger, both, "own", 1, Some(source), a) == (both, Existing(1))
            && Planned(ledger, both, "own", 1, Some(source), a) == Ready(1, 1, 1)
  {
    var ledger := [Record(1, "own", false)];
    var first := Snapshot(source.transcript, a, 1, 1, source.cursor);
    var second := Snapshot(source.transcript, b, 1, 1, source.cursor);
    SingleRecord(false, source.ignoredRecords);
    assert [first, second][..1] == [first];
    assert Newest([first], "own") == Some(first);
    assert Newest([first, second], "own") == Some(second);
    assert Planned(ledger, [first], "own", 1, Some(source), b) == Ready(1, 1, 1);
    assert Planned(ledger, [first, second], "own", 1, Some(source), a) == Ready(1, 1, 1);
    assert PreviousTo([first], source, b, 1) == 0;
    assert [first] + [second] == [first, second] && first == [first, second][0];
    assert second !in [first];
    assert Coordinated(ledger, [first], "own", 1, Some(source), b) == ([first, second], Created(1));
    assert Coordinated(ledger, [first, second], "own", 1, Some(source), a) == ([first, second], Existing(1));
    assert PreviousTo([first, second], source, a, 1) == 0;
  }

  /** An ended session with an unsupported transcript record is refused: the request calls its source
      open, the observer calls it closed. */
  lemma EndedSessionWithIgnoredRecordIsRefused(pipeline: Pipeline, source: Source)
    requires source.captured && source.transcript.session == "own" && source.ignoredRecords > 0
    ensures var ledger := [Record(1, "own", true)];
            && Ordered(ledger)
            && Planned(ledger, [], "own", 1, Some(source), pipeline) == Ready(1, 1, 1)
            && Coordinated(ledger, [], "own", 1, Some(source), pipeline) == ([], Refused)
  {
    SingleRecord(true, source.ignoredRecords);
    assert PreviousTo([], source, pipeline, 1) == 0;
  }

  lemma TwoRangesAreSound(a: Pipeline, transcript: TranscriptId, cursor: Cursor)
    requires transcript.session == "own"
    ensures var ledger := [Record(1, "own", false), Record(2, "own", true)];
            var snapshots := [Snapshot(transcript, a, 1, 1, cursor), Snapshot(transcript, a, 2, 2, cursor)];
            Ordered(ledger) && Sound(ledger, snapshots)
  {
    var ledger := [Record(1, "own", false), Record(2, "own", true)];
    var snapshots := [Snapshot(transcript, a, 1, 1, cursor), Snapshot(transcript, a, 2, 2, cursor)];
    assert ledger[0].sequence == 1 && ledger[1].sequence == 2;
    assert OwnAt(ledger, "own", 1) && OwnAt(ledger, "own", 2);
    assert forall s | s in snapshots :: s == snapshots[0] || s == snapshots[1];
    forall r | r in ledger ensures Covered(snapshots, "own", r.sequence) {
      assert r == ledger[0] || r == ledger[1];
      assert snapshots[0].from <= 1 <= snapshots[0].to && snapshots[1].from <= 2 <= snapshots[1].to;
    }
  }

  lemma TwoRangesArePlannedAgain(a: Pipeline, b: Pipeline, source: Source)
    requires a != b && source.captured && source.transcript.session == "own"
    ensures var ledger := [Record(1, "own", false), Record(2, "own", true)];
            var snapshots := [Snapshot(source.transcript, a, 1, 1, source.cursor),
                              Snapshot(source.transcript, a, 2, 2, source.cursor)];
            && Ordered(ledger) && Newest(snapshots, "own") == Some(snapshots[1])
            && Select(ledger, "own", 2, 2) == [Record(2, "own", true)]
            && Planned(ledger, snapshots, "own", 2, Some(source), b) == Ready(2, 2, 2)
  {
    var ledger := [Record(1, "own", false), Record(2, "own", true)];
    assert ledger[..1] == [Record(1, "own", false)] && ledger[..1][..0] == [];
    assert ledger[1].sequence >= 2;
    assert Reaches(ledger, 2);
  }

  /** An ended session with two ranges, after its pipeline has changed: it is never compiled again, though
      no snapshot is repeated. */
  lemma TwoRangesNeverSettle(a: Pipeline, b: Pipeline, source: Source, n: nat)
    requires a != b && source.captured && source.transcript.session == "own" && source.ignoredRecords == 0 && n >= 1
    ensures var ledger := [Record(1, "own", false), Record(2, "own", true)];
            var snapshots := [Snapshot(source.transcript, a, 1, 1, source.cursor),
                              Snapshot(source.transcript, a, 2, 2, source.cursor)];
            && Ordered(ledger) && Sound(ledger, snapshots)
            && !Repeats(ledger, snapshots, "own", source, b)
            && var after := Coordinations(ledger, snapshots, "own", 2, Some(source), b, n);
               after == snapshots && Planned(ledger, after, "own", 2, Some(source), b) == Ready(2, 2, 2)
  {
    var ledger := [Record(1, "own", false), Record(2, "own", true)];
    var snapshots := [Snapshot(source.transcript, a, 1, 1, source.cursor),
                      Snapshot(source.transcript, a, 2, 2, source.cursor)];
    TwoRangesAreSound(a, source.transcript, source.cursor);
    TwoRangesArePlannedAgain(a, b, source);
    assert ledger[0].session == "own" && 0 < ledger[0].sequence <= 1;
    assert EventIn(ledger, "own", 0, 1);
    EndedRangeNeverSettles(ledger, snapshots, "own", 2, source, b, Ready(2, 2, 2), n);
  }
}
