/** How far the snapshots of a session have read its transcript: what a coordination answers, by revisions,
    byte offsets and line numbers, and that over every run no later snapshot has read less. */
module SnapshotCursors {
  import opened Wrappers
  import opened EventLedger
  import opened PagedReads
  import opened SnapshotScans
  import opened SnapshotPlan

  // --- when nothing is planned ---------------------------------------------

  /** The newest snapshot was made of this transcript by this pipeline. */
  predicate Follows(newest: Option<Snapshot>, source: Source, pipeline: Pipeline) {
    && newest.Some?
    && newest.value.transcript.session == source.transcript.session
    && newest.value.transcript.content == source.transcript.content
    && newest.value.pipeline.compiler == pipeline.compiler
    && newest.value.pipeline.policy == pipeline.policy
    && newest.value.pipeline.configuration == pipeline.configuration
  }

  /** The session has an event that is later than every event of its newest snapshot. */
  ghost predicate HasNews(ledger: seq<Record>, newest: Option<Snapshot>, session: string) {
    exists r | r in ledger && r.session == session :: newest.Some? ==> newest.value.to < r.sequence
  }

  lemma NewsExactly(ledger: seq<Record>, snapshots: seq<Snapshot>, session: string)
    requires Ordered(ledger)
    ensures HasNews(ledger, Newest(snapshots, session), session)
            <==> FirstNew(snapshots, session) <= LatestSequence(ledger, session)
  {
    LatestIsMaximum(ledger, session);
    if HasNews(ledger, Newest(snapshots, session), session) {
      var r :| r in ledger && r.session == session
               && (Newest(snapshots, session).Some? ==> Newest(snapshots, session).value.to < r.sequence);
      var i :| 0 <= i < |ledger| && ledger[i] == r;
    }
    if FirstNew(snapshots, session) <= LatestSequence(ledger, session) {
      var i :| 0 <= i < |ledger| && ledger[i].session == session
               && ledger[i].sequence == LatestSequence(ledger, session);
      assert ledger[i] in ledger;
    }
  }

  /** Which request gets which plan. It is CURRENT exactly if nothing has changed: no event, not the
      transcript, and not the pipeline. */
  lemma PlansExactly(ledger: seq<Record>, snapshots: seq<Snapshot>, session: string, expected: nat,
                     inspected: Option<Source>, pipeline: Pipeline)
    requires Ordered(ledger) && Bounded(ledger, snapshots)
    requires inspected.Some? ==> inspected.value.transcript.session == session
    ensures var plan := Planned(ledger, snapshots, session, expected, inspected, pipeline);
            var newest := Newest(snapshots, session);
            var news := HasNews(ledger, newest, session);
            var onTime := LatestSequence(ledger, session) == expected;
            var taken := onTime && inspected.Some? && inspected.value.captured;
            && (plan.LedgerChanged? <==> !onTime)
            && (plan.UnsupportedSource? <==> onTime && inspected.None?)
            && (plan.CaptureNotCurrent? <==> onTime && inspected.Some? && !inspected.value.captured)
            && (plan.NoExtractableEvents? <==> taken && !news && newest.None?)
            && (plan.Current? <==> taken && !news && Follows(newest, inspected.value, pipeline))
            && (plan.Ready? || plan.ReadFailed? <==>
                  taken && (news || (newest.Some? && !Follows(newest, inspected.value, pipeline))))
  {
    NewsExactly(ledger, snapshots, session);
    if FirstNew(snapshots, session) <= LatestSequence(ledger, session) {
      NewEventsAreSelected(ledger, session, FirstNew(snapshots, session));
    } else if Newest(snapshots, session).Some? {
      var previous := Newest(snapshots, session).value;
      RangeBetweenOwnEvents(ledger, session, previous.from, previous.to);
    }
  }

  // --- when a snapshot is stored ---------------------------------------------

  /** A grown transcript is stored: if the newest snapshot was made of it by the same pipeline, an acceptable
      next range becomes a snapshot exactly if neither the byte offset nor the line number has decreased. */
  lemma GrownTranscriptIsStored(ledger: seq<Record>, snapshots: seq<Snapshot>, expected: nat, source: Source,
                                pipeline: Pipeline, plan: Plan, newest: Snapshot)
    requires Ordered(ledger) && Sound(ledger, snapshots)
    requires Planned(ledger, snapshots, source.transcript.session, expected, Some(source), pipeline) == plan
    requires plan.Ready?
    requires Newest(snapshots, source.transcript.session) == Some(newest) && Follows(Some(newest), source, pipeline)
    ensures newest.to < plan.from <= plan.to
    ensures Coordinated(ledger, snapshots, source.transcript.session, expected, Some(source), pipeline)
         == if && Acceptable(ledger, source.transcript.session, newest.to, plan.from, plan.to, source.ignoredRecords)
               && source.cursor.byteOffset >= newest.cursor.byteOffset
               && source.cursor.lineNumber >= newest.cursor.lineNumber
            then (snapshots + [Snapshot(source.transcript, pipeline, plan.from, plan.to, source.cursor)],
                  Created(plan.through))
            else (snapshots, Refused)
  {
    assert SameIdentity(newest, source, pipeline);
    ContinuesNewest(ledger, snapshots, expected, source, pipeline, plan, newest);
    StoresNext(ledger, snapshots, source.transcript.session, expected, source, pipeline, newest.to);
  }

  lemma StoresNext(ledger: seq<Record>, snapshots: seq<Snapshot>, session: string, expected: nat, source: Source,
                   pipeline: Pipeline, previousTo: nat)
    requires Ordered(ledger)
    requires var plan := Planned(ledger, snapshots, session, expected, Some(source), pipeline);
             && plan.Ready? && previousTo < plan.from <= plan.to
             && PreviousTo(snapshots, source, pipeline, plan.from) == previousTo > 0
             && Requested(plan, source, pipeline) !in snapshots && Newest(snapshots, session).Some?
    ensures var plan := Planned(ledger, snapshots, session, expected, Some(source), pipeline);
            Coordinated(ledger, snapshots, session, expected, Some(source), pipeline)
            ==
            if && Acceptable(ledger, session, previousTo, plan.from, plan.to, source.ignoredRecords)
               && CursorNotBehind(Newest(snapshots, session).value.cursor, source.cursor)
            then (snapshots + [Requested(plan, source, pipeline)], Created(plan.through))
            else (snapshots, Refused)
  {
  }

  lemma ContinuesNewest(ledger: seq<Record>, snapshots: seq<Snapshot>, expected: nat, source: Source,
                        pipeline: Pipeline, plan: Plan, newest: Snapshot)
    requires Ordered(ledger) && Sound(ledger, snapshots)
    requires Planned(ledger, snapshots, source.transcript.session, expected, Some(source), pipeline) == plan
    requires plan.Ready?
    requires Newest(snapshots, source.transcript.session) == Some(newest) && SameIdentity(newest, source, pipeline)
    ensures newest.to < plan.from <= plan.to && PreviousTo(snapshots, source, pipeline, plan.from) == newest.to > 0
    ensures Requested(plan, source, pipeline) !in snapshots
  {
    PlannedRange(ledger, snapshots, source.transcript.session, expected, Some(source), pipeline);
    OwnIsUpToLatest(ledger, source.transcript.session, newest.to);
    ContinuingIsNew(ledger, snapshots, source.transcript.session, source, pipeline, plan.from, plan.to);
  }

  /** After a change of the transcript or the pipeline, or without any snapshot yet, no cursor is compared:
      the range is judged as if nothing had been extracted before, and stored unless it already is. */
  lemma ChangedSourceIsStored(ledger: seq<Record>, snapshots: seq<Snapshot>, expected: nat, source: Source,
                              pipeline: Pipeline, plan: Plan)
    requires Ordered(ledger) && Sound(ledger, snapshots)
    requires Planned(ledger, snapshots, source.transcript.session, expected, Some(source), pipeline) == plan
    requires plan.Ready? && !Follows(Newest(snapshots, source.transcript.session), source, pipeline)
    ensures 0 < plan.from <= plan.to
    ensures var s := Requested(plan, source, pipeline);
            Coordinated(ledger, snapshots, source.transcript.session, expected, Some(source), pipeline)
            ==
            if !Acceptable(ledger, source.transcript.session, 0, plan.from, plan.to, source.ignoredRecords)
            then (snapshots, Refused)
            else if s in snapshots then (snapshots, Existing(plan.through))
            else (snapshots + [s], Created(plan.through))
  {
    PlannedRange(ledger, snapshots, source.transcript.session, expected, Some(source), pipeline);
  }

  // --- over runs -------------------------------------------------------------

  predicate SameSource(a: Snapshot, b: Snapshot) {
    a.transcript == b.transcript && a.pipeline == b.pipeline
  }

  /** Two snapshots of one session, stored one after the other, and all of the session from the first to the
      second are of one transcript and pipeline. */
  ghost predicate Uninterrupted(snapshots: seq<Snapshot>, i: nat, j: nat) {
    && i < j < |snapshots|
    && snapshots[j].transcript.session == snapshots[i].transcript.session
    && (forall k | i < k <= j && snapshots[k].transcript.session == snapshots[i].transcript.session ::
          SameSource(snapshots[k], snapshots[i]))
  }

  /** The second has later events, and has read at least as many bytes and lines. */
  predicate ReadsOn(a: Snapshot, b: Snapshot) {
    a.to < b.from && a.cursor.byteOffset <= b.cursor.byteOffset && a.cursor.lineNumber <= b.cursor.lineNumber
  }

  ghost predicate CursorsRise(snapshots: seq<Snapshot>) {
    forall i: nat, j: nat | Uninterrupted(snapshots, i, j) :: ReadsOn(snapshots[i], snapshots[j])
  }

  /** Where the newest snapshot of a session is. */
  lemma {:induction false} NewestIsLast(snapshots: seq<Snapshot>, session: string) returns (m: nat)
    requires Newest(snapshots, session).Some?
    ensures m < |snapshots| && snapshots[m] == Newest(snapshots, session).value
    ensures snapshots[m].transcript.session == session
    ensures forall k | m < k < |snapshots| :: snapshots[k].transcript.session != session
  {
    m := |snapshots| - 1;
    if snapshots[m].transcript.session != session {
      m := NewestIsLast(snapshots[..m], session);
    }
  }

  lemma CreatedRises(ledger: seq<Record>, snapshots: seq<Snapshot>, session: string, expected: nat,
                     inspected: Option<Source>, pipeline: Pipeline)
    requires Ordered(ledger) && Sound(ledger, snapshots)
    requires inspected.Some? && inspected.value.transcript.session == session
    requires Coordinated(ledger, snapshots, session, expected, inspected, pipeline).1.Created?
    ensures var after := Coordinated(ledger, snapshots, session, expected, inspected, pipeline).0;
            var newest := Newest(snapshots, session);
            && |after| == |snapshots| + 1 && after[..|snapshots|] == snapshots
            && var s := after[|snapshots|];
               && s.transcript.session == session
               && (newest.Some? && SameSource(newest.value, s) ==> ReadsOn(newest.value, s))
  {
    var source := inspected.value;
    var plan := Planned(ledger, snapshots, session, expected, inspected, pipeline);
    CoordinatedShape(ledger, snapshots, session, expected, inspected, pipeline);
    var newest := Newest(snapshots, session);
    if newest.Some? && Follows(newest, source, pipeline) {
      GrownTranscriptIsStored(ledger, snapshots, expected, source, pipeline, plan, newest.value);
    }
  }

  /** The newest snapshot of the session is the first of the two, or between them. */
  lemma NewestContinues(snapshots: seq<Snapshot>, s: Snapshot, i: nat, m: nat)
    requires CursorsRise(snapshots) && Uninterrupted(snapshots + [s], i, |snapshots|) && m < |snapshots|
    requires snapshots[m].transcript.session == s.transcript.session
    requires forall k | m < k < |snapshots| :: snapshots[k].transcript.session != s.transcript.session
    ensures i <= m && SameSource(snapshots[m], s) && (i < m ==> ReadsOn(snapshots[i], snapshots[m]))
  {
    var all := snapshots + [s];
    assert all[|snapshots|] == s && all[i] == snapshots[i] && all[m] == snapshots[m];
    if i < m {
      assert Uninterrupted(all, i, m);
      EarlierPair(snapshots, s, i, m);
    }
  }

  lemma LastPairRises(snapshots: seq<Snapshot>, s: Snapshot, i: nat, m: nat)
    requires CursorsRise(snapshots) && Uninterrupted(snapshots + [s], i, |snapshots|) && m < |snapshots|
    requires snapshots[m].transcript.session == s.transcript.session && snapshots[m].from <= snapshots[m].to
    requires forall k | m < k < |snapshots| :: snapshots[k].transcript.session != s.transcript.session
    requires SameSource(snapshots[m], s) ==> ReadsOn(snapshots[m], s)
    ensures ReadsOn(snapshots[i], s)
  {
    NewestContinues(snapshots, s, i, m);
    if i < m {
      ThreeInLine(snapshots[i], snapshots[m], s);
    }
  }

  lemma ThreeInLine(a: Snapshot, b: Snapshot, c: Snapshot)
    requires ReadsOn(a, b) && ReadsOn(b, c) && b.from <= b.to
    ensures ReadsOn(a, c)
  {
  }

  lemma AppendedRises(snapshots: seq<Snapshot>, s: Snapshot)
    requires CursorsRise(snapshots)
    requires var newest := Newest(snapshots, s.transcript.session);
             newest.Some? && SameSource(newest.value, s) ==> ReadsOn(newest.value, s)
    requires forall t | t in snapshots :: t.from <= t.to
    ensures CursorsRise(snapshots + [s])
  {
    var all := snapshots + [s];
    forall i: nat, j: nat | Uninterrupted(all, i, j) ensures ReadsOn(all[i], all[j]) {
      if j < |snapshots| {
        EarlierPair(snapshots, s, i, j);
      } else {
        assert all[j] == s && all[i] == snapshots[i] && snapshots[i] in snapshots;
        var m := NewestIsLast(snapshots, s.transcript.session);
        assert snapshots[m] in snapshots;
        LastPairRises(snapshots, s, i, m);
      }
    }
  }

  lemma EarlierPair(snapshots: seq<Snapshot>, s: Snapshot, i: nat, j: nat)
    requires Uninterrupted(snapshots + [s], i, j) && j < |snapshots|
    ensures Uninterrupted(snapshots, i, j)
  {
    var all := snapshots + [s];
    assert all[i] == snapshots[i] && all[j] == snapshots[j];
    forall k | i < k <= j && snapshots[k].transcript.session == snapshots[i].transcript.session
      ensures SameSource(snapshots[k], snapshots[i])
    {
      assert all[k] == snapshots[k];
    }
  }

  lemma CoordinationRaisesCursors(ledger: seq<Record>, snapshots: seq<Snapshot>, session: string, expected: nat,
                                  inspected: Option<Source>, pipeline: Pipeline)
    requires Ordered(ledger) && Sound(ledger, snapshots) && CursorsRise(snapshots)
    requires inspected.Some? ==> inspected.value.transcript.session == session
    ensures CursorsRise(Coordinated(ledger, snapshots, session, expected, inspected, pipeline).0)
  {
    CoordinatedShape(ledger, snapshots, session, expected, inspected, pipeline);
    var (after, r) := Coordinated(ledger, snapshots, session, expected, inspected, pipeline);
    if r.Created? {
      CreatedRises(ledger, snapshots, session, expected, inspected, pipeline);
      AppendedRises(snapshots, after[|snapshots|]);
    }
  }

  /** Over every serial run: of two snapshots of a session, without one of another transcript or pipeline
      between them, the later one has the later events, and has read at least as many bytes and lines. */
  lemma {:induction false} RunsRaiseCursors(ledger: seq<Record>, snapshots: seq<Snapshot>, actions: seq<Action>)
    requires Ordered(ledger) && Sound(ledger, snapshots) && CursorsRise(snapshots)
    ensures CursorsRise(Run(ledger, snapshots, actions).1)
    decreases |actions|
  {
    if actions != [] && Possible(ledger, actions[0]) {
      match actions[0]
      case Append(more) =>
        AppendKeepsSound(ledger, more, snapshots);
        RunsRaiseCursors(ledger + more, snapshots, actions[1..]);
      case Coordinate(session, expected, inspected, pipeline) =>
        var next := Coordinated(ledger, snapshots, session, expected, inspected, pipeline).0;
        CoordinationKeepsSound(ledger, snapshots, session, expected, inspected, pipeline);
        CoordinationRaisesCursors(ledger, snapshots, session, expected, inspected, pipeline);
        RunsRaiseCursors(ledger, next, actions[1..]);
    }
  }

  /** In particular from an empty store, for any two that are stored one after the other. */
  lemma NextCursorIsNotBehind(ledger: seq<Record>, actions: seq<Action>, i: nat, j: nat)
    requires Ordered(ledger)
    requires var all := Run(ledger, [], actions).1;
             && i < j < |all| && SameSource(all[i], all[j])
             && (forall k | i < k < j :: all[k].transcript.session != all[i].transcript.session)
    ensures var all := Run(ledger, [], actions).1;
            && all[i].to < all[j].from
            && all[i].cursor.byteOffset <= all[j].cursor.byteOffset
            && all[i].cursor.lineNumber <= all[j].cursor.lineNumber
  {
    RunsRaiseCursors(ledger, [], actions);
    var all := Run(ledger, [], actions).1;
    assert Uninterrupted(all, i, j);
    assert ReadsOn(all[i], all[j]);
  }

  /** A change in between is what it takes: with a snapshot by another pipeline between them, a later snapshot
      may have read less of the same transcript. */
  lemma ReturningPipelineMayGoBack(a: Pipeline, b: Pipeline, transcript: TranscriptId, ahead: Cursor, behind: Cursor)
    requires a != b && transcript.session == "own" && behind.byteOffset < ahead.byteOffset
    ensures var ledger := [Record(1, "own", false)];
            var snapshots := [Snapshot(transcript, a, 1, 1, ahead), Snapshot(transcript, b, 1, 1, ahead)];
            var back := Source(transcript, behind, 0, true);
            && Ordered(ledger)
            && Coordinated(ledger, snapshots, "own", 1, Some(back), a)
            == (snapshots + [Snapshot(transcript, a, 1, 1, behind)], Created(1))
  {
    ReturningPipelineIsPlanned(a, b, transcript, ahead, behind);
    SingleRecord(false, 0);
  }

  lemma ReturningPipelineIsPlanned(a: Pipeline, b: Pipeline, transcript: TranscriptId, ahead: Cursor, behind: Cursor)
    requires a != b && transcript.session == "own" && behind.byteOffset < ahead.byteOffset
    ensures var ledger := [Record(1, "own", false)];
            var snapshots := [Snapshot(transcript, a, 1, 1, ahead), Snapshot(transcript, b, 1, 1, ahead)];
            var back := Source(transcript, behind, 0, true);
            && Newest(snapshots, "own") == Some(snapshots[1])
            && PreviousTo(snapshots, back, a, 1) == 0
            && Planned(ledger, snapshots, "own", 1, Some(back), a) == Ready(1, 1, 1)
            && Snapshot(transcript, a, 1, 1, behind) !in snapshots
  {
    var first, second := Snapshot(transcript, a, 1, 1, ahead), Snapshot(transcript, b, 1, 1, ahead);
    LastIsNewest([first], second);
    assert [first] + [second] == [first, second];
    OtherPipelineIsPlanned([first, second], second, Source(transcript, behind, 0, true), a);
  }

  lemma LastIsNewest(snapshots: seq<Snapshot>, s: Snapshot)
    ensures Newest(snapshots + [s], s.transcript.session) == Some(s)
  {
  }

  lemma OtherPipelineIsPlanned(snapshots: seq<Snapshot>, newest: Snapshot, source: Source, pipeline: Pipeline)
    requires Newest(snapshots, "own") == Some(newest) && newest.from == newest.to == 1 && newest.pipeline != pipeline
    requires source.transcript.session == "own" && source.captured
    ensures PreviousTo(snapshots, source, pipeline, 1) == 0
    ensures Planned([Record(1, "own", false)], snapshots, "own", 1, Some(source), pipeline) == Ready(1, 1, 1)
  {
    var ledger := [Record(1, "own", false)];
    SingleRecord(false, 0);
    PlansAgain(ledger, snapshots, "own", newest, source, pipeline);
  }

  /** With nothing new, another pipeline plans the range of the newest snapshot again. */
  lemma PlansAgain(ledger: seq<Record>, snapshots: seq<Snapshot>, session: string, newest: Snapshot, source: Source,
                   pipeline: Pipeline)
    requires Newest(snapshots, session) == Some(newest) && newest.pipeline != pipeline
    requires LatestSequence(ledger, session) <= newest.to && source.captured
    requires RangeRead(ledger, session, newest.from, newest.to).Ok?
    ensures Planned(ledger, snapshots, session, LatestSequence(ledger, session), Some(source), pipeline)
         == Extraction(RangeRead(ledger, session, newest.from, newest.to).value, LatestSequence(ledger, session))
  {
    assert !SameIdentity(newest, source, pipeline);
  }
}
