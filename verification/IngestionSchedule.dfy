/** When a session is captured: what an observation, a capture attempt and a recovery attempt make of its
    checkpoint, field by field, and that a session that is due is captured after boundedly many runs. */
module IngestionSchedule {
  import opened IngestionCheckpoints
  import opened IngestionRuns
  import opened IngestionService
  import opened Wrappers

  // --- observations ------------------------------------------------------

  /** The checkpoint was made of an entry with this source version, availability, alias and activity. */
  predicate SameObservation(c: Checkpoint, e: Entry) {
    && c.revision.available == e.available && c.revision.sourceVersion == e.sourceVersion
    && c.revision.alias == e.alias && c.revision.lastActivityAt == e.lastActivityAt
  }

  /** Alias and activity are those of the revision. */
  predicate Coherent(c: Checkpoint) {
    c.alias == c.revision.alias && c.lastObservedActivityAt == c.revision.lastActivityAt
  }

  predicate Changed(before: Option<Checkpoint>, e: Entry) {
    before.None? || !SameObservation(before.value, e)
  }

  /** The source cannot be read. */
  predicate Gone(e: Entry) {
    !e.available || e.capture.Unavailable?
  }

  predicate RecoveryOpen(before: Option<Checkpoint>) {
    && before.Some? && before.value.lastDiagnostic.Some? && before.value.lastDiagnostic.value.SourceMutation?
    && before.value.recoveryAttemptKey.Some? && before.value.recoveryCompletedAt.None?
  }

  /** What an entry that is new or changed makes of a checkpoint. */
  ghost predicate Noted(before: Option<Checkpoint>, e: Entry, at: Time, config: Configuration, after: Checkpoint) {
    && after.sessionId == e.sessionId && SameObservation(after, e) && Coherent(after) && after.updatedAt == at
    && after.version == (if before.Some? then before.value.version else 0) + 1
    && after.captured == (if before.Some? then before.value.captured else None)
    && after.lastAttemptAt == (if before.Some? then before.value.lastAttemptAt else None)
    && after.recoveryCompletedAt.None?
    && (if RecoveryOpen(before)
        then after.lastDiagnostic == before.value.lastDiagnostic
             && after.recoveryAttemptKey == before.value.recoveryAttemptKey
        else after.lastDiagnostic.None? && after.recoveryAttemptKey.None?)
    && (Gone(e) ==> after.status == SourceUnavailable && after.nextEligibleAt == None)
    && (!Gone(e) && RecoveryOpen(before) ==> after.status == RecoveryPending)
    && (!Gone(e) && RecoveryOpen(before) && !e.capture.Current? ==>
          after.nextEligibleAt
          == Some(if before.value.nextEligibleAt.Some? then before.value.nextEligibleAt.value else at))
    && (!Gone(e) && !RecoveryOpen(before) && e.capture.Current? ==>
          after.status == CapturedCurrent && after.nextEligibleAt == None)
    && (!Gone(e) && !RecoveryOpen(before) && !e.capture.Current? ==>
          after.status == FollowPending && after.nextEligibleAt == Some(at + config.followDebounceMs))
  }

  /** An unchanged session is left alone; a new or changed one is noted. */
  lemma ObservationOnFields(before: Option<Checkpoint>, e: Entry, at: Time, config: Configuration)
    requires before.Some? ==> Coherent(before.value)
    ensures var after := Observe(before, e, at, config);
            && (after.Some? <==> Changed(before, e))
            && (after.Some? ==> Noted(before, e, at, config, after.value))
  {
  }

  function LastEntry(events: seq<Event>): Option<Entry> {
    if events == [] then None
    else
      var last := events[|events| - 1];
      if last.Observed? then Some(last.entry) else LastEntry(events[..|events| - 1])
  }

  /** Over every life a checkpoint tells the source version, availability, alias and activity of the last
      entry that was observed, so a session is unchanged exactly if the next entry repeats these. */
  lemma {:induction false} LifeTellsLastEntry(events: seq<Event>, config: Configuration)
    ensures Life(events, config).Some? <==> LastEntry(events).Some?
    ensures Life(events, config).Some? ==>
              && Coherent(Life(events, config).value)
              && SameObservation(Life(events, config).value, LastEntry(events).value)
    decreases |events|
  {
    if events != [] {
      var front, last := events[..|events| - 1], events[|events| - 1];
      LifeTellsLastEntry(front, config);
      if last.Observed? {
        ObservationOnFields(Life(front, config), last.entry, last.at, config);
      }
    }
  }

  // --- scans ---------------------------------------------------------------

  ghost predicate AllCoherent(values: map<SessionId, Checkpoint>) {
    forall id | id in values :: Coherent(values[id])
  }

  /** After a scan a session that was not seen, or is unchanged, has the checkpoint it had; every other one
      has what was noted. */
  lemma ScanOnFields(before: map<SessionId, Checkpoint>, after: map<SessionId, Checkpoint>,
                     entries: map<SessionId, Entry>, at: Time, config: Configuration, id: SessionId)
    requires Scanned(before, after, entries, at, config) && (id in before ==> Coherent(before[id]))
    ensures id in after <==> id in before || id in entries
    ensures id in before && (id !in entries || !Changed(Lookup(before, id), entries[id])) ==> after[id] == before[id]
    ensures id in entries && Changed(Lookup(before, id), entries[id]) ==>
              Noted(Lookup(before, id), entries[id], at, config, after[id])
  {
    assert id in after <==> id in before || id in entries;
    if id in entries {
      ObservationOnFields(Lookup(before, id), entries[id], at, config);
      assert after[id] == Seen(before, entries[id], at, config);
    }
  }

  /** The session is new or changed, available, not captured already, and not under recovery. */
  predicate ToCapture(values: map<SessionId, Checkpoint>, e: Entry) {
    var current := Lookup(values, e.sessionId);
    Changed(current, e) && !Gone(e) && !e.capture.Current? && !RecoveryOpen(current)
  }

  /** A new or changed session that is there, not captured already and not under recovery is due from the
      debounce after its scan on, and not before. */
  lemma NewSessionIsDue(before: map<SessionId, Checkpoint>, after: map<SessionId, Checkpoint>,
                        entries: map<SessionId, Entry>, at: Time, config: Configuration, id: SessionId, later: Time)
    requires Scanned(before, after, entries, at, config) && (id in before ==> Coherent(before[id]))
    requires id in entries && entries[id].sessionId == id && ToCapture(before, entries[id])
    ensures id in after && after[id].status == FollowPending
    ensures id in DueSet(after, later, false) <==> later >= at + config.followDebounceMs
  {
    ScanOnFields(before, after, entries, at, config, id);
  }

  /** What is listed as due: eligible sessions whose time has come, the earliest first and, of two of the
      same time, the one with the smaller id; one that is left out comes after all that are listed. */
  lemma EarliestFirst(values: map<SessionId, Checkpoint>, at: Time, limit: nat, recovery: bool, ids: seq<SessionId>,
                      i: nat, other: SessionId)
    requires FirstDue(values, at, limit, recovery, ids) && i < |ids|
    ensures ids[i] in values && values[ids[i]].nextEligibleAt.Some? && values[ids[i]].nextEligibleAt.value <= at
    ensures if recovery then values[ids[i]].status.RecoveryPending?
            else values[ids[i]].status in {FollowPending, CapturedPartial, RetryPending}
    ensures forall j | i < j < |ids| ::
              && ids[j] in values && values[ids[j]].nextEligibleAt.Some?
              && var one, next := values[ids[i]].nextEligibleAt.value, values[ids[j]].nextEligibleAt.value;
                 one < next || (one == next && ids[i] < ids[j])
    ensures other in DueSet(values, at, recovery) && other !in ids ==>
              && |ids| == limit && values[other].nextEligibleAt.Some?
              && var one, next := values[ids[i]].nextEligibleAt.value, values[other].nextEligibleAt.value;
                 one < next || (one == next && ids[i] < other)
  {
    assert ids[i] in ids;
    if other in DueSet(values, at, recovery) && other !in ids && |ids| != limit {
      OrderedAreDistinct(values, ids);
      assert IdSet(ids) <= DueSet(values, at, recovery);
      SameSize(IdSet(ids), DueSet(values, at, recovery));
    }
  }

  // --- attempts ------------------------------------------------------------

  /** When a session has to be tried again, after an attempt that ended like this: a capture of a source
      with more to come after the debounce, a failure after the retry delay, and nothing else. */
  function NextCapture(outcome: CaptureOutcome, at: Time, config: Configuration): Option<Time> {
    match outcome
    case Success(_, true) => Some(at + config.followDebounceMs)
    case Failed => Some(at + config.retryDelayMs)
    case _ => None
  }

  /** What a capture pass makes of a session of its batch: when it is due again, what it has captured, and
      what is to be recovered. The others keep their checkpoints. */
  lemma CaptureOnFields(before: map<SessionId, Checkpoint>, after: map<SessionId, Checkpoint>, batch: seq<SessionId>,
                        entries: map<SessionId, Entry>, ports: Ports, at: Time, config: Configuration,
                        id: SessionId, later: Time)
    requires CapturePass(before, after, batch, entries, ports, at, config) && id in before
    ensures id in after && (id !in batch ==> after[id] == before[id])
    ensures id in batch ==>
              var outcome, c := OutcomeOf(entries, ports, id), after[id];
              var next := NextCapture(outcome, at, config);
              && (id in DueSet(after, later, false) <==> next.Some? && later >= next.value)
              && (id in DueSet(after, later, true) <==> outcome.Mutated? && later >= at)
              && c.version == before[id].version + 1 && c.revision == before[id].revision
              && c.captured == (if outcome.Success? then Some(outcome.cursor) else before[id].captured)
              && (outcome.Success? ==> c.lastDiagnostic.None? && c.recoveryAttemptKey.None?)
              && (outcome.Mutated? ==> c.lastDiagnostic == Some(SourceMutation(outcome.mutation)))
              && (outcome.Success? && !outcome.hasMore <==> c.status == CapturedCurrent)
              && (outcome.Missing? <==> c.status == SourceUnavailable)
              && c.updatedAt == at
              && c.lastAttemptAt == (if outcome.Missing? then before[id].lastAttemptAt else Some(at))
              && (outcome.Failed? ==> c.lastDiagnostic == Some(CaptureFailed))
              && (outcome.Missing? ==> c.lastDiagnostic == before[id].lastDiagnostic)
              && (outcome.Mutated? ==> c.recoveryCompletedAt.None?)
              && (outcome.Mutated? ==>
                    c.recoveryAttemptKey
                    == (if before[id].recoveryAttemptKey.Some? then before[id].recoveryAttemptKey
                        else Some(AttemptKey(before[id].sessionId, before[id].revision, outcome.mutation))))
              && (outcome.Failed? || outcome.Missing? ==>
                    && c.recoveryAttemptKey == before[id].recoveryAttemptKey
                    && c.recoveryCompletedAt == before[id].recoveryCompletedAt)
  {
    assert id in before.Keys <==> id in after.Keys;
  }

  /** The source is missing exactly if the session is unknown to the scan and the catalog, or unavailable. */
  lemma MissingExactly(entries: map<SessionId, Entry>, ports: Ports, id: SessionId)
    requires !ports.capture(id).Missing?
    ensures OutcomeOf(entries, ports, id).Missing? <==>
              if id in entries then !entries[id].available else ports.get(id).None? || !ports.get(id).value.available
    ensures !OutcomeOf(entries, ports, id).Missing? ==> OutcomeOf(entries, ports, id) == ports.capture(id)
  {
  }

  /** What a recovery pass makes of a session: after a completed recovery it is due for capture from the
      debounce on, after any other for recovery from the retry delay on. */
  lemma RecoveryOnFields(before: map<SessionId, Checkpoint>, after: map<SessionId, Checkpoint>, batch: seq<SessionId>,
                         entries: map<SessionId, Entry>, ports: Ports, at: Time, config: Configuration,
                         id: SessionId, later: Time)
    requires RecoveryPass(before, after, batch, entries, ports, at, config) && id in before
    ensures id in after
    ensures id !in batch || !Recoverable(before[id], entries, ports) ==> after[id] == before[id]
    ensures id in batch && Recoverable(before[id], entries, ports) ==>
              var rebased, c := ports.recover(id).Rebased?, after[id];
              && (id in DueSet(after, later, false) <==> rebased && later >= at + config.followDebounceMs)
              && (id in DueSet(after, later, true) <==> !rebased && later >= at + config.retryDelayMs)
              && c.version == before[id].version + 1 && c.revision == before[id].revision
              && c.captured == before[id].captured && c.lastDiagnostic == before[id].lastDiagnostic
              && c.recoveryAttemptKey.Some? && c.updatedAt == at && c.lastAttemptAt == before[id].lastAttemptAt
              && (before[id].recoveryAttemptKey.Some? ==> c.recoveryAttemptKey == before[id].recoveryAttemptKey)
              && c.recoveryCompletedAt == (if rebased then Some(at) else before[id].recoveryCompletedAt)
  {
    assert id in before.Keys <==> id in after.Keys;
  }

  // --- every due session is captured ---------------------------------------

  /** The sessions that wait for a capture and come before this one. */
  ghost function Ahead(values: map<SessionId, Checkpoint>, id: SessionId): set<SessionId> {
    set other | other in values && CaptureEligible(values[other].status) && Before(values, other, id)
  }

  /** The session waits for a capture from `wake` on. */
  ghost predicate Waits(values: map<SessionId, Checkpoint>, id: SessionId, wake: Time) {
    id in values && CaptureEligible(values[id].status) && values[id].nextEligibleAt == Some(wake)
  }

  /** No checkpoint that has changed is ahead of one that waits since `wake`. */
  ghost predicate NobodyOvertakes(before: map<SessionId, Checkpoint>, after: map<SessionId, Checkpoint>, wake: Time) {
    forall other {:trigger after[other]} | other in after && (other !in before || after[other] != before[other]) ::
      CaptureEligible(after[other].status) ==>
        after[other].nextEligibleAt.Some? && after[other].nextEligibleAt.value > wake
  }

  lemma AheadShrinks(before: map<SessionId, Checkpoint>, after: map<SessionId, Checkpoint>, id: SessionId, wake: Time)
    requires Waits(before, id, wake) && id in after && after[id] == before[id] && NobodyOvertakes(before, after, wake)
    ensures Waits(after, id, wake) && Ahead(after, id) <= Ahead(before, id)
    ensures forall other | other in Ahead(after, id) :: after[other] == before[other]
  {
    forall other | other in Ahead(after, id) ensures other in Ahead(before, id) && after[other] == before[other] {
      assert after[other].nextEligibleAt.value <= wake;
    }
  }

  lemma ScanOvertakesNobody(before: map<SessionId, Checkpoint>, after: map<SessionId, Checkpoint>,
                            entries: map<SessionId, Entry>, at: Time, config: Configuration, wake: Time)
    requires ValidConfiguration(config) && Scanned(before, after, entries, at, config) && AllCoherent(before)
    requires wake <= at
    ensures NobodyOvertakes(before, after, wake)
  {
    forall other | other in after && (other !in before || after[other] != before[other])
      ensures CaptureEligible(after[other].status) ==>
                after[other].nextEligibleAt.Some? && after[other].nextEligibleAt.value > wake
    {
      ScanOnFields(before, after, entries, at, config, other);
    }
  }

  lemma CaptureOvertakesNobody(before: map<SessionId, Checkpoint>, after: map<SessionId, Checkpoint>,
                               batch: seq<SessionId>, entries: map<SessionId, Entry>, ports: Ports, at: Time,
                               config: Configuration, wake: Time)
    requires ValidConfiguration(config) && CapturePass(before, after, batch, entries, ports, at, config) && wake <= at
    ensures NobodyOvertakes(before, after, wake)
  {
    assert after.Keys == before.Keys;
  }

  lemma RecoveryOvertakesNobody(before: map<SessionId, Checkpoint>, after: map<SessionId, Checkpoint>,
                                batch: seq<SessionId>, entries: map<SessionId, Entry>, ports: Ports, at: Time,
                                config: Configuration, wake: Time)
    requires ValidConfiguration(config) && RecoveryPass(before, after, batch, entries, ports, at, config) && wake <= at
    ensures NobodyOvertakes(before, after, wake)
  {
    assert after.Keys == before.Keys;
  }

  /** A pass that does not take a due session takes as many as it may, all from ahead of it. */
  lemma BatchIsAhead(values: map<SessionId, Checkpoint>, at: Time, limit: nat, batch: seq<SessionId>, id: SessionId)
    requires FirstDue(values, at, limit, false, batch) && id in DueSet(values, at, false) && id !in batch
    ensures |batch| == limit && IdSet(batch) <= Ahead(values, id) && |IdSet(batch)| == limit
  {
    OrderedAreDistinct(values, batch);
    if |batch| == |DueSet(values, at, false)| {
      assert IdSet(batch) <= DueSet(values, at, false);
      SameSize(IdSet(batch), DueSet(values, at, false));
    }
  }

  lemma SameSize(a: set<SessionId>, b: set<SessionId>)
    requires a <= b && |a| == |b|
    ensures a == b
  {
    assert b == a + (b - a) && |b| == |a| + |b - a|;
  }

  lemma AttemptMovesVersion(before: map<SessionId, Checkpoint>, after: map<SessionId, Checkpoint>,
                            batch: seq<SessionId>, entries: map<SessionId, Entry>, ports: Ports, at: Time,
                            config: Configuration, id: SessionId)
    requires CapturePass(before, after, batch, entries, ports, at, config)
    requires id in before && id in after && after[id] == before[id]
    ensures id !in IdSet(batch)
  {
    CaptureOnFields(before, after, batch, entries, ports, at, config, id, at);
  }

  lemma WaitingIsDue(values: map<SessionId, Checkpoint>, id: SessionId, wake: Time, at: Time)
    requires Waits(values, id, wake) && wake <= at
    ensures id in DueSet(values, at, false)
  {
  }

  lemma FewerLeft(now: set<SessionId>, before: set<SessionId>, taken: set<SessionId>)
    requires taken <= before && now <= before - taken
    ensures |now| + |taken| <= |before|
  {
    assert before == (before - taken) + taken;
    SubsetIsSmaller(now, before - taken);
  }

  /** A capture pass that does not take the session clears as many places ahead of it as it may. */
  lemma CaptureClears(before: map<SessionId, Checkpoint>, after: map<SessionId, Checkpoint>, batch: seq<SessionId>,
                      entries: map<SessionId, Entry>, ports: Ports, at: Time, config: Configuration,
                      id: SessionId, wake: Time)
    requires ValidConfiguration(config) && CapturePass(before, after, batch, entries, ports, at, config)
    requires Waits(before, id, wake) && wake <= at && id !in batch
    ensures Waits(after, id, wake) && |Ahead(after, id)| + config.maxCapturesPerRun <= |Ahead(before, id)|
  {
    WaitingIsDue(before, id, wake, at);
    BatchIsAhead(before, at, config.maxCapturesPerRun, batch, id);
    CaptureOvertakesNobody(before, after, batch, entries, ports, at, config, wake);
    CaptureOnFields(before, after, batch, entries, ports, at, config, id, at);
    AheadShrinks(before, after, id, wake);
    forall other | other in Ahead(after, id) ensures other in Ahead(before, id) - IdSet(batch) {
      AttemptMovesVersion(before, after, batch, entries, ports, at, config, other);
    }
    FewerLeft(Ahead(after, id), Ahead(before, id), IdSet(batch));
  }

  lemma SubsetIsSmaller(a: set<SessionId>, b: set<SessionId>)
    requires a <= b
    ensures |a| <= |b|
  {
    assert b == a + (b - a);
  }

  /** The session is not touched by an observation: it is not scanned, or its entry is the one it has. */
  predicate Untouched(run: Run, c: Checkpoint) {
    c.sessionId in run.entries ==> SameObservation(c, run.entries[c.sessionId])
  }

  /** One run, at a time from which the session is due: it is captured, or comes closer to it. */
  lemma RunComesCloser(before: map<SessionId, Checkpoint>, after: map<SessionId, Checkpoint>, run: Run,
                       config: Configuration, id: SessionId, wake: Time)
    requires ValidConfiguration(config) && Ran(before, after, run, config) && AllCoherent(before)
    requires Waits(before, id, wake) && wake <= run.at && before[id].sessionId == id && Untouched(run, before[id])
    requires id !in run.captures
    ensures Waits(after, id, wake) && after[id] == before[id]
    ensures |Ahead(after, id)| + config.maxCapturesPerRun <= |Ahead(before, id)|
  {
    ScanOnFields(before, run.seen, run.entries, run.at, config, id);
    ScanOvertakesNobody(before, run.seen, run.entries, run.at, config, wake);
    AheadShrinks(before, run.seen, id, wake);
    SubsetIsSmaller(Ahead(run.seen, id), Ahead(before, id));
    CaptureOnFields(run.seen, run.tried, run.captures, run.entries, run.ports, run.at, config, id, run.at);
    CaptureClears(run.seen, run.tried, run.captures, run.entries, run.ports, run.at, config, id, wake);
    if run.recovery {
      WaitingIsNotRecovered(run, after, config, id, wake);
      RecoveryOvertakesNobody(run.tried, after, run.recoveries, run.entries, run.ports, run.at, config, wake);
      AheadShrinks(run.tried, after, id, wake);
      SubsetIsSmaller(Ahead(after, id), Ahead(run.tried, id));
    }
  }

  lemma WaitingIsNotRecovered(run: Run, after: map<SessionId, Checkpoint>, config: Configuration, id: SessionId,
                              wake: Time)
    requires RecoveryPass(run.tried, after, run.recoveries, run.entries, run.ports, run.at, config)
    requires Waits(run.tried, id, wake)
    ensures id in after && after[id] == run.tried[id]
  {
    RecoveryOnFields(run.tried, after, run.recoveries, run.entries, run.ports, run.at, config, id, run.at);
    assert id in run.recoveries ==> id in DueSet(run.tried, run.at, true);
  }

  lemma RunKeepsCoherent(before: map<SessionId, Checkpoint>, after: map<SessionId, Checkpoint>, run: Run,
                         config: Configuration)
    requires Ran(before, after, run, config) && AllCoherent(before)
    ensures AllCoherent(after)
  {
    ScanKeepsCoherent(before, run.seen, run.entries, run.at, config);
    CaptureKeepsCoherent(run.seen, run.tried, run.captures, run.entries, run.ports, run.at, config);
    if run.recovery {
      RecoveryKeepsCoherent(run.tried, after, run.recoveries, run.entries, run.ports, run.at, config);
    }
  }

  lemma CaptureKeepsCoherent(before: map<SessionId, Checkpoint>, after: map<SessionId, Checkpoint>,
                             batch: seq<SessionId>, entries: map<SessionId, Entry>, ports: Ports, at: Time,
                             config: Configuration)
    requires Attempted(before, after, batch, entries, ports, at, config) && AllCoherent(before)
    ensures AllCoherent(after)
  {
    forall id | id in after ensures Coherent(after[id]) {
      assert id in before.Keys;
      CaptureKeepsRevision(before[id], OutcomeOf(entries, ports, id), at, config);
    }
  }

  lemma CaptureKeepsRevision(c: Checkpoint, outcome: CaptureOutcome, at: Time, config: Configuration)
    requires Coherent(c)
    ensures Coherent(Capture(c, outcome, at, config))
  {
  }

  lemma RecoveryKeepsCoherent(before: map<SessionId, Checkpoint>, after: map<SessionId, Checkpoint>,
                              batch: seq<SessionId>, entries: map<SessionId, Entry>, ports: Ports, at: Time,
                              config: Configuration)
    requires Tried(before, after, batch, entries, ports, at, config) && AllCoherent(before)
    ensures AllCoherent(after)
  {
    forall id | id in after ensures Coherent(after[id]) {
      assert id in before.Keys;
      if Recoverable(before[id], entries, ports) {
        RecoverKeepsRevision(before[id], ports.recover(id), at, config);
      }
    }
  }

  lemma RecoverKeepsRevision(c: Checkpoint, outcome: RecoveryOutcome, at: Time, config: Configuration)
    requires Coherent(c) && c.lastDiagnostic.Some? && c.lastDiagnostic.value.SourceMutation?
    ensures Coherent(Recover(c, outcome, at, config))
  {
  }

  lemma ScanKeepsCoherent(before: map<SessionId, Checkpoint>, after: map<SessionId, Checkpoint>,
                          entries: map<SessionId, Entry>, at: Time, config: Configuration)
    requires Scanned(before, after, entries, at, config) && AllCoherent(before)
    ensures AllCoherent(after)
  {
    forall id | id in after ensures Coherent(after[id]) {
      ScanOnFields(before, after, entries, at, config, id);
    }
  }

  /** Runs, one after another. */
  ghost predicate Chain(states: seq<map<SessionId, Checkpoint>>, runs: seq<Run>, config: Configuration) {
    && |states| == |runs| + 1
    && (forall k, next | 0 <= k < |runs| && next == k + 1 :: Ran(states[k], states[next], runs[k], config))
  }

  /** From now on the session is due in every run, and no observation touches it. */
  ghost predicate DueThroughout(runs: seq<Run>, c: Checkpoint, wake: Time) {
    forall k | 0 <= k < |runs| :: runs[k].at >= wake && Untouched(runs[k], c)
  }

  lemma RanAt(states: seq<map<SessionId, Checkpoint>>, runs: seq<Run>, config: Configuration, id: SessionId,
              c: Checkpoint, wake: Time, k: nat)
    requires Chain(states, runs, config) && DueThroughout(runs, c, wake) && k < |runs|
    ensures Ran(states[k], states[k + 1], runs[k], config) && runs[k].at >= wake && Untouched(runs[k], c)
  {
  }

  lemma OneMore(k: nat, width: nat)
    ensures (k + 1) * width == k * width + width
  {
  }

  /** As long as a due session is not captured, each run takes the full number from ahead of it. */
  lemma {:induction false} NotYetCaptured(states: seq<map<SessionId, Checkpoint>>, runs: seq<Run>,
                                          config: Configuration, id: SessionId, wake: Time, n: nat)
    requires ValidConfiguration(config) && Chain(states, runs, config) && AllCoherent(states[0]) && n <= |runs|
    requires Waits(states[0], id, wake) && states[0][id].sessionId == id && DueThroughout(runs, states[0][id], wake)
    requires forall k | 0 <= k < n :: id !in runs[k].captures
    ensures AllCoherent(states[n]) && Waits(states[n], id, wake) && states[n][id] == states[0][id]
    ensures |Ahead(states[n], id)| + n * config.maxCapturesPerRun <= |Ahead(states[0], id)|
    decreases n
  {
    if n > 0 {
      var last := n - 1;
      NotYetCaptured(states, runs, config, id, wake, last);
      RanAt(states, runs, config, id, states[0][id], wake, last);
      RunComesCloser(states[last], states[n], runs[last], config, id, wake);
      RunKeepsCoherent(states[last], states[n], runs[last], config);
      OneMore(last, config.maxCapturesPerRun);
    }
  }

  /** Every due session is captured, however the attempts of the others end and whatever else is observed:
      at the latest in the run by which all that were ahead of it could be taken. */
  lemma DueSessionIsCaptured(states: seq<map<SessionId, Checkpoint>>, runs: seq<Run>, config: Configuration,
                             id: SessionId, wake: Time)
    requires ValidConfiguration(config) && Chain(states, runs, config) && AllCoherent(states[0])
    requires Waits(states[0], id, wake) && states[0][id].sessionId == id && DueThroughout(runs, states[0][id], wake)
    requires |runs| * config.maxCapturesPerRun > |Ahead(states[0], id)|
    ensures exists k :: 0 <= k < |runs| && id in runs[k].captures
  {
    if forall k | 0 <= k < |runs| :: id !in runs[k].captures {
      NotYetCaptured(states, runs, config, id, wake, |runs|);
    }
  }

  /** In particular a session that a run finds new or changed, available, not captured and not under
      recovery: once the debounce has passed it is captured by one of the runs that follow. */
  lemma NewSessionIsCaptured(before: map<SessionId, Checkpoint>, first: Run,
                             states: seq<map<SessionId, Checkpoint>>, runs: seq<Run>, config: Configuration,
                             id: SessionId)
    requires ValidConfiguration(config) && AllCoherent(before)
    requires Chain(states, runs, config) && Ran(before, states[0], first, config)
    requires id in first.entries && first.entries[id].sessionId == id && ToCapture(before, first.entries[id])
    requires forall k | 0 <= k < |runs| ::
               && runs[k].at >= first.at + config.followDebounceMs
               && (id in runs[k].entries ==> RevisionOf(runs[k].entries[id]) == RevisionOf(first.entries[id]))
    requires |runs| * config.maxCapturesPerRun > |Ahead(states[0], id)|
    ensures exists k :: 0 <= k < |runs| && id in runs[k].captures
  {
    var wake := first.at + config.followDebounceMs;
    FirstRunNotes(before, states[0], first, config, id);
    RunKeepsCoherent(before, states[0], first, config);
    DueFromThen(runs, states[0][id], first.entries[id], wake);
    DueSessionIsCaptured(states, runs, config, id, wake);
  }

  lemma DueFromThen(runs: seq<Run>, c: Checkpoint, e: Entry, wake: Time)
    requires SameObservation(c, e)
    requires forall k | 0 <= k < |runs| ::
               && runs[k].at >= wake
               && (c.sessionId in runs[k].entries ==> RevisionOf(runs[k].entries[c.sessionId]) == RevisionOf(e))
    ensures DueThroughout(runs, c, wake)
  {
  }

  lemma FirstRunNotes(before: map<SessionId, Checkpoint>, after: map<SessionId, Checkpoint>, run: Run,
                      config: Configuration, id: SessionId)
    requires ValidConfiguration(config) && Ran(before, after, run, config) && (id in before ==> Coherent(before[id]))
    requires id in run.entries && run.entries[id].sessionId == id && ToCapture(before, run.entries[id])
    ensures Waits(after, id, run.at + config.followDebounceMs)
    ensures after[id].sessionId == id && SameObservation(after[id], run.entries[id])
  {
    ScanOnFields(before, run.seen, run.entries, run.at, config, id);
    NewSessionIsDue(before, run.seen, run.entries, run.at, config, id, run.at);
    CaptureOnFields(run.seen, run.tried, run.captures, run.entries, run.ports, run.at, config, id, run.at);
    assert id in run.captures ==> id in DueSet(run.seen, run.at, false);
    if run.recovery {
      WaitingIsNotRecovered(run, after, config, id, run.at + config.followDebounceMs);
    }
  }
}
