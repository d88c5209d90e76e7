/** Automatic ingestion: the checkpoint of a session, the transitions of a run, and the store. */
module IngestionCheckpoints {
  import opened Wrappers

  /** Session ids, as positions in the id order of the store. Times are milliseconds. */
  type SessionId = nat
  type Time = int

  datatype Mutation = Replaced | Truncated | AnchorMismatch

  datatype Diagnostic = SourceMutation(mutation: Mutation) | CaptureFailed

  datatype Status =
    | FollowPending | CapturedPartial | CapturedCurrent | SourceUnavailable | RetryPending | RecoveryPending

  datatype CaptureStatus = NotCaptured | Partial | Current | Unavailable

  /** A catalog entry. `sourceVersion` stands for the source, its version and its format. */
  datatype Entry = Entry(sessionId: SessionId, available: bool, capture: CaptureStatus, sourceVersion: string,
                         alias: string, lastActivityAt: Time, valid: bool)

  datatype Revision = Revision(available: bool, sourceVersion: string, alias: string, lastActivityAt: Time)

  datatype AttemptKey = AttemptKey(sessionId: SessionId, revision: Revision, mutation: Mutation)

  datatype Captured = Captured(byteOffset: nat, lineNumber: nat)

  datatype Checkpoint = Checkpoint(
    sessionId: SessionId,
    version: nat,
    revision: Revision,
    alias: string,
    lastObservedActivityAt: Time,
    status: Status,
    nextEligibleAt: Option<Time>,
    lastAttemptAt: Option<Time>,
    captured: Option<Captured>,
    lastDiagnostic: Option<Diagnostic>,
    recoveryAttemptKey: Option<AttemptKey>,
    recoveryCompletedAt: Option<Time>,
    updatedAt: Time)

  datatype Configuration = Configuration(followDebounceMs: int, retryDelayMs: int, maxScanPages: nat, pageSize: nat,
                                         maxSessionsPerScan: nat, maxCapturesPerRun: nat, maxRecoveriesPerRun: nat)

  predicate ValidConfiguration(c: Configuration) {
    && 100 <= c.followDebounceMs <= 600_000 && 1_000 <= c.retryDelayMs <= 3_600_000
    && 1 <= c.pageSize <= 100 && 1 <= c.maxScanPages <= 1_000 && 1 <= c.maxSessionsPerScan <= 50_000
    && 1 <= c.maxCapturesPerRun <= 1_000 && 1 <= c.maxRecoveriesPerRun <= 100
  }

  predicate CaptureEligible(s: Status) {
    s.FollowPending? || s.CapturedPartial? || s.RetryPending?
  }

  /** A source mutation was seen and its recovery has been keyed but not completed. */
  predicate OpenRecovery(c: Checkpoint) {
    && c.lastDiagnostic.Some? && c.lastDiagnostic.value.SourceMutation?
    && c.recoveryAttemptKey.Some? && c.recoveryCompletedAt.None?
  }

  function RevisionOf(e: Entry): Revision {
    Revision(e.available, e.sourceVersion, e.alias, e.lastActivityAt)
  }

  predicate Unchanged(e: Entry, c: Checkpoint) {
    c.revision == RevisionOf(e) && c.lastObservedActivityAt == e.lastActivityAt && c.alias == e.alias
  }

  /** The checkpoint after observing a catalog entry at time `at`; `None` when nothing changed. */
  function Observe(current: Option<Checkpoint>, e: Entry, at: Time, config: Configuration): Option<Checkpoint> {
    if current.Some? && Unchanged(e, current.value) then None
    else
      var unavailable := !e.available || e.capture.Unavailable?;
      var alreadyCurrent := !unavailable && e.capture.Current?;
      var pendingRecovery := current.Some? && OpenRecovery(current.value);
      var recoveryPending := !unavailable && pendingRecovery;
      Some(Checkpoint(
        e.sessionId,
        (if current.Some? then current.value.version else 0) + 1,
        RevisionOf(e), e.alias, e.lastActivityAt,
        if unavailable then SourceUnavailable
        else if recoveryPending then RecoveryPending
        else if alreadyCurrent then CapturedCurrent else FollowPending,
        if unavailable || alreadyCurrent then None
        else if !recoveryPending then Some(at + config.followDebounceMs)
        else if current.value.nextEligibleAt.Some? then current.value.nextEligibleAt else Some(at),
        if current.Some? then current.value.lastAttemptAt else None,
        if current.Some? then current.value.captured else None,
        if pendingRecovery then current.value.lastDiagnostic else None,
        if pendingRecovery then current.value.recoveryAttemptKey else None,
        None,
        at))
  }

  /** What one attempt to capture a due session ends in. */
  datatype CaptureOutcome = Missing | Success(cursor: Captured, hasMore: bool) | Mutated(mutation: Mutation) | Failed

  function Capture(c: Checkpoint, outcome: CaptureOutcome, at: Time, config: Configuration): Checkpoint {
    var next := c.(version := c.version + 1, updatedAt := at);
    match outcome
    case Missing => next.(status := SourceUnavailable, nextEligibleAt := None)
    case Success(cursor, hasMore) =>
      next.(status := if hasMore then CapturedPartial else CapturedCurrent,
            nextEligibleAt := if hasMore then Some(at + config.followDebounceMs) else None,
            lastAttemptAt := Some(at), captured := Some(cursor),
            lastDiagnostic := None, recoveryAttemptKey := None, recoveryCompletedAt := None)
    case Mutated(mutation) =>
      next.(status := RecoveryPending, nextEligibleAt := Some(at), lastAttemptAt := Some(at),
            lastDiagnostic := Some(SourceMutation(mutation)),
            recoveryAttemptKey := if c.recoveryAttemptKey.Some? then c.recoveryAttemptKey
                                  else Some(AttemptKey(c.sessionId, c.revision, mutation)),
            recoveryCompletedAt := None)
    case Failed =>
      next.(status := RetryPending, nextEligibleAt := Some(at + config.retryDelayMs), lastAttemptAt := Some(at),
            lastDiagnostic := Some(CaptureFailed))
  }

  /** What one recovery attempt ends in: a rebased source, an incomplete report, or an exception. */
  datatype RecoveryOutcome = Rebased | Incomplete | Threw

  /** The key that a recovery attempt carries. */
  function RecoveryKey(c: Checkpoint): AttemptKey
    requires c.lastDiagnostic.Some? && c.lastDiagnostic.value.SourceMutation?
  {
    if c.recoveryAttemptKey.Some? then c.recoveryAttemptKey.value
    else AttemptKey(c.sessionId, c.revision, c.lastDiagnostic.value.mutation)
  }

  function Recover(c: Checkpoint, outcome: RecoveryOutcome, at: Time, config: Configuration): Checkpoint
    requires c.lastDiagnostic.Some? && c.lastDiagnostic.value.SourceMutation?
  {
    var next := c.(version := c.version + 1, updatedAt := at, recoveryAttemptKey := Some(RecoveryKey(c)));
    if outcome.Rebased? then
      next.(status := FollowPending, nextEligibleAt := Some(at + config.followDebounceMs),
            recoveryCompletedAt := Some(at))
    else next.(status := RecoveryPending, nextEligibleAt := Some(at + config.retryDelayMs))
  }

  /** The shape of every checkpoint that serial runs can reach. */
  ghost predicate Shape(c: Checkpoint) {
    && c.version >= 1
    && (c.nextEligibleAt.Some? ==> CaptureEligible(c.status) || c.status.RecoveryPending?)
    && (CaptureEligible(c.status) ==> c.nextEligibleAt.Some? && !OpenRecovery(c))
    && (CaptureEligible(c.status) && c.recoveryAttemptKey.Some? ==> c.recoveryCompletedAt.Some?)
    && (c.status.RecoveryPending? ==> OpenRecovery(c))
    && (c.status.CapturedCurrent? ==> c.recoveryAttemptKey.None? && c.recoveryCompletedAt.None?)
  }

  lemma ObserveKeepsShape(current: Option<Checkpoint>, e: Entry, at: Time, config: Configuration)
    requires current.Some? ==> Shape(current.value)
    ensures var next := Observe(current, e, at, config);
            next.Some? ==>
              && Shape(next.value)
              && next.value.version == (if current.Some? then current.value.version else 0) + 1
  {
  }

  lemma CaptureKeepsShape(c: Checkpoint, outcome: CaptureOutcome, at: Time, config: Configuration)
    requires Shape(c) && CaptureEligible(c.status)
    ensures Shape(Capture(c, outcome, at, config))
  {
  }

  lemma RecoverKeepsShape(c: Checkpoint, outcome: RecoveryOutcome, at: Time, config: Configuration)
    requires Shape(c) && c.status.RecoveryPending?
    ensures Shape(Recover(c, outcome, at, config))
  {
  }

  /** A recovery is left without a wake-up time exactly when an available source is observed to be
      already captured while its recovery is open. */
  lemma StrandedExactlyWhenObservedCurrent(current: Option<Checkpoint>, e: Entry, at: Time, config: Configuration)
    requires current.Some? ==> Shape(current.value)
    ensures var next := Observe(current, e, at, config);
            next.Some? ==>
              (next.value.status.RecoveryPending? && next.value.nextEligibleAt.None?
               <==> current.Some? && OpenRecovery(current.value) && e.available && e.capture.Current?)
  {
  }

  /** One step in the life of a session's checkpoint. Captures and recoveries happen when due. */
  datatype Event =
    | Observed(entry: Entry, at: Time)
    | CaptureAttempt(outcome: CaptureOutcome, at: Time)
    | RecoveryAttempt(ending: RecoveryOutcome, at: Time)

  predicate Due(c: Checkpoint, at: Time) {
    c.nextEligibleAt.Some? && c.nextEligibleAt.value <= at
  }

  predicate Happens(current: Option<Checkpoint>, e: Event) {
    match e
    case Observed(_, _) => true
    case CaptureAttempt(_, at) => current.Some? && CaptureEligible(current.value.status) && Due(current.value, at)
    case RecoveryAttempt(_, at) =>
      && current.Some? && current.value.status.RecoveryPending? && Due(current.value, at)
      && current.value.lastDiagnostic.Some? && current.value.lastDiagnostic.value.SourceMutation?
  }

  function After(current: Option<Checkpoint>, e: Event, config: Configuration): Option<Checkpoint> {
    if !Happens(current, e) then current
    else
      match e
      case Observed(entry, at) =>
        var next := Observe(current, entry, at, config);
        if next.Some? then next else current
      case CaptureAttempt(outcome, at) => Some(Capture(current.value, outcome, at, config))
      case RecoveryAttempt(outcome, at) => Some(Recover(current.value, outcome, at, config))
  }

  function Life(events: seq<Event>, config: Configuration): Option<Checkpoint> {
    if events == [] then None else After(Life(events[..|events| - 1], config), events[|events| - 1], config)
  }

  /** Over every life the checkpoint has its shape, and each step that changes it raises the version by one. */
  lemma {:induction false} LifeKeepsShape(events: seq<Event>, config: Configuration)
    ensures Life(events, config).Some? ==> Shape(Life(events, config).value)
    ensures events != [] ==>
              var before, after := Life(events[..|events| - 1], config), Life(events, config);
              after == before
                || (after.Some? && after.value.version == (if before.Some? then before.value.version else 0) + 1)
  {
    if events != [] {
      LifeKeepsShape(events[..|events| - 1], config);
    }
  }

  /** Position `i` of a life is a recovery attempt that really happens. */
  predicate Recovers(events: seq<Event>, i: nat, config: Configuration)
  {
    i < |events| && events[i].RecoveryAttempt? && Happens(Life(events[..i], config), events[i])
  }

  function KeyAt(events: seq<Event>, i: nat, config: Configuration): AttemptKey
    requires Recovers(events, i, config)
  {
    RecoveryKey(Life(events[..i], config).value)
  }

  /** While a recovery is open and not completed, its key stays. */
  lemma {:induction false} OpenRecoveryKeepsKey(events: seq<Event>, i: nat, j: nat, config: Configuration)
    requires i <= j <= |events|
    requires Life(events[..i], config).Some? && OpenRecovery(Life(events[..i], config).value)
    requires forall k | i <= k < j && Recovers(events, k, config) :: !events[k].ending.Rebased?
    ensures var before, after := Life(events[..i], config), Life(events[..j], config);
            && after.Some? && OpenRecovery(after.value)
            && after.value.recoveryAttemptKey == before.value.recoveryAttemptKey
    decreases j - i
  {
    if i < j {
      OpenRecoveryKeepsKey(events, i, j - 1, config);
      LifeKeepsShape(events[..j - 1], config);
      assert events[..j][..j - 1] == events[..j - 1];
      assert events[..j][j - 1] == events[j - 1];
      assert Recovers(events, j - 1, config) ==> !events[j - 1].ending.Rebased?;
    }
  }

  /** All recovery attempts up to and including the completing one carry the same key, whatever is
      observed in between. */
  lemma RecoveryKeyIsStable(events: seq<Event>, i: nat, j: nat, config: Configuration)
    requires i <= j && Recovers(events, i, config) && Recovers(events, j, config)
    requires forall k | i <= k < j && Recovers(events, k, config) :: !events[k].ending.Rebased?
    ensures KeyAt(events, i, config) == KeyAt(events, j, config)
  {
    LifeKeepsShape(events[..i], config);
    OpenRecoveryKeepsKey(events, i, j, config);
  }

  class CheckpointStore {
    var values: map<SessionId, Checkpoint>

    constructor ()
      ensures values == map[]
    {
      values := map[];
    }

    method Load(id: SessionId) returns (r: Option<Checkpoint>)
      ensures r == if id in values then Some(values[id]) else None
    {
      return if id in values then Some(values[id]) else None;
    }

    /** Commit exactly if the expected version is the stored one and the next version follows it. */
    method CompareAndSwap(id: SessionId, expected: Option<nat>, next: Checkpoint) returns (committed: bool)
      modifies this
      ensures committed <==>
                && expected == (if id in old(values) then Some(old(values)[id].version) else None)
                && next.sessionId == id && next.version == (if expected.Some? then expected.value else 0) + 1
      ensures values == if committed then old(values)[id := next] else old(values)
    {
      var current := if id in values then Some(values[id].version) else None;
      var previous := if expected.Some? then expected.value else 0;
      if current != expected || next.sessionId != id || next.version != previous + 1 {
        return false;
      }
      values := values[id := next];
      return true;
    }

    /** The due checkpoints of the given statuses, earliest first, at most `limit` of them. */
    method ListEligible(at: Time, limit: nat, recovery: bool) returns (ids: seq<SessionId>)
      ensures FirstDue(values, at, limit, recovery, ids)
    {
      ids := [];
      var rest := values.Keys;
      while rest != {}
        invariant rest <= values.Keys
        invariant forall id :: id in ids <==> id in values.Keys - rest && IsDue(values, at, recovery, id)
        invariant InOrder(values, ids)
        decreases rest
      {
        var id :| id in rest;
        if IsDue(values, at, recovery, id) {
          var position := 0;
          while position < |ids| && Before(values, ids[position], id)
            invariant 0 <= position <= |ids|
            invariant forall k | 0 <= k < position :: Before(values, ids[k], id)
          {
            position := position + 1;
          }
          assert forall i | 0 <= i < |ids| :: ids[i] in ids;
          InsertKeepsOrder(values, ids, position, id);
          ids := ids[..position] + [id] + ids[position..];
        }
        rest := rest - {id};
      }
      ghost var all := ids;
      ids := FirstN(ids, limit);
      PrefixIsFirst(values, at, limit, recovery, all);
    }
  }

  predicate IsDue(values: map<SessionId, Checkpoint>, at: Time, recovery: bool, id: SessionId) {
    && id in values && Due(values[id], at)
    && if recovery then values[id].status.RecoveryPending? else CaptureEligible(values[id].status)
  }

  /** Order by due time, then by id. */
  predicate Before(values: map<SessionId, Checkpoint>, a: SessionId, b: SessionId) {
    && a in values && b in values && values[a].nextEligibleAt.Some? && values[b].nextEligibleAt.Some?
    && (|| values[a].nextEligibleAt.value < values[b].nextEligibleAt.value
        || (values[a].nextEligibleAt == values[b].nextEligibleAt && a < b))
  }

  ghost predicate InOrder(values: map<SessionId, Checkpoint>, ids: seq<SessionId>) {
    forall i, j | 0 <= i < j < |ids| :: Before(values, ids[i], ids[j])
  }

  ghost function DueSet(values: map<SessionId, Checkpoint>, at: Time, recovery: bool): set<SessionId> {
    set id | id in values && IsDue(values, at, recovery, id)
  }

  /** `ids` are the `limit` earliest due checkpoints, in order, or all of them if there are fewer. */
  ghost predicate FirstDue(values: map<SessionId, Checkpoint>, at: Time, limit: nat, recovery: bool,
                           ids: seq<SessionId>) {
    && InOrder(values, ids)
    && (forall id | id in ids :: id in DueSet(values, at, recovery))
    && |ids| == Min(limit, |DueSet(values, at, recovery)|)
    && (forall id, other | id in ids && other in DueSet(values, at, recovery) && other !in ids ::
          Before(values, id, other))
  }

  lemma InsertKeepsOrder(values: map<SessionId, Checkpoint>, ids: seq<SessionId>, position: nat, id: SessionId)
    requires InOrder(values, ids) && position <= |ids| && id !in ids && id in values && values[id].nextEligibleAt.Some?
    requires forall i | 0 <= i < |ids| :: ids[i] in values && values[ids[i]].nextEligibleAt.Some?
    requires forall k | 0 <= k < position :: Before(values, ids[k], id)
    requires position < |ids| ==> !Before(values, ids[position], id)
    ensures InOrder(values, ids[..position] + [id] + ids[position..])
  {
    forall k | position <= k < |ids| ensures Before(values, id, ids[k]) {
      assert Before(values, id, ids[position]);
      assert k > position ==> Before(values, ids[position], ids[k]);
    }
  }

  function IdSet(ids: seq<SessionId>): set<SessionId> {
    set id | id in ids
  }

  lemma {:induction false} DistinctSize(ids: seq<SessionId>)
    requires forall i, j | 0 <= i < j < |ids| :: ids[i] != ids[j]
    ensures |IdSet(ids)| == |ids|
  {
    if ids != [] {
      var front, last := ids[..|ids| - 1], ids[|ids| - 1];
      DistinctSize(front);
      assert ids == front + [last];
      assert last !in front;
      assert IdSet(ids) == IdSet(front) + {last};
    }
  }

  lemma OrderedAreDistinct(values: map<SessionId, Checkpoint>, ids: seq<SessionId>)
    requires InOrder(values, ids)
    ensures forall i, j | 0 <= i < j < |ids| :: ids[i] != ids[j]
    ensures |IdSet(ids)| == |ids|
  {
    forall i, j | 0 <= i < j < |ids| ensures ids[i] != ids[j] {
      assert Before(values, ids[i], ids[j]);
    }
    DistinctSize(ids);
  }

  lemma PrefixIsFirst(values: map<SessionId, Checkpoint>, at: Time, limit: nat, recovery: bool, all: seq<SessionId>)
    requires InOrder(values, all)
    requires forall id :: id in all <==> id in DueSet(values, at, recovery)
    ensures FirstDue(values, at, limit, recovery, FirstN(all, limit))
  {
    OrderedAreDistinct(values, all);
    assert IdSet(all) == DueSet(values, at, recovery);
    var ids := FirstN(all, limit);
    forall id, other | id in ids && other in DueSet(values, at, recovery) && other !in ids
      ensures Before(values, id, other)
    {
      assert other in all;
      var i :| 0 <= i < |ids| && ids[i] == id;
      var j :| 0 <= j < |all| && all[j] == other;
      assert j >= |ids|;
      assert all[i] == id;
    }
  }
}
