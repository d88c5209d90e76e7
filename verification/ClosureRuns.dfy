/** Closure operations handled concurrently by several processes over one database. A step is one SQL
    statement, one publication, or one port settling; anything may fail, and processes may crash. */
module ClosureRuns {
  import opened ClosureOperations
  import opened Wrappers

  datatype Phase =
    | BeginSelect
    | Insert
    | BeginReselect
    | Checking(operation: Row)
    | Computing
    | SaveSelect(computed: Outcome)
    | SaveUpdate(computed: Outcome)
    | SaveReselect
    | Auditing(outcome: Outcome)
    | Confirming(outcome: Outcome)
    | CompleteSelect(outcome: Outcome)
    | CompleteUpdate(outcome: Outcome)
    | CompleteReselect(outcome: Outcome)
    | Returned(result: ClosureResult)
    | Threw

  /** `holds`: the call has put its key into its process's set of active operations. */
  datatype Call = Call(process: nat, key: Key, hash: Hash, holds: bool, phase: Phase)

  datatype World = World(rows: map<Key, Row>, closures: map<RunId, AuditRecord>, confirmations: set<string>,
                         active: set<(nat, Key)>, calls: map<nat, Call>)

  datatype Action =
    | Handle(call: nat, process: nat, key: Key, hash: Hash)
    | Proceed(call: nat)
    | Computes(call: nat, outcome: Option<Outcome>)
    | Fails(call: nat)
    | Crash(process: nat)

  predicate Ended(p: Phase) {
    p.Returned? || p.Threw?
  }

  predicate Enabled(w: World, a: Action) {
    match a
    case Handle(c, _, _, _) => c !in w.calls
    case Proceed(c) => c in w.calls && !Ended(w.calls[c].phase) && !w.calls[c].phase.Computing?
    case Computes(c, outcome) =>
      && c in w.calls && w.calls[c].phase.Computing?
      && (outcome.Some? ==> OutcomeFor(outcome.value, w.calls[c].key, w.calls[c].hash))
    case Fails(c) => c in w.calls && !Ended(w.calls[c].phase)
    case Crash(_) => true
  }

  function Move(w: World, c: nat, phase: Phase): World
    requires c in w.calls
  {
    w.(calls := w.calls[c := w.calls[c].(phase := phase)])
  }

  /** The `finally` of a call that holds its key releases it. */
  function End(w: World, c: nat, phase: Phase): World
    requires c in w.calls
  {
    var call := w.calls[c];
    w.(calls := w.calls[c := call.(phase := phase, holds := false)],
       active := if call.holds then w.active - {(call.process, call.key)} else w.active)
  }

  predicate Owns(w: World, call: Call) {
    call.key in w.rows && w.rows[call.key].requestHash == call.hash
  }

  function BeginStep(w: World, c: nat): World
    requires c in w.calls
  {
    var call := w.calls[c];
    match call.phase
    case BeginSelect =>
      if call.key !in w.rows then Move(w, c, Insert)
      else if w.rows[call.key].requestHash == call.hash then Move(w, c, Checking(w.rows[call.key]))
      else End(w, c, Threw)
    case Insert =>
      if call.key in w.rows then End(w, c, Threw)
      else Move(w.(rows := w.rows[call.key := Row(call.hash, Pending, None)]), c, BeginReselect)
    case BeginReselect => if Owns(w, call) then Move(w, c, Checking(w.rows[call.key])) else End(w, c, Threw)
    case Checking(operation) =>
      if operation.outcome.Some? then Move(w, c, Auditing(operation.outcome.value))
      else if (call.process, call.key) in w.active then End(w, c, Threw)
      else w.(active := w.active + {(call.process, call.key)},
              calls := w.calls[c := call.(phase := Computing, holds := true)])
    case _ => w
  }

  function SaveStep(w: World, c: nat): World
    requires c in w.calls
  {
    var call := w.calls[c];
    match call.phase
    case SaveSelect(computed) =>
      if !Owns(w, call) || computed.bytes > MAX_OUTCOME_BYTES then End(w, c, Threw)
      else if w.rows[call.key].outcome.None? then Move(w, c, SaveUpdate(computed))
      else if w.rows[call.key].outcome.value == computed then Move(w, c, Auditing(computed)) else End(w, c, Threw)
    case SaveUpdate(computed) =>
      if Owns(w, call) && w.rows[call.key].status.Pending?
      then Move(w.(rows := w.rows[call.key := Row(call.hash, HasOutcome, Some(computed))]), c, SaveReselect)
      else End(w, c, Threw)
    case SaveReselect =>
      if Owns(w, call) && w.rows[call.key].outcome.Some? then Move(w, c, Auditing(w.rows[call.key].outcome.value))
      else End(w, c, Threw)
    case _ => w
  }

  function PublishStep(w: World, c: nat): World
    requires c in w.calls
  {
    var call := w.calls[c];
    match call.phase
    case Auditing(o) =>
      if o.audit.runId in w.closures && w.closures[o.audit.runId] != o.audit then End(w, c, Threw)
      else Move(w.(closures := w.closures[o.audit.runId := o.audit]), c, Confirming(o))
    case Confirming(o) =>
      var confirmed := if o.confirmation.Some? then {o.confirmation.value} else {};
      Move(w.(confirmations := w.confirmations + confirmed), c, CompleteSelect(o))
    case CompleteSelect(o) =>
      if !Owns(w, call) then End(w, c, Threw)
      else if w.rows[call.key].status.Completed? then End(w, c, Returned(ClosureResult(o.stop, o.audit)))
      else if w.rows[call.key].outcome.None? then End(w, c, Threw) else Move(w, c, CompleteUpdate(o))
    case CompleteUpdate(o) =>
      if Owns(w, call) && w.rows[call.key].status.HasOutcome?
      then Move(w.(rows := w.rows[call.key := w.rows[call.key].(status := Completed)]), c, CompleteReselect(o))
      else End(w, c, Threw)
    case CompleteReselect(o) =>
      if Owns(w, call) then End(w, c, Returned(ClosureResult(o.stop, o.audit))) else End(w, c, Threw)
    case _ => w
  }

  function ProceedStep(w: World, c: nat): World
    requires c in w.calls
  {
    var phase := w.calls[c].phase;
    if phase.BeginSelect? || phase.Insert? || phase.BeginReselect? || phase.Checking? then BeginStep(w, c)
    else if phase.SaveSelect? || phase.SaveUpdate? || phase.SaveReselect? then SaveStep(w, c)
    else PublishStep(w, c)
  }

  function CrashedCall(call: Call, process: nat): Call {
    if call.process == process && !Ended(call.phase) then call.(phase := Threw, holds := false) else call
  }

  function CrashStep(w: World, process: nat): World {
    w.(calls := map c | c in w.calls :: CrashedCall(w.calls[c], process),
       active := set entry | entry in w.active && entry.0 != process)
  }

  function Step(w: World, a: Action): World {
    if !Enabled(w, a) then w
    else
      match a
      case Handle(c, process, key, hash) => w.(calls := w.calls[c := Call(process, key, hash, false, BeginSelect)])
      case Proceed(c) => ProceedStep(w, c)
      case Computes(c, outcome) => if outcome.Some? then Move(w, c, SaveSelect(outcome.value)) else End(w, c, Threw)
      case Fails(c) => End(w, c, Threw)
      case Crash(process) => CrashStep(w, process)
  }

  function Run(w: World, schedule: seq<Action>): World
    decreases |schedule|
  {
    if schedule == [] then w else Run(Step(w, schedule[0]), schedule[1..])
  }

  function Empty(): World {
    World(map[], map[], {}, {}, map[])
  }

  // --- the invariant -----------------------------------------------------

  ghost predicate GoodRows(rows: map<Key, Row>) {
    forall key | key in rows ::
      Constrained(rows[key])
        && (rows[key].outcome.Some? ==> OutcomeFor(rows[key].outcome.value, key, rows[key].requestHash))
  }

  ghost predicate Checkpointed(rows: map<Key, Row>, key: Key, hash: Hash, o: Outcome) {
    key in rows && rows[key].requestHash == hash && rows[key].outcome == Some(o)
  }

  /** Only checkpointed outcomes are published. */
  ghost predicate GoodClosures(closures: map<RunId, AuditRecord>, rows: map<Key, Row>) {
    forall id | id in closures ::
      && id.key in rows && rows[id.key].requestHash == id.hash && rows[id.key].outcome.Some?
      && rows[id.key].outcome.value.audit == closures[id]
  }

  /** COMPLETED means that audit and confirmation were published. */
  ghost predicate GoodCompletions(rows: map<Key, Row>, closures: map<RunId, AuditRecord>, confirmations: set<string>) {
    forall key | key in rows && rows[key].status.Completed? ::
      rows[key].outcome.Some? && IsPublished(rows[key].outcome.value, closures, confirmations)
  }

  ghost predicate GoodCall(call: Call, rows: map<Key, Row>, closures: map<RunId, AuditRecord>,
                           confirmations: set<string>) {
    match call.phase
    case BeginSelect => true
    case Insert => true
    case BeginReselect => call.key in rows && rows[call.key].requestHash == call.hash
    case Checking(operation) =>
      && call.key in rows && rows[call.key].requestHash == call.hash
      && (operation.outcome.Some? ==> rows[call.key].outcome == operation.outcome)
    case Computing => call.key in rows && rows[call.key].requestHash == call.hash
    case SaveSelect(o) => OutcomeFor(o, call.key, call.hash)
    case SaveUpdate(o) => OutcomeFor(o, call.key, call.hash)
    case SaveReselect => call.key in rows && rows[call.key].requestHash == call.hash && rows[call.key].outcome.Some?
    case Auditing(o) => Checkpointed(rows, call.key, call.hash, o)
    case Confirming(o) =>
      && Checkpointed(rows, call.key, call.hash, o)
      && o.audit.runId in closures && closures[o.audit.runId] == o.audit
    case CompleteSelect(o) => Checkpointed(rows, call.key, call.hash, o) && IsPublished(o, closures, confirmations)
    case CompleteUpdate(o) => Checkpointed(rows, call.key, call.hash, o) && IsPublished(o, closures, confirmations)
    case CompleteReselect(o) => Checkpointed(rows, call.key, call.hash, o) && rows[call.key].status.Completed?
    case Returned(r) =>
      && call.key in rows && rows[call.key].requestHash == call.hash && rows[call.key].status.Completed?
      && rows[call.key].outcome.Some?
      && r == ClosureResult(rows[call.key].outcome.value.stop, rows[call.key].outcome.value.audit)
    case Threw => true
  }

  ghost predicate GoodCalls(w: World) {
    forall c | c in w.calls :: GoodCall(w.calls[c], w.rows, w.closures, w.confirmations)
  }

  /** Each entry of an active set has at most one holder, and holders are entered. */
  ghost predicate OneHolder(calls: map<nat, Call>, active: set<(nat, Key)>) {
    && (forall c | c in calls && calls[c].holds :: (calls[c].process, calls[c].key) in active && !Ended(calls[c].phase))
    && (forall c | c in calls && calls[c].phase.Computing? :: calls[c].holds)
    && (forall c, d | c in calls && d in calls && c != d && calls[c].holds && calls[d].holds
                      && calls[c].process == calls[d].process ::
          calls[c].key != calls[d].key)
  }

  ghost predicate Inv(w: World) {
    && GoodRows(w.rows) && GoodClosures(w.closures, w.rows) && GoodCompletions(w.rows, w.closures, w.confirmations)
    && GoodCalls(w) && OneHolder(w.calls, w.active)
  }

  /** Rows move forward, and nothing published is taken back. */
  ghost predicate Grows(w: World, next: World) {
    && AllForward(w.rows, next.rows)
    && (forall id | id in w.closures :: id in next.closures && next.closures[id] == w.closures[id])
    && w.confirmations <= next.confirmations
  }

  /** What was true of a call stays true of it. */
  lemma GoodCallLasts(call: Call, w: World, next: World)
    requires GoodCall(call, w.rows, w.closures, w.confirmations) && Grows(w, next)
    ensures GoodCall(call, next.rows, next.closures, next.confirmations)
  {
  }

  lemma OthersLast(w: World, next: World, c: nat)
    requires GoodCalls(w) && Grows(w, next) && c in w.calls
    requires next.calls.Keys == w.calls.Keys && forall d | d in w.calls && d != c :: next.calls[d] == w.calls[d]
    requires GoodCall(next.calls[c], next.rows, next.closures, next.confirmations)
    ensures GoodCalls(next)
  {
    forall d | d in next.calls ensures GoodCall(next.calls[d], next.rows, next.closures, next.confirmations) {
      if d != c {
        GoodCallLasts(w.calls[d], w, next);
      }
    }
  }

  lemma EndKeepsHolders(w: World, c: nat, phase: Phase)
    requires OneHolder(w.calls, w.active) && c in w.calls && Ended(phase)
    ensures OneHolder(End(w, c, phase).calls, End(w, c, phase).active)
  {
  }

  lemma EndKeepsInv(w: World, c: nat, phase: Phase)
    requires Inv(w) && c in w.calls && Ended(phase)
    requires GoodCall(w.calls[c].(phase := phase), w.rows, w.closures, w.confirmations)
    ensures Inv(End(w, c, phase))
  {
    EndKeepsHolders(w, c, phase);
    OthersLast(w, End(w, c, phase), c);
  }

  lemma MoveKeepsInv(w: World, c: nat, phase: Phase)
    requires Inv(w) && c in w.calls && !phase.Computing? && !Ended(phase)
    requires GoodCall(w.calls[c].(phase := phase), w.rows, w.closures, w.confirmations)
    ensures Inv(Move(w, c, phase))
  {
    OthersLast(w, Move(w, c, phase), c);
  }

  /** One call moves on and changes what is stored, consistently. */
  lemma AdvancingKeepsInv(w: World, next: World, c: nat, phase: Phase)
    requires Inv(w) && c in w.calls && !phase.Computing? && !Ended(phase)
    requires Grows(w, next) && next.calls == Move(w, c, phase).calls && next.active == w.active
    requires GoodRows(next.rows) && GoodClosures(next.closures, next.rows)
    requires GoodCompletions(next.rows, next.closures, next.confirmations)
    requires GoodCall(next.calls[c], next.rows, next.closures, next.confirmations)
    ensures Inv(next)
  {
    OthersLast(w, next, c);
  }

  lemma InsertKeepsInv(w: World, c: nat)
    requires Inv(w) && c in w.calls && w.calls[c].phase.Insert?
    ensures Inv(BeginStep(w, c)) && Grows(w, BeginStep(w, c))
  {
    var call := w.calls[c];
    if call.key in w.rows {
      EndKeepsInv(w, c, Threw);
    } else {
      OthersLast(w, BeginStep(w, c), c);
    }
  }

  lemma CheckingKeepsInv(w: World, c: nat)
    requires Inv(w) && c in w.calls && w.calls[c].phase.Checking?
    ensures Inv(BeginStep(w, c)) && Grows(w, BeginStep(w, c))
  {
    var call := w.calls[c];
    if call.phase.operation.outcome.Some? {
      MoveKeepsInv(w, c, Auditing(call.phase.operation.outcome.value));
    } else if (call.process, call.key) in w.active {
      EndKeepsInv(w, c, Threw);
    } else {
      OthersLast(w, BeginStep(w, c), c);
    }
  }

  lemma BeginKeepsInv(w: World, c: nat)
    requires Inv(w) && c in w.calls && (w.calls[c].phase.BeginSelect? || w.calls[c].phase.BeginReselect?)
    ensures Inv(BeginStep(w, c)) && Grows(w, BeginStep(w, c))
  {
    var call := w.calls[c];
    if call.phase.BeginSelect? && call.key !in w.rows {
      MoveKeepsInv(w, c, Insert);
    } else if w.rows[call.key].requestHash == call.hash {
      MoveKeepsInv(w, c, Checking(w.rows[call.key]));
    } else {
      EndKeepsInv(w, c, Threw);
    }
  }

  lemma SaveSelectKeepsInv(w: World, c: nat)
    requires Inv(w) && c in w.calls && w.calls[c].phase.SaveSelect?
    ensures Inv(SaveStep(w, c)) && Grows(w, SaveStep(w, c))
  {
    var call := w.calls[c];
    assert GoodCall(call, w.rows, w.closures, w.confirmations);
    if !Owns(w, call) || call.phase.computed.bytes > MAX_OUTCOME_BYTES {
      EndKeepsInv(w, c, Threw);
    } else if w.rows[call.key].outcome.None? {
      MoveKeepsInv(w, c, SaveUpdate(call.phase.computed));
    } else if w.rows[call.key].outcome.value == call.phase.computed {
      MoveKeepsInv(w, c, Auditing(call.phase.computed));
    } else {
      EndKeepsInv(w, c, Threw);
    }
  }

  lemma SaveReselectKeepsInv(w: World, c: nat)
    requires Inv(w) && c in w.calls && w.calls[c].phase.SaveReselect?
    ensures Inv(SaveStep(w, c)) && Grows(w, SaveStep(w, c))
  {
    var call := w.calls[c];
    assert GoodCall(call, w.rows, w.closures, w.confirmations);
    MoveKeepsInv(w, c, Auditing(w.rows[call.key].outcome.value));
  }

  /** A PENDING row takes an outcome of its request. */
  lemma CheckpointedRow(w: World, key: Key, o: Outcome)
    requires GoodRows(w.rows) && GoodClosures(w.closures, w.rows)
             && GoodCompletions(w.rows, w.closures, w.confirmations)
    requires key in w.rows && w.rows[key].status.Pending? && OutcomeFor(o, key, w.rows[key].requestHash)
    ensures var next := w.(rows := w.rows[key := Row(w.rows[key].requestHash, HasOutcome, Some(o))]);
            && Grows(w, next) && GoodRows(next.rows)
            && GoodClosures(next.closures, next.rows) && GoodCompletions(next.rows, next.closures, next.confirmations)
  {
  }

  /** The checkpoint: only a PENDING row takes an outcome. */
  lemma CheckpointKeepsInv(w: World, c: nat)
    requires Inv(w) && c in w.calls && w.calls[c].phase.SaveUpdate?
    ensures Inv(SaveStep(w, c)) && Grows(w, SaveStep(w, c))
  {
    var call := w.calls[c];
    assert GoodCall(call, w.rows, w.closures, w.confirmations);
    if Owns(w, call) && w.rows[call.key].status.Pending? {
      CheckpointedRow(w, call.key, call.phase.computed);
      AdvancingKeepsInv(w, SaveStep(w, c), c, SaveReselect);
    } else {
      EndKeepsInv(w, c, Threw);
    }
  }

  /** A publication never conflicts: whoever published this run before published this outcome. */
  lemma AuditNeverConflicts(w: World, c: nat)
    requires Inv(w) && c in w.calls && w.calls[c].phase.Auditing?
    ensures var audit := w.calls[c].phase.outcome.audit; audit.runId in w.closures ==> w.closures[audit.runId] == audit
  {
    assert GoodCall(w.calls[c], w.rows, w.closures, w.confirmations);
  }

  /** Publishing the audit of a checkpointed outcome. */
  lemma PublishedAudit(w: World, key: Key, hash: Hash, o: Outcome)
    requires GoodRows(w.rows) && GoodClosures(w.closures, w.rows)
             && GoodCompletions(w.rows, w.closures, w.confirmations)
    requires Checkpointed(w.rows, key, hash, o)
             && (o.audit.runId in w.closures ==> w.closures[o.audit.runId] == o.audit)
    ensures var next := w.(closures := w.closures[o.audit.runId := o.audit]);
            && Grows(w, next)
            && GoodClosures(next.closures, next.rows) && GoodCompletions(next.rows, next.closures, next.confirmations)
  {
  }

  lemma AuditKeepsInv(w: World, c: nat)
    requires Inv(w) && c in w.calls && w.calls[c].phase.Auditing?
    ensures Inv(PublishStep(w, c)) && Grows(w, PublishStep(w, c))
  {
    AuditNeverConflicts(w, c);
    assert GoodCall(w.calls[c], w.rows, w.closures, w.confirmations);
    var o := w.calls[c].phase.outcome;
    PublishedAudit(w, w.calls[c].key, w.calls[c].hash, o);
    AdvancingKeepsInv(w, PublishStep(w, c), c, Confirming(o));
  }

  lemma PublishedConfirmation(w: World, added: set<string>)
    requires GoodCompletions(w.rows, w.closures, w.confirmations)
    ensures Grows(w, w.(confirmations := w.confirmations + added))
    ensures GoodCompletions(w.rows, w.closures, w.confirmations + added)
  {
  }

  lemma ConfirmKeepsInv(w: World, c: nat)
    requires Inv(w) && c in w.calls && w.calls[c].phase.Confirming?
    ensures Inv(PublishStep(w, c)) && Grows(w, PublishStep(w, c))
  {
    assert GoodCall(w.calls[c], w.rows, w.closures, w.confirmations);
    var o := w.calls[c].phase.outcome;
    PublishedConfirmation(w, if o.confirmation.Some? then {o.confirmation.value} else {});
    AdvancingKeepsInv(w, PublishStep(w, c), c, CompleteSelect(o));
  }

  /** Completing a row of a published outcome. */
  lemma CompletedRow(w: World, key: Key, o: Outcome)
    requires GoodRows(w.rows) && GoodClosures(w.closures, w.rows)
             && GoodCompletions(w.rows, w.closures, w.confirmations)
    requires key in w.rows && w.rows[key].status.HasOutcome? && w.rows[key].outcome == Some(o)
             && IsPublished(o, w.closures, w.confirmations)
    ensures var next := w.(rows := w.rows[key := w.rows[key].(status := Completed)]);
            && Grows(w, next)
            && GoodRows(next.rows) && GoodClosures(next.closures, next.rows)
            && GoodCompletions(next.rows, next.closures, next.confirmations)
  {
  }

  lemma CompletingKeepsInv(w: World, c: nat)
    requires Inv(w) && c in w.calls && w.calls[c].phase.CompleteUpdate?
    ensures Inv(PublishStep(w, c)) && Grows(w, PublishStep(w, c))
  {
    var call := w.calls[c];
    assert GoodCall(call, w.rows, w.closures, w.confirmations);
    if w.rows[call.key].status.HasOutcome? {
      CompletedRow(w, call.key, call.phase.outcome);
      AdvancingKeepsInv(w, PublishStep(w, c), c, CompleteReselect(call.phase.outcome));
    } else {
      EndKeepsInv(w, c, Threw);
    }
  }

  lemma CompleteKeepsInv(w: World, c: nat)
    requires Inv(w) && c in w.calls && (w.calls[c].phase.CompleteSelect? || w.calls[c].phase.CompleteReselect?)
    ensures Inv(PublishStep(w, c)) && Grows(w, PublishStep(w, c))
  {
    var call := w.calls[c];
    assert GoodCall(call, w.rows, w.closures, w.confirmations);
    var o := call.phase.outcome;
    if call.phase.CompleteReselect? || w.rows[call.key].status.Completed? {
      EndKeepsInv(w, c, Returned(ClosureResult(o.stop, o.audit)));
    } else {
      MoveKeepsInv(w, c, CompleteUpdate(o));
    }
  }

  lemma ProceedKeepsInv(w: World, c: nat)
    requires Inv(w) && Enabled(w, Proceed(c))
    ensures Inv(ProceedStep(w, c)) && Grows(w, ProceedStep(w, c))
  {
    assert GoodCall(w.calls[c], w.rows, w.closures, w.confirmations);
    match w.calls[c].phase
    case BeginSelect => BeginKeepsInv(w, c);
    case Insert => InsertKeepsInv(w, c);
    case BeginReselect => BeginKeepsInv(w, c);
    case Checking(_) => CheckingKeepsInv(w, c);
    case SaveSelect(_) => SaveSelectKeepsInv(w, c);
    case SaveUpdate(_) => CheckpointKeepsInv(w, c);
    case SaveReselect => SaveReselectKeepsInv(w, c);
    case Auditing(_) => AuditKeepsInv(w, c);
    case Confirming(_) => ConfirmKeepsInv(w, c);
    case CompleteSelect(_) => CompleteKeepsInv(w, c);
    case CompleteUpdate(_) => CompletingKeepsInv(w, c);
    case CompleteReselect(_) => CompleteKeepsInv(w, c);
  }

  lemma CrashKeepsInv(w: World, process: nat)
    requires Inv(w)
    ensures Inv(CrashStep(w, process)) && Grows(w, CrashStep(w, process))
  {
    var next := CrashStep(w, process);
    forall c | c in next.calls ensures GoodCall(next.calls[c], next.rows, next.closures, next.confirmations) {
      assert GoodCall(w.calls[c], w.rows, w.closures, w.confirmations);
    }
  }

  lemma StepKeepsInv(w: World, a: Action)
    requires Inv(w)
    ensures Inv(Step(w, a)) && Grows(w, Step(w, a))
  {
    if Enabled(w, a) {
      match a
      case Handle(_, _, _, _) =>
      case Proceed(c) => ProceedKeepsInv(w, c);
      case Computes(c, outcome) =>
        if outcome.Some? { MoveKeepsInv(w, c, SaveSelect(outcome.value)); } else { EndKeepsInv(w, c, Threw); }
      case Fails(c) => EndKeepsInv(w, c, Threw);
      case Crash(process) => CrashKeepsInv(w, process);
    }
  }

  lemma {:induction false} RunKeepsInv(w: World, schedule: seq<Action>)
    requires Inv(w)
    ensures Inv(Run(w, schedule)) && Grows(w, Run(w, schedule))
    decreases |schedule|
  {
    if schedule != [] {
      StepKeepsInv(w, schedule[0]);
      RunKeepsInv(Step(w, schedule[0]), schedule[1..]);
    }
  }

  // --- what every run guarantees -----------------------------------------

  /** From any reachable world on, a row only moves PENDING, OUTCOME, COMPLETED; its request and its
      checkpointed outcome stay; and what is COMPLETED has been published. */
  lemma RowsOnlyMoveForward(before: seq<Action>, after: seq<Action>, key: Key)
    requires key in Run(Empty(), before).rows
    ensures var w := Run(Empty(), before);
            var end := Run(w, after);
            && key in end.rows && Forward(w.rows[key], end.rows[key])
            && (end.rows[key].status.Completed? ==>
                  end.rows[key].outcome.Some?
                    && IsPublished(end.rows[key].outcome.value, end.closures, end.confirmations))
  {
    RunKeepsInv(Empty(), before);
    RunKeepsInv(Run(Empty(), before), after);
  }

  /** All handles of an identity that return were for one request, and return the same stop and audit;
      they do so only once the operation is COMPLETED. */
  lemma SuccessfulHandlesAgree(schedule: seq<Action>, c: nat, d: nat)
    requires var w := Run(Empty(), schedule);
             && c in w.calls && d in w.calls && w.calls[c].key == w.calls[d].key
             && w.calls[c].phase.Returned? && w.calls[d].phase.Returned?
    ensures var w := Run(Empty(), schedule);
            && w.calls[c].hash == w.calls[d].hash && w.calls[c].phase.result == w.calls[d].phase.result
            && w.calls[c].key in w.rows && w.rows[w.calls[c].key].status.Completed?
  {
    RunKeepsInv(Empty(), schedule);
    var w := Run(Empty(), schedule);
    assert GoodCall(w.calls[c], w.rows, w.closures, w.confirmations);
    assert GoodCall(w.calls[d], w.rows, w.closures, w.confirmations);
  }

  ghost predicate SameRequest(calls: map<nat, Call>, next: map<nat, Call>, c: nat) {
    c in calls && c in next && next[c].key == calls[c].key && next[c].hash == calls[c].hash
  }

  lemma BeginKeepsRequest(w: World, b: nat, c: nat)
    requires b in w.calls && c in w.calls
    ensures SameRequest(w.calls, BeginStep(w, b).calls, c)
  {
  }

  lemma SaveKeepsRequest(w: World, b: nat, c: nat)
    requires b in w.calls && c in w.calls
    ensures SameRequest(w.calls, SaveStep(w, b).calls, c)
  {
  }

  lemma PublishKeepsRequest(w: World, b: nat, c: nat)
    requires b in w.calls && c in w.calls
    ensures SameRequest(w.calls, PublishStep(w, b).calls, c)
  {
  }

  lemma StepKeepsRequest(w: World, a: Action, c: nat)
    requires c in w.calls
    ensures SameRequest(w.calls, Step(w, a).calls, c)
  {
    if Enabled(w, a) && a.Proceed? {
      BeginKeepsRequest(w, a.call, c);
      SaveKeepsRequest(w, a.call, c);
      PublishKeepsRequest(w, a.call, c);
    }
  }

  lemma {:induction false} CallsKeepTheirRequest(w: World, schedule: seq<Action>, c: nat)
    requires c in w.calls
    ensures var end := Run(w, schedule);
            c in end.calls && end.calls[c].key == w.calls[c].key && end.calls[c].hash == w.calls[c].hash
    decreases |schedule|
  {
    if schedule != [] {
      StepKeepsRequest(w, schedule[0], c);
      CallsKeepTheirRequest(Step(w, schedule[0]), schedule[1..], c);
    }
  }

  /** Once an identity has a row, a handle with another request hash never returns and never publishes. */
  lemma OtherRequestsAreRefused(before: seq<Action>, after: seq<Action>, c: nat)
    requires var w := Run(Empty(), before);
             c in w.calls && w.calls[c].key in w.rows && w.rows[w.calls[c].key].requestHash != w.calls[c].hash
    ensures var end := Run(Run(Empty(), before), after);
            && c in end.calls
            && !end.calls[c].phase.Returned? && !end.calls[c].phase.Auditing? && !end.calls[c].phase.Confirming?
            && RunId(end.calls[c].key, end.calls[c].hash) !in end.closures
  {
    RunKeepsInv(Empty(), before);
    RunKeepsInv(Run(Empty(), before), after);
    CallsKeepTheirRequest(Run(Empty(), before), after, c);
    var end := Run(Run(Empty(), before), after);
    assert GoodCall(end.calls[c], end.rows, end.closures, end.confirmations);
  }

  /** A process computes at most one outcome for an identity at a time. */
  lemma OneComputationPerProcess(schedule: seq<Action>, c: nat, d: nat)
    requires var w := Run(Empty(), schedule);
             c in w.calls && d in w.calls && c != d && w.calls[c].phase.Computing? && w.calls[d].phase.Computing?
    ensures var w := Run(Empty(), schedule);
            w.calls[c].process != w.calls[d].process || w.calls[c].key != w.calls[d].key
  {
    RunKeepsInv(Empty(), schedule);
  }

  function Proceeds(w: World, c: nat, n: nat): World
    decreases n
  {
    if n == 0 then w else Proceeds(Step(w, Proceed(c)), c, n - 1)
  }

  lemma {:induction false} ProceedingKeepsInv(w: World, c: nat, n: nat)
    requires Inv(w)
    ensures Inv(Proceeds(w, c, n))
    decreases n
  {
    if n > 0 {
      StepKeepsInv(w, Proceed(c));
      ProceedingKeepsInv(Step(w, Proceed(c)), c, n - 1);
    }
  }

  /** A call that has ended, or waits for its computation, does not proceed. */
  lemma {:induction false} NothingToProceed(w: World, c: nat, n: nat)
    requires !Enabled(w, Proceed(c))
    ensures Proceeds(w, c, n) == w
    decreases n
  {
    if n > 0 {
      NothingToProceed(w, c, n - 1);
    }
  }

  /** What a call that is left alone ends with: its phase, its row, and its key released. */
  ghost predicate Finished(w: World, end: World, c: nat, phase: Phase, row: Row)
    requires c in w.calls
  {
    var call := w.calls[c];
    && c in end.calls && end.calls[c].phase == phase
    && end.rows == w.rows[call.key := row]
    && end.active == if call.holds then w.active - {(call.process, call.key)} else w.active
  }

  /** The call returns the outcome, and the operation is COMPLETED. */
  ghost predicate Returns(w: World, end: World, c: nat, o: Outcome)
    requires c in w.calls
  {
    Finished(w, end, c, Returned(ClosureResult(o.stop, o.audit)), Row(w.calls[c].hash, Completed, Some(o)))
  }

  lemma ReselectingReturns(w: World, c: nat, o: Outcome, n: nat)
    requires n >= 1 && c in w.calls && w.calls[c].phase == CompleteReselect(o)
    requires w.calls[c].key in w.rows && w.rows[w.calls[c].key] == Row(w.calls[c].hash, Completed, Some(o))
    ensures Returns(w, Proceeds(w, c, n), c, o)
  {
    var one := Step(w, Proceed(c));
    assert w.rows == w.rows[w.calls[c].key := w.rows[w.calls[c].key]];
    NothingToProceed(one, c, n - 1);
  }

  lemma UpdatingReturns(w: World, c: nat, o: Outcome, n: nat)
    requires n >= 2 && c in w.calls && w.calls[c].phase == CompleteUpdate(o)
    requires w.calls[c].key in w.rows && w.rows[w.calls[c].key] == Row(w.calls[c].hash, HasOutcome, Some(o))
    ensures Returns(w, Proceeds(w, c, n), c, o)
  {
    var one := Step(w, Proceed(c));
    var row := Row(w.calls[c].hash, Completed, Some(o));
    assert one == Move(w, c, CompleteReselect(o)).(rows := w.rows[w.calls[c].key := row]);
    ReselectingReturns(one, c, o, n - 1);
  }

  lemma CompletingReturns(w: World, c: nat, o: Outcome, n: nat)
    requires n >= 3 && c in w.calls && w.calls[c].phase == CompleteSelect(o) && GoodRows(w.rows)
    requires Checkpointed(w.rows, w.calls[c].key, w.calls[c].hash, o)
    ensures Returns(w, Proceeds(w, c, n), c, o)
  {
    var one := Step(w, Proceed(c));
    if w.rows[w.calls[c].key].status.Completed? {
      assert w.rows == w.rows[w.calls[c].key := w.rows[w.calls[c].key]];
      NothingToProceed(one, c, n - 1);
    } else {
      UpdatingReturns(one, c, o, n - 1);
    }
  }

  lemma ConfirmingReturns(w: World, c: nat, o: Outcome, n: nat)
    requires n >= 4 && c in w.calls && w.calls[c].phase == Confirming(o) && GoodRows(w.rows)
    requires Checkpointed(w.rows, w.calls[c].key, w.calls[c].hash, o)
    ensures Returns(w, Proceeds(w, c, n), c, o)
  {
    CompletingReturns(Step(w, Proceed(c)), c, o, n - 1);
  }

  lemma PublishingReturns(w: World, c: nat, o: Outcome, n: nat)
    requires n >= 5 && Inv(w) && c in w.calls && w.calls[c].phase == Auditing(o)
    requires Checkpointed(w.rows, w.calls[c].key, w.calls[c].hash, o)
    ensures Returns(w, Proceeds(w, c, n), c, o)
  {
    AuditNeverConflicts(w, c);
    assert Step(w, Proceed(c)) == Move(w, c, Confirming(o)).(closures := w.closures[o.audit.runId := o.audit]);
    ConfirmingReturns(Step(w, Proceed(c)), c, o, n - 1);
  }

  lemma Began(w: World, c: nat, process: nat, key: Key, hash: Hash)
    requires Inv(w) && c !in w.calls
    ensures var begun := Step(w, Handle(c, process, key, hash));
            Inv(begun) && begun == w.(calls := w.calls[c := Call(process, key, hash, false, BeginSelect)])
  {
    StepKeepsInv(w, Handle(c, process, key, hash));
  }

  /** Whatever crashed before, a checkpointed outcome can always be brought to the end: a new handle of
      the same request that is left alone for seven steps returns it and leaves the operation COMPLETED. */
  lemma ReplayFinishes(w: World, c: nat, process: nat, key: Key, hash: Hash, o: Outcome, n: nat)
    requires Inv(w) && c !in w.calls && Checkpointed(w.rows, key, hash, o) && n >= 7
    ensures var end := Proceeds(Step(w, Handle(c, process, key, hash)), c, n);
            && c in end.calls && end.calls[c].phase == Returned(ClosureResult(o.stop, o.audit))
            && end.rows == w.rows[key := Row(hash, Completed, Some(o))] && end.active == w.active
  {
    var begun := Step(w, Handle(c, process, key, hash));
    Began(w, c, process, key, hash);
    ReplayingReturns(begun, c, o, n);
  }

  lemma CheckedReturns(w: World, c: nat, o: Outcome, n: nat)
    requires n >= 6 && Inv(w) && c in w.calls && w.calls[c].phase.Checking?
    requires w.calls[c].phase.operation.outcome == Some(o)
    requires Checkpointed(w.rows, w.calls[c].key, w.calls[c].hash, o)
    ensures Returns(w, Proceeds(w, c, n), c, o)
  {
    StepKeepsInv(w, Proceed(c));
    assert Step(w, Proceed(c)) == Move(w, c, Auditing(o));
    PublishingReturns(Step(w, Proceed(c)), c, o, n - 1);
  }

  lemma ReplayingReturns(w: World, c: nat, o: Outcome, n: nat)
    requires n >= 7 && Inv(w) && c in w.calls && w.calls[c].phase.BeginSelect?
    requires Checkpointed(w.rows, w.calls[c].key, w.calls[c].hash, o)
    ensures Returns(w, Proceeds(w, c, n), c, o)
  {
    StepKeepsInv(w, Proceed(c));
    assert Step(w, Proceed(c)) == Move(w, c, Checking(w.rows[w.calls[c].key]));
    CheckedReturns(Step(w, Proceed(c)), c, o, n - 1);
  }

  /** The row is there, and the call computes unless its process computes the same operation. */
  ghost predicate Prepared(w: World, next: World, c: nat)
    requires c in w.calls
  {
    var call := w.calls[c];
    var busy := (call.process, call.key) in w.active;
    && next.rows == w.rows[call.key := Row(call.hash, Pending, None)]
    && next.active == w.active + {(call.process, call.key)}
    && next.calls == w.calls[c := if busy then call.(phase := Threw) else call.(phase := Computing, holds := true)]
  }

  lemma CheckingPrepares(w: World, c: nat, n: nat)
    requires n >= 1 && c in w.calls && !w.calls[c].holds
             && w.calls[c].phase == Checking(Row(w.calls[c].hash, Pending, None))
    requires w.calls[c].key in w.rows && w.rows[w.calls[c].key] == Row(w.calls[c].hash, Pending, None)
    ensures Prepared(w, Proceeds(w, c, n), c)
  {
    var one := Step(w, Proceed(c));
    assert w.rows == w.rows[w.calls[c].key := w.rows[w.calls[c].key]];
    assert !Enabled(one, Proceed(c));
    NothingToProceed(one, c, n - 1);
  }

  lemma ReselectingPrepares(w: World, c: nat, n: nat)
    requires n >= 2 && c in w.calls && !w.calls[c].holds && w.calls[c].phase.BeginReselect?
    requires w.calls[c].key in w.rows && w.rows[w.calls[c].key] == Row(w.calls[c].hash, Pending, None)
    ensures Prepared(w, Proceeds(w, c, n), c)
  {
    var one := Step(w, Proceed(c));
    assert one == Move(w, c, Checking(w.rows[w.calls[c].key]));
    CheckingPrepares(one, c, n - 1);
  }

  lemma InsertingPrepares(w: World, c: nat, n: nat)
    requires n >= 3 && c in w.calls && !w.calls[c].holds && w.calls[c].phase.Insert? && w.calls[c].key !in w.rows
    ensures Prepared(w, Proceeds(w, c, n), c)
  {
    var one := Step(w, Proceed(c));
    assert one == Move(w, c, BeginReselect).(rows := w.rows[w.calls[c].key := Row(w.calls[c].hash, Pending, None)]);
    ReselectingPrepares(one, c, n - 1);
  }

  lemma BeginningPrepares(w: World, c: nat, n: nat)
    requires n >= 4 && GoodRows(w.rows) && c in w.calls && !w.calls[c].holds && w.calls[c].phase.BeginSelect?
    requires Unanswered(w.rows, w.calls[c].key, w.calls[c].hash)
    ensures Prepared(w, Proceeds(w, c, n), c)
  {
    var one := Step(w, Proceed(c));
    if w.calls[c].key in w.rows {
      assert one == Move(w, c, Checking(w.rows[w.calls[c].key]));
      CheckingPrepares(one, c, n - 1);
    } else {
      assert one == Move(w, c, Insert);
      InsertingPrepares(one, c, n - 1);
    }
  }

  lemma StoredReturns(w: World, c: nat, o: Outcome, n: nat)
    requires n >= 6 && Inv(w) && c in w.calls && w.calls[c].phase.SaveReselect?
    requires Checkpointed(w.rows, w.calls[c].key, w.calls[c].hash, o)
    ensures Returns(w, Proceeds(w, c, n), c, o)
  {
    StepKeepsInv(w, Proceed(c));
    assert Step(w, Proceed(c)) == Move(w, c, Auditing(o));
    PublishingReturns(Step(w, Proceed(c)), c, o, n - 1);
  }

  lemma CheckpointingReturns(w: World, c: nat, o: Outcome, n: nat)
    requires n >= 7 && Inv(w) && c in w.calls && w.calls[c].phase == SaveUpdate(o)
    requires w.calls[c].key in w.rows && w.rows[w.calls[c].key] == Row(w.calls[c].hash, Pending, None)
    ensures Returns(w, Proceeds(w, c, n), c, o)
  {
    var one := Step(w, Proceed(c));
    StepKeepsInv(w, Proceed(c));
    var row := Row(w.calls[c].hash, HasOutcome, Some(o));
    assert one == Move(w, c, SaveReselect).(rows := w.rows[w.calls[c].key := row]);
    StoredReturns(one, c, o, n - 1);
  }

  lemma TooLargeThrows(w: World, c: nat, o: Outcome, n: nat)
    requires n >= 1 && c in w.calls && w.calls[c].phase == SaveSelect(o) && o.bytes > MAX_OUTCOME_BYTES
    requires w.calls[c].key in w.rows && w.rows[w.calls[c].key] == Row(w.calls[c].hash, Pending, None)
    ensures Finished(w, Proceeds(w, c, n), c, Threw, Row(w.calls[c].hash, Pending, None))
  {
    var one := Step(w, Proceed(c));
    assert one == End(w, c, Threw);
    assert w.rows == w.rows[w.calls[c].key := w.rows[w.calls[c].key]];
    NothingToProceed(one, c, n - 1);
  }

  /** A computed outcome is checkpointed and published, unless it is too large. */
  lemma SavingFinishes(w: World, c: nat, o: Outcome, n: nat)
    requires n >= 8 && Inv(w) && c in w.calls && w.calls[c].phase == SaveSelect(o)
    requires w.calls[c].key in w.rows && w.rows[w.calls[c].key] == Row(w.calls[c].hash, Pending, None)
    ensures var end := Proceeds(w, c, n);
            if o.bytes <= MAX_OUTCOME_BYTES then Returns(w, end, c, o)
            else Finished(w, end, c, Threw, Row(w.calls[c].hash, Pending, None))
  {
    if o.bytes <= MAX_OUTCOME_BYTES {
      var one := Step(w, Proceed(c));
      StepKeepsInv(w, Proceed(c));
      assert one == Move(w, c, SaveUpdate(o));
      CheckpointingReturns(one, c, o, n - 1);
    } else {
      TooLargeThrows(w, c, o, n);
    }
  }

  lemma ComputedFinishes(w: World, c: nat, o: Outcome, n: nat)
    requires n >= 8 && Inv(w) && c in w.calls && w.calls[c].phase.Computing? && w.calls[c].holds
    requires OutcomeFor(o, w.calls[c].key, w.calls[c].hash)
    requires w.calls[c].key in w.rows && w.rows[w.calls[c].key] == Row(w.calls[c].hash, Pending, None)
    ensures var end := Proceeds(Step(w, Computes(c, Some(o))), c, n);
            if o.bytes <= MAX_OUTCOME_BYTES then Returns(w, end, c, o)
            else Finished(w, end, c, Threw, Row(w.calls[c].hash, Pending, None))
  {
    StepKeepsInv(w, Computes(c, Some(o)));
    assert Step(w, Computes(c, Some(o))) == Move(w, c, SaveSelect(o));
    SavingFinishes(Move(w, c, SaveSelect(o)), c, o, n);
  }

  /** How a handle of an unanswered operation ends when it computes `o` and is left alone. */
  ghost predicate Answers(w: World, end: World, c: nat, o: Outcome)
    requires c in w.calls
  {
    var call := w.calls[c];
    var refused := (call.process, call.key) in w.active || o.bytes > MAX_OUTCOME_BYTES;
    && c in end.calls && end.active == w.active
    && end.calls[c].phase == (if refused then Threw else Returned(ClosureResult(o.stop, o.audit)))
    && end.rows == w.rows[call.key := if refused then Row(call.hash, Pending, None)
                                      else Row(call.hash, Completed, Some(o))]
  }

  lemma BusyAnswers(w: World, prepared: World, c: nat, o: Outcome, n: nat)
    requires c in w.calls && Prepared(w, prepared, c) && (w.calls[c].process, w.calls[c].key) in w.active
    ensures Answers(w, Proceeds(Step(prepared, Computes(c, Some(o))), c, n), c, o)
  {
    assert Step(prepared, Computes(c, Some(o))) == prepared;
    assert prepared.active == w.active;
    NothingToProceed(prepared, c, n);
  }

  lemma FreeAnswers(w: World, prepared: World, c: nat, o: Outcome, n: nat)
    requires c in w.calls && Prepared(w, prepared, c) && (w.calls[c].process, w.calls[c].key) !in w.active
    requires Inv(prepared) && OutcomeFor(o, w.calls[c].key, w.calls[c].hash) && n >= 8
    ensures Answers(w, Proceeds(Step(prepared, Computes(c, Some(o))), c, n), c, o)
  {
    ComputedFinishes(prepared, c, o, n);
    assert prepared.active - {(w.calls[c].process, w.calls[c].key)} == w.active;
  }

  /** A handle of an unanswered operation that is left alone, as `ActiveClosureRuntime.Handle` runs it: it
      refuses while its process computes the same operation, or an outcome that is too large; otherwise it
      returns the outcome it computed and leaves the operation COMPLETED. It releases its key. */
  lemma FreshHandleFinishes(w: World, c: nat, process: nat, key: Key, hash: Hash, o: Outcome, m: nat, n: nat)
    requires Inv(w) && c !in w.calls && Unanswered(w.rows, key, hash) && OutcomeFor(o, key, hash) && m >= 4 && n >= 8
    ensures var begun := Step(w, Handle(c, process, key, hash));
            var computing := Proceeds(begun, c, m);
            && begun == w.(calls := w.calls[c := Call(process, key, hash, false, BeginSelect)])
            && Answers(begun, Proceeds(Step(computing, Computes(c, Some(o))), c, n), c, o)
  {
    Began(w, c, process, key, hash);
    var begun := Step(w, Handle(c, process, key, hash));
    BeginningPrepares(begun, c, m);
    ProceedingKeepsInv(begun, c, m);
    if (process, key) in w.active {
      BusyAnswers(begun, Proceeds(begun, c, m), c, o, n);
    } else {
      FreeAnswers(begun, Proceeds(begun, c, m), c, o, n);
    }
  }
}
