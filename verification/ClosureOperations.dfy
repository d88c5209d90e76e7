/** The write-ahead record of a closure operation, PENDING then OUTCOME then COMPLETED, and the runtime
    that checkpoints an outcome before it publishes it. */
module ClosureOperations {
  import opened Wrappers

  const MAX_OUTCOME_BYTES: nat := 4_194_304

  /** The identity key is a truncated digest and may repeat for different requests; the request hash may not. */
  type Key = string
  type Hash = string

  /** `runId` is derived from the key and the request hash. */
  datatype RunId = RunId(key: Key, hash: Hash)

  datatype AuditRecord = AuditRecord(runId: RunId, payload: string)

  datatype Outcome = Outcome(stop: string, audit: AuditRecord, confirmation: Option<string>, bytes: nat)

  datatype Status = Pending | HasOutcome | Completed

  datatype Row = Row(requestHash: Hash, status: Status, outcome: Option<Outcome>)

  /** The table's own constraint. */
  predicate Constrained(r: Row) {
    r.status.Pending? <==> r.outcome.None?
  }

  predicate OutcomeFor(o: Outcome, key: Key, hash: Hash) {
    o.audit.runId == RunId(key, hash)
  }

  /** A row only moves forward, keeps its request, and keeps its outcome once it has one. */
  ghost predicate Forward(before: Row, after: Row) {
    && after.requestHash == before.requestHash
    && (before.outcome.Some? ==> after.outcome == before.outcome)
    && (before.status.HasOutcome? ==> !after.status.Pending?)
    && (before.status.Completed? ==> after.status.Completed?)
  }

  ghost predicate AllForward(before: map<Key, Row>, after: map<Key, Row>) {
    forall key | key in before :: key in after && Forward(before[key], after[key])
  }

  class SqliteActiveClosureOperationStore {
    var rows: map<Key, Row>

    ghost predicate Valid()
      reads this
    {
      forall key | key in rows :: Constrained(rows[key])
    }

    constructor ()
      ensures Valid() && rows == map[]
    {
      rows := map[];
    }

    /** Prepare the operation, or find it; another request under the same identity is refused. */
    method Begin(key: Key, hash: Hash) returns (r: Option<Row>)
      requires Valid()
      modifies this
      ensures Valid() && AllForward(old(rows), rows)
      ensures rows == if key in old(rows) then old(rows) else old(rows)[key := Row(hash, Pending, None)]
      ensures r == if rows[key].requestHash == hash then Some(rows[key]) else None
    {
      if key in rows {
        return if rows[key].requestHash == hash then Some(rows[key]) else None;
      }
      rows := rows[key := Row(hash, Pending, None)];
      return Some(rows[key]);
    }

    /** Checkpoint an outcome. The first one stays; a different one is refused. */
    method SaveOutcome(key: Key, hash: Hash, outcome: Outcome) returns (r: Option<Row>)
      requires Valid()
      modifies this
      ensures Valid() && AllForward(old(rows), rows)
      ensures r.Some? <==>
                && key in old(rows) && old(rows)[key].requestHash == hash && outcome.bytes <= MAX_OUTCOME_BYTES
                && (old(rows)[key].outcome.Some? ==> old(rows)[key].outcome.value == outcome)
      ensures rows == if r.Some? && old(rows)[key].status.Pending?
                      then old(rows)[key := Row(hash, HasOutcome, Some(outcome))] else old(rows)
      ensures r.Some? ==> r.value == rows[key] && r.value.outcome == Some(outcome)
    {
      if key !in rows || rows[key].requestHash != hash { return None; }
      var current := rows[key];
      if outcome.bytes > MAX_OUTCOME_BYTES { return None; }
      if current.outcome.Some? {
        return if current.outcome.value == outcome then Some(current) else None;
      }
      if !current.status.Pending? { return None; }
      rows := rows[key := current.(status := HasOutcome, outcome := Some(outcome))];
      return Some(rows[key]);
    }

    method Complete(key: Key, hash: Hash) returns (r: Option<Row>)
      requires Valid()
      modifies this
      ensures Valid() && AllForward(old(rows), rows)
      ensures r.Some? <==> key in old(rows) && old(rows)[key].requestHash == hash && old(rows)[key].outcome.Some?
      ensures rows == if r.Some? then old(rows)[key := old(rows)[key].(status := Completed)] else old(rows)
      ensures r.Some? ==> r.value == rows[key]
    {
      if key !in rows || rows[key].requestHash != hash { return None; }
      var current := rows[key];
      if current.status.Completed? { return Some(current); }
      if current.outcome.None? { return None; }
      if !current.status.HasOutcome? { return None; }
      rows := rows[key := current.(status := Completed)];
      return Some(rows[key]);
    }
  }

  /** The audit store: recording the same closure again is harmless, another one under its id is refused. */
  class RuntimeAuditStore {
    var closures: map<RunId, AuditRecord>

    constructor ()
      ensures closures == map[]
    {
      closures := map[];
    }

    method RecordClosure(record: AuditRecord) returns (r: Option<AuditRecord>)
      modifies this
      ensures r == if record.runId in old(closures) && old(closures)[record.runId] != record then None else Some(record)
      ensures closures == if r.Some? then old(closures)[record.runId := record] else old(closures)
    {
      if record.runId in closures {
        return if closures[record.runId] == record then Some(record) else None;
      }
      closures := closures[record.runId := record];
      return Some(record);
    }
  }

  datatype ClosureResult = ClosureResult(stop: string, audit: AuditRecord)

  /** What the ports do while an operation is handled: the verification and interaction end in an
      outcome or throw, and the confirmation store may refuse. */
  datatype Ports = Ports(computed: Option<Outcome>, confirms: bool)

  /** The outcome can be checkpointed, and its confirmation is accepted. */
  predicate Publishable(p: Ports) {
    p.computed.Some? && p.computed.value.bytes <= MAX_OUTCOME_BYTES
      && (p.computed.value.confirmation.None? || p.confirms)
  }

  /** What the stores hold after a call, and what it returns. */
  datatype Handling = Handling(rows: map<Key, Row>, closures: map<RunId, AuditRecord>, confirmations: set<string>,
                               result: Option<ClosureResult>)

  /** Publishing a checkpointed outcome: the audit first, then the confirmation, then the completion. */
  function Published(h: Handling, key: Key, hash: Hash, o: Outcome, confirms: bool): Handling {
    var audited := h.(closures := h.closures[o.audit.runId := o.audit], result := None);
    if o.confirmation.Some? && !confirms then audited
    else
      audited.(rows := h.rows[key := Row(hash, Completed, Some(o))],
               confirmations := h.confirmations + if o.confirmation.Some? then {o.confirmation.value} else {},
               result := Some(ClosureResult(o.stop, o.audit)))
  }

  /** Computing an outcome: it is checkpointed and published, unless there is none or it is too large. */
  function Computed(h: Handling, key: Key, hash: Hash, ports: Ports): Handling {
    if ports.computed.None? || ports.computed.value.bytes > MAX_OUTCOME_BYTES then h.(result := None)
    else
      var o := ports.computed.value;
      Published(h.(rows := h.rows[key := Row(hash, HasOutcome, Some(o))]), key, hash, o, ports.confirms)
  }

  /** One handle of an operation that its process is computing already (`busy`) or not. */
  function Handled(h: Handling, key: Key, hash: Hash, ports: Ports, busy: bool): Handling {
    var begun := h.(rows := if key in h.rows then h.rows else h.rows[key := Row(hash, Pending, None)], result := None);
    if begun.rows[key].requestHash != hash then begun
    else if begun.rows[key].outcome.Some?
    then Published(begun, key, hash, begun.rows[key].outcome.value, ports.confirms)
    else if busy then begun else Computed(begun, key, hash, ports)
  }

  /** The operation has no outcome yet, and its row, if there is one, is of this request. */
  ghost predicate Unanswered(rows: map<Key, Row>, key: Key, hash: Hash) {
    key in rows ==> rows[key].requestHash == hash && rows[key].outcome.None?
  }

  /** What one handle makes of its row, of the other rows and of the audit store, in every ending. */
  lemma HandledFields(h: Handling, key: Key, hash: Hash, ports: Ports, busy: bool)
    requires forall k | k in h.rows :: Constrained(h.rows[k])
    ensures var next := Handled(h, key, hash, ports, busy);
            && key in next.rows
            && (forall other | other in h.rows && other != key ::
                  other in next.rows && next.rows[other] == h.rows[other])
            && (key in h.rows && h.rows[key].requestHash != hash ==> next == h.(result := None))
            && (next.result.Some? ==>
                  && next.rows[key].status.Completed? && next.rows[key].requestHash == hash
                  && next.rows[key].outcome.Some?
                  && var o := next.rows[key].outcome.value; next.result.value == ClosureResult(o.stop, o.audit))
            && (key in h.rows && h.rows[key].requestHash == hash && h.rows[key].outcome.Some? ==>
                  (next.result.Some? <==> h.rows[key].outcome.value.confirmation.None? || ports.confirms))
    ensures var next := Handled(h, key, hash, ports, busy);
            Unanswered(h.rows, key, hash) ==>
              && (next.result.Some? <==> !busy && Publishable(ports))
              && next.rows[key].requestHash == hash
              && if busy || ports.computed.None? || ports.computed.value.bytes > MAX_OUTCOME_BYTES
                 then next.rows[key] == Row(hash, Pending, None) && next.closures == h.closures
                 else
                   var audit := ports.computed.value.audit;
                   && next.rows[key].outcome == ports.computed
                   && next.rows[key].status == (if next.result.Some? then Completed else HasOutcome)
                   && next.closures == h.closures[audit.runId := audit]
  {
  }

  /** Write-ahead: an outcome that was computed is checkpointed and its audit recorded whatever becomes of
      its confirmation, and from then on every handle of the request returns it, and no other, as soon as
      the confirmation store is willing. */
  lemma FirstOutcomeIsReplayed(h: Handling, key: Key, hash: Hash, first: Ports, second: Ports, busy: bool)
    requires Unanswered(h.rows, key, hash)
    requires first.computed.Some? && first.computed.value.bytes <= MAX_OUTCOME_BYTES
    ensures var o := first.computed.value;
            var once := Handled(h, key, hash, first, false);
            var twice := Handled(once, key, hash, second, busy);
            && key in once.rows && once.rows[key].requestHash == hash && once.rows[key].outcome == Some(o)
            && o.audit.runId in once.closures && once.closures[o.audit.runId] == o.audit
            && key in twice.rows && twice.rows[key].requestHash == hash && twice.rows[key].outcome == Some(o)
            && (o.confirmation.None? || second.confirms ==>
                  && twice.result == Some(ClosureResult(o.stop, o.audit)) && twice.rows[key].status.Completed?
                  && (o.confirmation.Some? ==> o.confirmation.value in twice.confirmations))
  {
  }

  predicate IsPublished(o: Outcome, closures: map<RunId, AuditRecord>, confirmations: set<string>) {
    && o.audit.runId in closures && closures[o.audit.runId] == o.audit
    && (o.confirmation.Some? ==> o.confirmation.value in confirmations)
  }

  /** Every outcome is of its own request, and nothing unsaved is published. */
  ghost predicate Saved(rows: map<Key, Row>, closures: map<RunId, AuditRecord>) {
    && (forall key | key in rows :: Constrained(rows[key]))
    && (forall key | key in rows && rows[key].outcome.Some? ::
          OutcomeFor(rows[key].outcome.value, key, rows[key].requestHash))
    && (forall id | id in closures ::
          && id.key in rows && rows[id.key].requestHash == id.hash
          && rows[id.key].outcome.Some? && rows[id.key].outcome.value.audit == closures[id])
  }

  /** COMPLETED implies that audit and confirmation were published. */
  ghost predicate AllPublished(rows: map<Key, Row>, closures: map<RunId, AuditRecord>, confirmations: set<string>) {
    forall key | key in rows && rows[key].status.Completed? ::
      rows[key].outcome.Some? && IsPublished(rows[key].outcome.value, closures, confirmations)
  }

  lemma PublishedIsSaved(h: Handling, key: Key, hash: Hash, o: Outcome, confirms: bool)
    requires Saved(h.rows, h.closures)
    requires key in h.rows && h.rows[key].requestHash == hash && h.rows[key].outcome == Some(o)
    ensures var next := Published(h, key, hash, o, confirms);
            Saved(next.rows, next.closures)
  {
  }

  lemma PublishingIsForward(h: Handling, key: Key, hash: Hash, o: Outcome, confirms: bool)
    requires key in h.rows && h.rows[key].requestHash == hash && h.rows[key].outcome == Some(o)
    ensures AllForward(h.rows, Published(h, key, hash, o, confirms).rows)
  {
  }

  lemma AuditIsTheSame(h: Handling, key: Key, o: Outcome)
    requires Saved(h.rows, h.closures) && key in h.rows && h.rows[key].outcome == Some(o)
    ensures o.audit.runId in h.closures ==> h.closures[o.audit.runId] == o.audit
  {
  }

  lemma PublishedIsPublished(h: Handling, key: Key, hash: Hash, o: Outcome, confirms: bool)
    requires Saved(h.rows, h.closures) && AllPublished(h.rows, h.closures, h.confirmations)
    requires key in h.rows && h.rows[key].requestHash == hash && h.rows[key].outcome == Some(o)
    ensures var next := Published(h, key, hash, o, confirms); AllPublished(next.rows, next.closures, next.confirmations)
  {
  }

  class ActiveClosureRuntime {
    const operations: SqliteActiveClosureOperationStore
    const audits: RuntimeAuditStore
    var confirmations: set<string>
    var activeOperations: set<Key>

    constructor (operations: SqliteActiveClosureOperationStore, audits: RuntimeAuditStore)
      ensures this.operations == operations && this.audits == audits && confirmations == {} && activeOperations == {}
    {
      this.operations, this.audits, this.confirmations, this.activeOperations := operations, audits, {}, {};
    }

    ghost predicate Valid()
      reads this, operations, audits
    {
      Saved(operations.rows, audits.closures) && AllPublished(operations.rows, audits.closures, confirmations)
    }

    function Kept(result: Option<ClosureResult>): Handling
      reads this, operations, audits
    {
      Handling(operations.rows, audits.closures, confirmations, result)
    }

    method Publish(outcome: Outcome, key: Key, hash: Hash, confirms: bool) returns (r: Option<ClosureResult>)
      requires Valid() && key in operations.rows && operations.rows[key].requestHash == hash
               && operations.rows[key].outcome == Some(outcome)
      modifies this`confirmations, operations, audits
      ensures Valid() && AllForward(old(operations.rows), operations.rows)
      ensures r.Some? <==> outcome.confirmation.None? || confirms
      ensures r.Some? ==> r.value == ClosureResult(outcome.stop, outcome.audit)
      ensures operations.rows
           == if r.Some? then old(operations.rows)[key := Row(hash, Completed, Some(outcome))] else old(operations.rows)
      ensures Kept(r) == Published(old(Kept(None)), key, hash, outcome, confirms)
    {
      PublishedIsSaved(Kept(None), key, hash, outcome, confirms);
      PublishingIsForward(Kept(None), key, hash, outcome, confirms);
      AuditIsTheSame(Kept(None), key, outcome);
      PublishedIsPublished(Kept(None), key, hash, outcome, confirms);
      var audit := audits.RecordClosure(outcome.audit);
      assert audit.Some?;
      if outcome.confirmation.Some? && !confirms { return None; }
      if outcome.confirmation.Some? { confirmations := confirmations + {outcome.confirmation.value}; }
      var completed := operations.Complete(key, hash);
      return Some(ClosureResult(outcome.stop, audit.value));
    }

    /** The computation, with the key in the set of active operations; its outcome is checkpointed before
        anything is published. */
    method Compute(key: Key, hash: Hash, ports: Ports) returns (r: Option<ClosureResult>)
      requires Valid() && key in operations.rows && operations.rows[key] == Row(hash, Pending, None)
      requires key !in activeOperations
      requires ports.computed.Some? ==> OutcomeFor(ports.computed.value, key, hash)
      modifies this`confirmations, this`activeOperations, operations, audits
      ensures Valid() && AllForward(old(operations.rows), operations.rows) && activeOperations == old(activeOperations)
      ensures Kept(r) == Computed(old(Kept(None)), key, hash, ports)
    {
      activeOperations := activeOperations + {key};
      if ports.computed.Some? {
        var checkpoint := operations.SaveOutcome(key, hash, ports.computed.value);
        if checkpoint.Some? {
          r := Publish(checkpoint.value.outcome.value, key, hash, ports.confirms);
        } else {
          r := None;
        }
      } else {
        r := None;
      }
      activeOperations := activeOperations - {key};
    }

    /** One handle without interruption: replay a checkpointed outcome, or compute, checkpoint and publish one.
        A fresh operation returns exactly if it is not in progress and nothing refuses its outcome. */
    method Handle(key: Key, hash: Hash, ports: Ports) returns (r: Option<ClosureResult>)
      requires Valid()
      requires ports.computed.Some? ==> OutcomeFor(ports.computed.value, key, hash)
      modifies this`confirmations, this`activeOperations, operations, audits
      ensures Valid() && AllForward(old(operations.rows), operations.rows) && activeOperations == old(activeOperations)
      ensures key in old(operations.rows) && old(operations.rows)[key].requestHash != hash ==> r.None?
      ensures r.Some? ==>
                && key in operations.rows && operations.rows[key].status.Completed?
                && operations.rows[key].requestHash == hash
                && var outcome := operations.rows[key].outcome.value;
                   r.value == ClosureResult(outcome.stop, outcome.audit)
      ensures key in old(operations.rows) && old(operations.rows)[key].requestHash == hash
              && old(operations.rows)[key].outcome.Some?
              ==> (r.Some? <==> old(operations.rows)[key].outcome.value.confirmation.None? || ports.confirms)
      ensures key !in old(operations.rows)
              || (old(operations.rows)[key].requestHash == hash && old(operations.rows)[key].outcome.None?)
              ==> && (r.Some? <==> key !in old(activeOperations) && Publishable(ports))
                  && (r.Some? ==> operations.rows[key].outcome == ports.computed)
      ensures forall other | other in old(operations.rows) && other != key ::
                other in operations.rows && operations.rows[other] == old(operations.rows)[other]
      ensures Unanswered(old(operations.rows), key, hash) ==>
                && key in operations.rows && operations.rows[key].requestHash == hash
                && if key in old(activeOperations) || ports.computed.None?
                      || ports.computed.value.bytes > MAX_OUTCOME_BYTES
                   then operations.rows[key] == Row(hash, Pending, None) && audits.closures == old(audits.closures)
                   else
                     var audit := ports.computed.value.audit;
                     && operations.rows[key].outcome == ports.computed
                     && operations.rows[key].status == (if r.Some? then Completed else HasOutcome)
                     && audits.closures == old(audits.closures)[audit.runId := audit]
      ensures Kept(r) == Handled(old(Kept(None)), key, hash, ports, key in old(activeOperations))
    {
      HandledFields(Kept(None), key, hash, ports, key in activeOperations);
      r := Resume(key, hash, ports);
    }

    /** Begin or find the operation, and go on from where it is. */
    method Resume(key: Key, hash: Hash, ports: Ports) returns (r: Option<ClosureResult>)
      requires Valid()
      requires ports.computed.Some? ==> OutcomeFor(ports.computed.value, key, hash)
      modifies this`confirmations, this`activeOperations, operations, audits
      ensures Valid() && AllForward(old(operations.rows), operations.rows) && activeOperations == old(activeOperations)
      ensures Kept(r) == Handled(old(Kept(None)), key, hash, ports, key in old(activeOperations))
    {
      var operation := operations.Begin(key, hash);
      if operation.None? {
        r := None;
      } else if operation.value.outcome.Some? {
        r := Publish(operation.value.outcome.value, key, hash, ports.confirms);
      } else if key in activeOperations {
        r := None;
      } else {
        r := Compute(key, hash, ports);
      }
    }
  }
}
