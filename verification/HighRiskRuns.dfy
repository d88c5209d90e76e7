/** Every interleaving of commits, previews, policy updates, crashes and restarts of the high-risk
    service, with a port that keeps its idempotency contract. */
module HighRiskRuns {
  import opened HighRiskGovernance
  import opened Wrappers

  /** The port: its receipts are durable; `effects` lists the operations in the order they took effect. */
  datatype Port = Port(receipts: map<OperationId, Receipt>, effects: seq<OperationId>)

  datatype Instance = Instance(policy: Policy, inFlight: set<PreviewId>)

  datatype Phase =
    | Replaying(previous: CommitRecord)
    | Confirming(stored: Preview)
    | Executing(stored: Preview)
    | Returned(result: OperationResult)
    | Threw

  datatype Call = Call(instance: nat, request: Request, phase: Phase)

  /** `sent` is everything that was ever sent to the port, `returned` every result a commit returned, and
      `lost` says that a memory store has gone with its process. */
  datatype World = World(kind: StoreKind, records: Records, port: Port, sent: set<Identity>,
                         instances: map<nat, Instance>,
                         calls: map<nat, Call>, returned: seq<OperationResult>, lost: bool)

  datatype Action =
    | StartInstance(i: nat, policy: Policy)
    | UpdatePolicy(i: nat, policy: Policy)
    | MakePreview(i: nat, command: Command, blast: BlastRadius, now: int, fault: Fault)
    | Commit(i: nat, call: nat, request: Request)
    | Permission(call: nat, granted: bool)
    | PortProcesses(identity: Identity, at: int)
    | Settles(call: nat, receipt: Option<Receipt>, fault: Fault)
    | Crash(i: nat)
    | LoseStore

  /** The contract: a new key takes effect and gets a receipt; a known key replays its receipt or conflicts. */
  function Process(port: Port, identity: Identity, at: int): Port {
    if identity.operationId in port.receipts then port
    else
      var receipt := Receipt(identity.operationId, identity.requestFingerprint, false, at);
      Port(port.receipts[identity.operationId := receipt], port.effects + [identity.operationId])
  }

  /** A receipt is only answered to the request it was made for. */
  predicate Honest(port: Port, identity: Identity, receipt: Receipt) {
    && identity.operationId in port.receipts
    && port.receipts[identity.operationId].requestFingerprint == identity.requestFingerprint
    && receipt == port.receipts[identity.operationId].(replayed := receipt.replayed)
  }

  predicate Running(w: World, c: nat) {
    c in w.calls && w.calls[c].instance in w.instances
  }

  predicate Enabled(w: World, a: Action) {
    match a
    case StartInstance(i, policy) =>
      i !in w.instances && ValidPolicy(policy) && (forall c | c in w.calls :: w.calls[c].instance != i)
    case UpdatePolicy(i, policy) =>
      i in w.instances && ValidPolicy(policy) && policy.revision > w.instances[i].policy.revision
    case MakePreview(i, command, blast, _, _) =>
      i in w.instances && command.wellFormed && ValidBlastRadius(blast, command.kind)
    case Commit(i, c, _) => i in w.instances && c !in w.calls
    case Permission(c, _) => Running(w, c) && (w.calls[c].phase.Replaying? || w.calls[c].phase.Confirming?)
    case PortProcesses(identity, _) => identity in w.sent
    case Settles(c, receipt, _) =>
      && Running(w, c) && w.calls[c].phase.Executing?
      && (receipt.Some? ==> Honest(w.port, IdentityOf(w.calls[c].phase.stored, w.calls[c].request), receipt.value))
    case Crash(i) => i in w.instances
    case LoseStore => w.kind.Memory? && w.instances == map[]
  }

  function CommitStep(w: World, i: nat, c: nat, r: Request): World
    requires i in w.instances
  {
    var phase := match Begin(w.records, w.instances[i].policy, r)
                 case Refused => Threw
                 case Replay(previous) => Replaying(previous)
                 case Execute(stored) => Confirming(stored);
    w.(calls := w.calls[c := Call(i, r, phase)])
  }

  function PermissionStep(w: World, c: nat, granted: bool): World
    requires Running(w, c) && (w.calls[c].phase.Replaying? || w.calls[c].phase.Confirming?)
  {
    var call := w.calls[c];
    var instance := w.instances[call.instance];
    if call.phase.Replaying? then
      var previous := call.phase.previous;
      if granted && previous.requestFingerprint == FingerprintOf(call.request)
      then w.(calls := w.calls[c := call.(phase := Returned(previous.result))],
              returned := w.returned + [previous.result])
      else w.(calls := w.calls[c := call.(phase := Threw)])
    else
      var stored := call.phase.stored;
      if !MayExecute(instance.inFlight, call.request, stored, granted)
      then w.(calls := w.calls[c := call.(phase := Threw)])
      else w.(calls := w.calls[c := call.(phase := Executing(stored))],
              sent := w.sent + {IdentityOf(stored, call.request)},
              instances := w.instances[call.instance := instance.(inFlight := instance.inFlight + {stored.previewId})])
  }

  function SettleStep(w: World, c: nat, receipt: Option<Receipt>, fault: Fault): World
    requires Running(w, c) && w.calls[c].phase.Executing?
  {
    var call := w.calls[c];
    var instance := w.instances[call.instance];
    var stored := call.phase.stored;
    var end := Finish(w.records, w.kind, instance.policy, stored, call.request, receipt, fault);
    w.(records := end.records,
       calls := w.calls[c := call.(phase := if end.result.Some? then Returned(end.result.value) else Threw)],
       returned := if end.result.Some? then w.returned + [end.result.value] else w.returned,
       instances := w.instances[call.instance := instance.(inFlight := instance.inFlight - {stored.previewId})])
  }

  function Step(w: World, a: Action): World {
    if !Enabled(w, a) then w
    else
      match a
      case StartInstance(i, policy) => w.(instances := w.instances[i := Instance(policy, {})])
      case UpdatePolicy(i, policy) => w.(instances := w.instances[i := w.instances[i].(policy := policy)])
      case MakePreview(i, command, blast, now, fault) =>
        var preview := PreviewOf(command, w.instances[i].policy, blast, now);
        w.(records := WritePreview(w.records, w.kind, preview, fault).records)
      case Commit(i, c, r) => CommitStep(w, i, c, r)
      case Permission(c, granted) => PermissionStep(w, c, granted)
      case PortProcesses(identity, at) => w.(port := Process(w.port, identity, at))
      case Settles(c, receipt, fault) => SettleStep(w, c, receipt, fault)
      case Crash(i) => w.(instances := w.instances - {i})
      case LoseStore => w.(records := Records(map[], map[]), lost := true)
  }

  function Run(w: World, schedule: seq<Action>): World
    decreases |schedule|
  {
    if schedule == [] then w else Run(Step(w, schedule[0]), schedule[1..])
  }

  function Empty(kind: StoreKind): World {
    World(kind, Records(map[], map[]), Port(map[], []), {}, map[], map[], [], false)
  }

  // --- the invariant -----------------------------------------------------

  /** Nothing is sent to the port that its actor has not confirmed for a preview that computes its own id. */
  ghost predicate Confirmed(f: RequestFingerprint, op: OperationId) {
    WellFormed(f.preview) && op == OperationOf(f.preview) && f.confirmation == Confirm(f.preview, f.actor)
  }

  ghost predicate GoodPort(port: Port, sent: set<Identity>) {
    && (forall op | op in port.receipts ::
          port.receipts[op].operationId == op && Confirmed(port.receipts[op].requestFingerprint, op))
    && (forall op :: op in port.effects <==> op in port.receipts)
    && (forall i, j | 0 <= i < j < |port.effects| :: port.effects[i] != port.effects[j])
    && (forall identity | identity in sent :: Confirmed(identity.requestFingerprint, identity.operationId))
  }

  /** Everything in a result but its policy revision is determined by the port's receipt. */
  ghost predicate Receipted(r: OperationResult, f: RequestFingerprint, port: Port) {
    && r.operationId in port.receipts
    && var receipt := port.receipts[r.operationId];
       && receipt.requestFingerprint == f && f.preview.previewId == r.previewId
       && r == OperationResult(OperationOf(f.preview), f.preview.previewId, f.preview.command.kind, f.actor,
                               r.policyRevision,
                               f.preview.blastRadius, receipt.committedAt)
  }

  ghost predicate GoodRecord(c: CommitRecord, kind: StoreKind, port: Port) {
    && c.result.previewId == c.previewId && Receipted(c.result, c.requestFingerprint, port)
    && (kind.File? ==> c.result.policyRevision == c.previewId.policyRevision)
  }

  ghost predicate GoodPreviews(previews: map<PreviewId, Preview>) {
    forall id | id in previews :: previews[id].previewId == id && WellFormed(previews[id])
  }

  ghost predicate GoodCommits(commits: map<PreviewId, CommitRecord>, kind: StoreKind, port: Port) {
    forall id | id in commits :: commits[id].previewId == id && GoodRecord(commits[id], kind, port)
  }

  /** What the phase of a call says about the request, the port and what was sent. */
  ghost predicate GoodPhase(call: Call, kind: StoreKind, port: Port, sent: set<Identity>) {
    match call.phase
    case Replaying(previous) => GoodRecord(previous, kind, port)
    case Confirming(stored) => WellFormed(stored) && stored == call.request.preview
    case Executing(stored) =>
      WellFormed(stored) && stored == call.request.preview && IdentityOf(stored, call.request) in sent
    case Returned(_) => true
    case Threw => true
  }

  ghost predicate GoodCalls(calls: map<nat, Call>, kind: StoreKind, port: Port, sent: set<Identity>) {
    forall c | c in calls :: GoodPhase(calls[c], kind, port, sent)
  }

  /** While the store is kept, a commit record that was read is still there. */
  ghost predicate Remembered(calls: map<nat, Call>, commits: map<PreviewId, CommitRecord>) {
    forall c | c in calls && calls[c].phase.Replaying? ::
      calls[c].phase.previous.previewId in commits
        && commits[calls[c].phase.previous.previewId] == calls[c].phase.previous
  }

  /** What a running instance executes is in its in-flight set. */
  ghost predicate Flying(calls: map<nat, Call>, instances: map<nat, Instance>) {
    forall c | c in calls && calls[c].phase.Executing? && calls[c].instance in instances ::
      calls[c].phase.stored.previewId in instances[calls[c].instance].inFlight
  }

  /** One instance has at most one execution outstanding for a preview. */
  ghost predicate OneOutstanding(calls: map<nat, Call>, instances: map<nat, Instance>) {
    forall c, d | c in calls && d in calls && c != d && calls[c].phase.Executing? && calls[d].phase.Executing?
                  && calls[c].instance == calls[d].instance && calls[c].instance in instances ::
      calls[c].phase.stored.previewId != calls[d].phase.stored.previewId
  }

  /** Each returned result has its receipt. */
  ghost predicate GoodReturn(r: OperationResult, kind: StoreKind, port: Port) {
    && r.operationId in port.receipts && Receipted(r, port.receipts[r.operationId].requestFingerprint, port)
    && (kind.File? ==> r.policyRevision == r.previewId.policyRevision)
  }

  ghost predicate GoodReturns(returned: seq<OperationResult>, kind: StoreKind, port: Port) {
    forall i | 0 <= i < |returned| :: GoodReturn(returned[i], kind, port)
  }

  /** While the store is kept, a returned result is the one in the commit record. */
  ghost predicate Kept(returned: seq<OperationResult>, commits: map<PreviewId, CommitRecord>) {
    forall i | 0 <= i < |returned| ::
      returned[i].previewId in commits && commits[returned[i].previewId].result == returned[i]
  }

  ghost predicate Inv(w: World) {
    && GoodPort(w.port, w.sent)
    && GoodPreviews(w.records.previews) && GoodCommits(w.records.commits, w.kind, w.port)
    && GoodCalls(w.calls, w.kind, w.port, w.sent)
    && Flying(w.calls, w.instances) && OneOutstanding(w.calls, w.instances)
    && GoodReturns(w.returned, w.kind, w.port)
    && (!w.lost ==> Remembered(w.calls, w.records.commits) && Kept(w.returned, w.records.commits))
    && (w.kind.File? ==> !w.lost)
  }

  // --- every step keeps it -----------------------------------------------

  lemma InstancesKeepInv(w: World, a: Action)
    requires Inv(w) && (a.StartInstance? || a.UpdatePolicy? || a.Crash? || a.LoseStore?)
    ensures Inv(Step(w, a))
  {
  }

  lemma WritesGoodPreviews(s: Records, kind: StoreKind, p: Preview, fault: Fault)
    requires GoodPreviews(s.previews) && WellFormed(p)
    ensures GoodPreviews(WritePreview(s, kind, p, fault).records.previews)
    ensures WritePreview(s, kind, p, fault).records.commits == s.commits
  {
  }

  lemma RecordsKeepInv(w: World, records: Records)
    requires Inv(w) && GoodPreviews(records.previews) && records.commits == w.records.commits
    ensures Inv(w.(records := records))
  {
  }

  lemma MakePreviewKeepsInv(w: World, a: Action)
    requires Inv(w) && a.MakePreview?
    ensures Inv(Step(w, a))
  {
    if Enabled(w, a) {
      var preview := PreviewOf(a.command, w.instances[a.i].policy, a.blast, a.now);
      WritesGoodPreviews(w.records, w.kind, preview, a.fault);
      RecordsKeepInv(w, WritePreview(w.records, w.kind, preview, a.fault).records);
    }
  }

  lemma CallsKeepInv(w: World, calls: map<nat, Call>, instances: map<nat, Instance>)
    requires Inv(w) && GoodCalls(calls, w.kind, w.port, w.sent) && Flying(calls, instances)
             && OneOutstanding(calls, instances)
    requires !w.lost ==> Remembered(calls, w.records.commits)
    ensures Inv(w.(calls := calls, instances := instances))
  {
  }

  /** A call that begins is neither executing nor ended. */
  predicate Begins(phase: Phase) {
    phase.Replaying? || phase.Confirming? || phase.Threw?
  }

  lemma StartedCalls(calls: map<nat, Call>, c: nat, call: Call, kind: StoreKind, port: Port, sent: set<Identity>)
    requires GoodCalls(calls, kind, port, sent) && GoodPhase(call, kind, port, sent)
    ensures GoodCalls(calls[c := call], kind, port, sent)
  {
  }

  lemma StartedFlying(calls: map<nat, Call>, c: nat, call: Call, instances: map<nat, Instance>)
    requires Flying(calls, instances) && OneOutstanding(calls, instances) && Begins(call.phase)
    ensures Flying(calls[c := call], instances) && OneOutstanding(calls[c := call], instances)
  {
  }

  lemma BeginIsGood(w: World, i: nat, c: nat, r: Request)
    requires Inv(w) && i in w.instances
    ensures var call := CommitStep(w, i, c, r).calls[c];
            && GoodPhase(call, w.kind, w.port, w.sent) && Begins(call.phase)
            && (call.phase.Replaying? ==>
                  && call.phase.previous.previewId in w.records.commits
                  && w.records.commits[call.phase.previous.previewId] == call.phase.previous)
  {
    assert r.preview.previewId in w.records.previews ==> WellFormed(w.records.previews[r.preview.previewId]);
  }

  lemma CommitKeepsInv(w: World, a: Action)
    requires Inv(w) && a.Commit?
    ensures Inv(Step(w, a))
  {
    if Enabled(w, a) {
      var next := CommitStep(w, a.i, a.call, a.request);
      BeginIsGood(w, a.i, a.call, a.request);
      StartedCalls(w.calls, a.call, next.calls[a.call], w.kind, w.port, w.sent);
      StartedFlying(w.calls, a.call, next.calls[a.call], w.instances);
      CallsKeepInv(w, next.calls, w.instances);
    }
  }

  lemma ProcessKeepsPort(port: Port, sent: set<Identity>, identity: Identity, at: int)
    requires GoodPort(port, sent) && identity in sent
    ensures GoodPort(Process(port, identity, at), sent)
  {
  }

  lemma ProcessKeepsReceipts(port: Port, identity: Identity, at: int)
    ensures forall r, f :: Receipted(r, f, port) ==> Receipted(r, f, Process(port, identity, at))
  {
  }

  lemma ProcessKeepsRecords(commits: map<PreviewId, CommitRecord>, kind: StoreKind, port: Port, identity: Identity,
                            at: int)
    requires GoodCommits(commits, kind, port)
    ensures GoodCommits(commits, kind, Process(port, identity, at))
  {
    ProcessKeepsReceipts(port, identity, at);
  }

  lemma ProcessKeepsCalls(calls: map<nat, Call>, kind: StoreKind, port: Port, sent: set<Identity>, identity: Identity,
                          at: int)
    requires GoodCalls(calls, kind, port, sent)
    ensures GoodCalls(calls, kind, Process(port, identity, at), sent)
  {
    ProcessKeepsReceipts(port, identity, at);
  }

  lemma ProcessKeepsReturns(returned: seq<OperationResult>, kind: StoreKind, port: Port, identity: Identity, at: int)
    requires GoodReturns(returned, kind, port)
    ensures GoodReturns(returned, kind, Process(port, identity, at))
  {
    ProcessKeepsReceipts(port, identity, at);
    forall i | 0 <= i < |returned| ensures GoodReturn(returned[i], kind, Process(port, identity, at)) {
      assert Receipted(returned[i], port.receipts[returned[i].operationId].requestFingerprint, port);
    }
  }

  lemma PortKeepsInv(w: World, a: Action)
    requires Inv(w) && a.PortProcesses?
    ensures Inv(Step(w, a))
  {
    if Enabled(w, a) {
      ProcessKeepsPort(w.port, w.sent, a.identity, a.at);
      ProcessKeepsRecords(w.records.commits, w.kind, w.port, a.identity, a.at);
      ProcessKeepsCalls(w.calls, w.kind, w.port, w.sent, a.identity, a.at);
      ProcessKeepsReturns(w.returned, w.kind, w.port, a.identity, a.at);
    }
  }

  function SetPhase(w: World, c: nat, phase: Phase): World
    requires c in w.calls
  {
    w.(calls := w.calls[c := w.calls[c].(phase := phase)])
  }

  function Ends(phase: Phase): bool {
    phase.Returned? || phase.Threw?
  }

  /** The calls after one of them has moved to another phase. */
  function WithPhase(calls: map<nat, Call>, c: nat, phase: Phase): map<nat, Call>
    requires c in calls
  {
    calls[c := calls[c].(phase := phase)]
  }

  lemma EndedCalls(calls: map<nat, Call>, c: nat, phase: Phase, kind: StoreKind, port: Port, sent: set<Identity>)
    requires GoodCalls(calls, kind, port, sent) && c in calls && Ends(phase)
    ensures GoodCalls(WithPhase(calls, c, phase), kind, port, sent)
  {
  }

  lemma EndedFlying(calls: map<nat, Call>, c: nat, phase: Phase, instances: map<nat, Instance>)
    requires Flying(calls, instances) && c in calls && Ends(phase)
    ensures Flying(WithPhase(calls, c, phase), instances)
  {
  }

  lemma EndedOutstanding(calls: map<nat, Call>, c: nat, phase: Phase, instances: map<nat, Instance>)
    requires OneOutstanding(calls, instances) && c in calls && Ends(phase)
    ensures OneOutstanding(WithPhase(calls, c, phase), instances)
  {
  }

  lemma EndedRemembered(calls: map<nat, Call>, c: nat, phase: Phase, commits: map<PreviewId, CommitRecord>)
    requires Remembered(calls, commits) && c in calls && Ends(phase)
    ensures Remembered(WithPhase(calls, c, phase), commits)
  {
  }

  lemma EndingKeepsInv(w: World, c: nat, phase: Phase)
    requires Inv(w) && c in w.calls && Ends(phase)
    ensures Inv(SetPhase(w, c, phase))
  {
    EndedCalls(w.calls, c, phase, w.kind, w.port, w.sent);
    EndedFlying(w.calls, c, phase, w.instances);
    EndedOutstanding(w.calls, c, phase, w.instances);
    if !w.lost {
      EndedRemembered(w.calls, c, phase, w.records.commits);
    }
    CallsKeepInv(w, WithPhase(w.calls, c, phase), w.instances);
  }

  lemma OneMoreReturn(returned: seq<OperationResult>, r: OperationResult, kind: StoreKind, port: Port)
    requires GoodReturns(returned, kind, port) && GoodReturn(r, kind, port)
    ensures GoodReturns(returned + [r], kind, port)
  {
  }

  lemma OneMoreKept(returned: seq<OperationResult>, r: OperationResult, commits: map<PreviewId, CommitRecord>)
    requires Kept(returned, commits) && r.previewId in commits && commits[r.previewId].result == r
    ensures Kept(returned + [r], commits)
  {
  }

  lemma ReturnsKeepInv(w: World, returned: seq<OperationResult>)
    requires Inv(w) && GoodReturns(returned, w.kind, w.port) && (!w.lost ==> Kept(returned, w.records.commits))
    ensures Inv(w.(returned := returned))
  {
  }

  lemma ReturningKeepsInv(w: World, r: OperationResult, f: RequestFingerprint)
    requires Inv(w) && Receipted(r, f, w.port) && (w.kind.File? ==> r.policyRevision == r.previewId.policyRevision)
    requires !w.lost ==> r.previewId in w.records.commits && w.records.commits[r.previewId].result == r
    ensures Inv(w.(returned := w.returned + [r]))
  {
    OneMoreReturn(w.returned, r, w.kind, w.port);
    if !w.lost {
      OneMoreKept(w.returned, r, w.records.commits);
    }
    ReturnsKeepInv(w, w.returned + [r]);
  }

  lemma SendingKeepsPort(port: Port, sent: set<Identity>, identity: Identity)
    requires GoodPort(port, sent) && Confirmed(identity.requestFingerprint, identity.operationId)
    ensures GoodPort(port, sent + {identity})
  {
  }

  lemma SendingKeepsCalls(calls: map<nat, Call>, c: nat, kind: StoreKind, port: Port, sent: set<Identity>)
    requires GoodCalls(calls, kind, port, sent) && c in calls && calls[c].phase.Confirming?
    ensures var stored := calls[c].phase.stored;
            GoodCalls(WithPhase(calls, c, Executing(stored)), kind, port, sent + {IdentityOf(stored, calls[c].request)})
  {
    assert GoodPhase(calls[c], kind, port, sent);
  }

  /** Nothing was in flight for the preview, so the new execution is the only one. */
  lemma SendingKeepsOutstanding(w: World, c: nat, granted: bool)
    requires Flying(w.calls, w.instances) && OneOutstanding(w.calls, w.instances)
    requires Running(w, c) && w.calls[c].phase.Confirming?
    requires MayExecute(w.instances[w.calls[c].instance].inFlight, w.calls[c].request, w.calls[c].phase.stored, granted)
    ensures var next := PermissionStep(w, c, granted);
            Flying(next.calls, next.instances) && OneOutstanding(next.calls, next.instances)
  {
  }

  lemma SendingKeepsRemembered(calls: map<nat, Call>, c: nat, stored: Preview, commits: map<PreviewId, CommitRecord>)
    requires Remembered(calls, commits) && c in calls
    ensures Remembered(WithPhase(calls, c, Executing(stored)), commits)
  {
  }

  /** Going out to the port: the confirmation was checked, and nothing was in flight for the preview. */
  lemma SendingKeepsInv(w: World, c: nat, granted: bool)
    requires Inv(w) && Running(w, c) && w.calls[c].phase.Confirming?
    requires MayExecute(w.instances[w.calls[c].instance].inFlight, w.calls[c].request, w.calls[c].phase.stored, granted)
    ensures Inv(PermissionStep(w, c, granted))
  {
    var call := w.calls[c];
    assert GoodPhase(call, w.kind, w.port, w.sent);
    SendingKeepsPort(w.port, w.sent, IdentityOf(call.phase.stored, call.request));
    SendingKeepsCalls(w.calls, c, w.kind, w.port, w.sent);
    SendingKeepsOutstanding(w, c, granted);
    if !w.lost {
      SendingKeepsRemembered(w.calls, c, call.phase.stored, w.records.commits);
    }
  }

  lemma PermissionKeepsInv(w: World, a: Action)
    requires Inv(w) && a.Permission?
    ensures Inv(Step(w, a))
  {
    if Enabled(w, a) {
      var call := w.calls[a.call];
      assert GoodPhase(call, w.kind, w.port, w.sent);
      if call.phase.Replaying? {
        var previous := call.phase.previous;
        EndingKeepsInv(w, a.call, Threw);
        EndingKeepsInv(w, a.call, Returned(previous.result));
        ReturningKeepsInv(SetPhase(w, a.call, Returned(previous.result)), previous.result, previous.requestFingerprint);
      } else if MayExecute(w.instances[call.instance].inFlight, call.request, call.phase.stored, a.granted) {
        SendingKeepsInv(w, a.call, a.granted);
      } else {
        EndingKeepsInv(w, a.call, Threw);
      }
    }
  }

  /** The receipt of an honest port determines the commit record, up to the policy revision. */
  lemma CommitIsGood(w: World, c: nat, receipt: Receipt)
    requires Inv(w) && Running(w, c) && w.calls[c].phase.Executing?
    requires Honest(w.port, IdentityOf(w.calls[c].phase.stored, w.calls[c].request), receipt)
    ensures var call := w.calls[c];
            var r := ResultOf(call.phase.stored, call.request, receipt, w.instances[call.instance].policy);
            Receipted(r, FingerprintOf(call.request), w.port) && r.previewId == call.phase.stored.previewId
  {
    assert GoodPhase(w.calls[c], w.kind, w.port, w.sent);
  }

  /** A commit record is added at most once and never changes. */
  lemma WritesOnce(s: Records, kind: StoreKind, c: CommitRecord, fault: Fault)
    ensures var written := WriteCommit(s, kind, c, fault);
            && (written.records == s
                || (c.previewId !in s.commits && written.records == s.(commits := s.commits[c.previewId := c])))
            && (written.ok ==> c.previewId in written.records.commits && written.records.commits[c.previewId] == c)
            && (kind.File? && (written.ok || written.records != s) ==>
                  c.previewId in s.previews && c.result.policyRevision == s.previews[c.previewId].policyRevision)
  {
  }

  lemma AddingKeepsInv(w: World, c: CommitRecord)
    requires Inv(w) && GoodRecord(c, w.kind, w.port) && c.previewId !in w.records.commits
    ensures Inv(w.(records := w.records.(commits := w.records.commits[c.previewId := c])))
  {
  }

  lemma WritingKeepsInv(w: World, c: CommitRecord, fault: Fault)
    requires Inv(w) && c.result.previewId == c.previewId && Receipted(c.result, c.requestFingerprint, w.port)
    ensures Inv(w.(records := WriteCommit(w.records, w.kind, c, fault).records))
    ensures WriteCommit(w.records, w.kind, c, fault).ok ==>
              && (w.kind.File? ==> c.result.policyRevision == c.previewId.policyRevision)
              && var records := WriteCommit(w.records, w.kind, c, fault).records;
                 c.previewId in records.commits && records.commits[c.previewId] == c
  {
    WritesOnce(w.records, w.kind, c, fault);
    assert c.previewId in w.records.previews ==> WellFormed(w.records.previews[c.previewId]);
    if WriteCommit(w.records, w.kind, c, fault).records != w.records {
      AddingKeepsInv(w, c);
    }
  }

  /** An execution ends, and its preview leaves the in-flight set of its instance. */
  function Left(w: World, c: nat, phase: Phase): World
    requires Running(w, c) && w.calls[c].phase.Executing?
  {
    var i, id := w.calls[c].instance, w.calls[c].phase.stored.previewId;
    var instance := w.instances[i].(inFlight := w.instances[i].inFlight - {id});
    w.(calls := WithPhase(w.calls, c, phase), instances := w.instances[i := instance])
  }

  /** What else the instance executes is of another preview, and so stays in the set. */
  lemma LeftFlying(w: World, c: nat, phase: Phase)
    requires Flying(w.calls, w.instances) && OneOutstanding(w.calls, w.instances)
    requires Running(w, c) && w.calls[c].phase.Executing? && Ends(phase)
    ensures Flying(Left(w, c, phase).calls, Left(w, c, phase).instances)
  {
  }

  lemma LeftOutstanding(w: World, c: nat, phase: Phase)
    requires OneOutstanding(w.calls, w.instances) && Running(w, c) && w.calls[c].phase.Executing? && Ends(phase)
    ensures OneOutstanding(Left(w, c, phase).calls, Left(w, c, phase).instances)
  {
  }

  lemma LeavingKeepsInv(w: World, c: nat, phase: Phase)
    requires Inv(w) && Running(w, c) && w.calls[c].phase.Executing? && Ends(phase)
    ensures Inv(Left(w, c, phase))
  {
    EndedCalls(w.calls, c, phase, w.kind, w.port, w.sent);
    LeftFlying(w, c, phase);
    LeftOutstanding(w, c, phase);
    if !w.lost {
      EndedRemembered(w.calls, c, phase, w.records.commits);
    }
    CallsKeepInv(w, Left(w, c, phase).calls, Left(w, c, phase).instances);
  }

  /** The commit record that an execution settles with. */
  function RecordOf(w: World, c: nat, receipt: Receipt): CommitRecord
    requires Running(w, c) && w.calls[c].phase.Executing?
  {
    var call := w.calls[c];
    CommitRecord(call.phase.stored.previewId,
                 ResultOf(call.phase.stored, call.request, receipt, w.instances[call.instance].policy),
                 FingerprintOf(call.request))
  }

  /** Settling with a receipt: the record is written, the call ends, and its result is returned. */
  lemma SettlingIsLeaving(w: World, c: nat, receipt: Receipt, fault: Fault)
    requires Running(w, c) && w.calls[c].phase.Executing?
    requires Matches(receipt, IdentityOf(w.calls[c].phase.stored, w.calls[c].request))
    ensures var record := RecordOf(w, c, receipt);
            var written := WriteCommit(w.records, w.kind, record, fault);
            var stored := w.(records := written.records);
            SettleStep(w, c, Some(receipt), fault)
            == if written.ok then Left(stored, c, Returned(record.result)).(returned := w.returned + [record.result])
               else Left(stored, c, Threw)
  {
  }

  /** A receipt is turned into a record, and the record into a result if it could be written. */
  lemma CommittingKeepsInv(w: World, c: nat, receipt: Receipt, fault: Fault)
    requires Inv(w) && Running(w, c) && w.calls[c].phase.Executing?
    requires Honest(w.port, IdentityOf(w.calls[c].phase.stored, w.calls[c].request), receipt)
    ensures Inv(SettleStep(w, c, Some(receipt), fault))
  {
    CommitIsGood(w, c, receipt);
    var record := RecordOf(w, c, receipt);
    WritingKeepsInv(w, record, fault);
    ReceiptMatches(w.port, w.sent, IdentityOf(w.calls[c].phase.stored, w.calls[c].request), receipt);
    SettlingIsLeaving(w, c, receipt, fault);
    var written := WriteCommit(w.records, w.kind, record, fault);
    var stored := w.(records := written.records);
    if written.ok {
      LeavingKeepsInv(stored, c, Returned(record.result));
      ReturningKeepsInv(Left(stored, c, Returned(record.result)), record.result, record.requestFingerprint);
    } else {
      LeavingKeepsInv(stored, c, Threw);
    }
  }

  lemma SettlesKeepsInv(w: World, a: Action)
    requires Inv(w) && a.Settles?
    ensures Inv(Step(w, a))
  {
    if Enabled(w, a) {
      if a.receipt.None? {
        LeavingKeepsInv(w, a.call, Threw);
      } else {
        CommittingKeepsInv(w, a.call, a.receipt.value, a.fault);
      }
    }
  }

  lemma StepKeepsInv(w: World, a: Action)
    requires Inv(w)
    ensures Inv(Step(w, a))
  {
    match a
    case StartInstance(_, _) => InstancesKeepInv(w, a);
    case UpdatePolicy(_, _) => InstancesKeepInv(w, a);
    case MakePreview(_, _, _, _, _) => MakePreviewKeepsInv(w, a);
    case Commit(_, _, _) => CommitKeepsInv(w, a);
    case Permission(_, _) => PermissionKeepsInv(w, a);
    case PortProcesses(_, _) => PortKeepsInv(w, a);
    case Settles(_, _, _) => SettlesKeepsInv(w, a);
    case Crash(_) => InstancesKeepInv(w, a);
    case LoseStore => InstancesKeepInv(w, a);
  }

  lemma StepKeepsKind(w: World, a: Action)
    ensures Step(w, a).kind == w.kind
  {
  }

  lemma {:induction false} RunKeepsKind(w: World, schedule: seq<Action>)
    ensures Run(w, schedule).kind == w.kind
    decreases |schedule|
  {
    if schedule != [] {
      StepKeepsKind(w, schedule[0]);
      RunKeepsKind(Step(w, schedule[0]), schedule[1..]);
    }
  }

  lemma {:induction false} RunKeepsInv(w: World, schedule: seq<Action>)
    requires Inv(w)
    ensures Inv(Run(w, schedule))
    decreases |schedule|
  {
    if schedule != [] {
      var next := Step(w, schedule[0]);
      StepKeepsInv(w, schedule[0]);
      RunKeepsInv(next, schedule[1..]);
    }
  }

  // --- what every run guarantees -----------------------------------------

  /** A preview takes effect at most once, and only for the actor who confirmed it. */
  lemma EffectsAtMostOnce(kind: StoreKind, schedule: seq<Action>)
    ensures var port := Run(Empty(kind), schedule).port;
            && (forall i, j | 0 <= i < j < |port.effects| :: port.effects[i].previewId != port.effects[j].previewId)
            && (forall op | op in port.effects ::
                  op in port.receipts && Confirmed(port.receipts[op].requestFingerprint, op))
  {
    RunKeepsInv(Empty(kind), schedule);
    var port := Run(Empty(kind), schedule).port;
    forall i, j | 0 <= i < j < |port.effects| ensures port.effects[i].previewId != port.effects[j].previewId {
      assert port.effects[i] in port.receipts && port.effects[j] in port.receipts;
      OperationIsOfItsPreview(port.receipts[port.effects[i]].requestFingerprint, port.effects[i]);
      OperationIsOfItsPreview(port.receipts[port.effects[j]].requestFingerprint, port.effects[j]);
    }
  }

  lemma OperationIsOfItsPreview(f: RequestFingerprint, op: OperationId)
    requires Confirmed(f, op)
    ensures op == OperationId(op.previewId, op.previewId.command, op.previewId.policyRevision)
  {
  }

  lemma OneExecutionPerInstance(kind: StoreKind, schedule: seq<Action>, c: nat, d: nat)
    requires var w := Run(Empty(kind), schedule);
             Running(w, c) && Running(w, d) && c != d && w.calls[c].phase.Executing? && w.calls[d].phase.Executing?
    ensures var w := Run(Empty(kind), schedule);
            w.calls[c].instance != w.calls[d].instance
              || w.calls[c].phase.stored.previewId != w.calls[d].phase.stored.previewId
  {
    RunKeepsInv(Empty(kind), schedule);
  }

  /** All successful commits of a preview return the same result. When a memory store was lost in
      between, they may differ (`LostStoreForgetsRevision`), but only in the policy revision. */
  lemma CommitsAgree(kind: StoreKind, schedule: seq<Action>, i: nat, j: nat)
    requires var w := Run(Empty(kind), schedule);
             i < |w.returned| && j < |w.returned| && w.returned[i].previewId == w.returned[j].previewId
    ensures var w := Run(Empty(kind), schedule);
            && w.returned[i] == w.returned[j].(policyRevision := w.returned[i].policyRevision)
            && (kind.File? || !w.lost ==> w.returned[i] == w.returned[j])
            && (kind.File? ==> w.returned[i].policyRevision == w.returned[i].previewId.policyRevision)
  {
    RunKeepsInv(Empty(kind), schedule);
    RunKeepsKind(Empty(kind), schedule);
    var w := Run(Empty(kind), schedule);
    var r, s := w.returned[i], w.returned[j];
    OperationIsOfItsPreview(w.port.receipts[r.operationId].requestFingerprint, r.operationId);
    OperationIsOfItsPreview(w.port.receipts[s.operationId].requestFingerprint, s.operationId);
  }

  lemma ReceiptMatches(port: Port, sent: set<Identity>, identity: Identity, receipt: Receipt)
    requires GoodPort(port, sent) && Honest(port, identity, receipt)
    ensures Matches(receipt, identity)
  {
  }

  /** What a settling execution leaves: the record written, if it could be, and how the call ended. */
  lemma SettlesByWriting(w: World, c: nat, receipt: Receipt, fault: Fault)
    requires Running(w, c) && w.calls[c].phase.Executing?
    requires Honest(w.port, IdentityOf(w.calls[c].phase.stored, w.calls[c].request), receipt)
    requires Matches(receipt, IdentityOf(w.calls[c].phase.stored, w.calls[c].request))
    ensures var after := Step(w, Settles(c, Some(receipt), fault));
            var record := RecordOf(w, c, receipt);
            var written := WriteCommit(w.records, w.kind, record, fault);
            && c in after.calls && after.records == written.records && after.port == w.port
            && after.calls[c].phase == if written.ok then Returned(record.result) else Threw
  {
    SettlingIsLeaving(w, c, receipt, fault);
  }

  /** Whatever is recorded for the preview already is the same record, up to the policy revision. */
  lemma RecordedBefore(w: World, c: nat, receipt: Receipt)
    requires Inv(w) && Running(w, c) && w.calls[c].phase.Executing?
    requires Honest(w.port, IdentityOf(w.calls[c].phase.stored, w.calls[c].request), receipt)
    ensures var record := RecordOf(w, c, receipt);
            record.previewId in w.records.commits ==>
              && (w.records.commits[record.previewId] == record <==>
                    w.records.commits[record.previewId].result.policyRevision == record.result.policyRevision)
              && (w.kind.File? ==>
                    w.records.commits[record.previewId].result.policyRevision == record.previewId.policyRevision)
  {
    assert GoodPhase(w.calls[c], w.kind, w.port, w.sent);
    var record := RecordOf(w, c, receipt);
    if record.previewId in w.records.commits {
      CommitIsGood(w, c, receipt);
      var before := w.records.commits[record.previewId];
      assert GoodRecord(before, w.kind, w.port);
      OperationIsOfItsPreview(w.port.receipts[before.result.operationId].requestFingerprint, before.result.operationId);
      OperationIsOfItsPreview(w.port.receipts[record.result.operationId].requestFingerprint, record.result.operationId);
    }
  }

  /** The file store takes a record exactly with its preview and the preview's revision, if it has the
      record already or there is room and nothing fails. */
  lemma FileWritesExactly(w: World, c: nat, receipt: Receipt, fault: Fault)
    requires Inv(w) && w.kind.File? && Running(w, c) && w.calls[c].phase.Executing?
    requires Honest(w.port, IdentityOf(w.calls[c].phase.stored, w.calls[c].request), receipt)
    ensures var record := RecordOf(w, c, receipt);
            var written := WriteCommit(w.records, w.kind, record, fault);
            && (written.ok <==>
                  && record.previewId in w.records.previews
                  && record.result.policyRevision == record.previewId.policyRevision
                  && (|| record.previewId in w.records.commits
                      || (|w.records.commits| < MAX_RECORDS && fault.NoFault?)))
            && (!written.ok
                && (!fault.FailsAfter? || record.result.policyRevision != record.previewId.policyRevision) ==>
                  written.records == w.records)
  {
    RecordedBefore(w, c, receipt);
    var record := RecordOf(w, c, receipt);
    if record.previewId in w.records.previews {
      StoredByItsId(w, c);
    }
  }

  lemma StoredByItsId(w: World, c: nat)
    requires Inv(w) && Running(w, c) && w.calls[c].phase.Executing?
    requires w.calls[c].phase.stored.previewId in w.records.previews
    ensures var stored := w.calls[c].phase.stored;
            var preview := w.records.previews[stored.previewId];
            && preview.policyRevision == stored.previewId.policyRevision == stored.policyRevision
            && preview.command == stored.command
  {
    var stored := w.calls[c].phase.stored;
    assert GoodPhase(w.calls[c], w.kind, w.port, w.sent);
    assert WellFormed(w.records.previews[stored.previewId]);
  }

  /** With the file store, an execution that the port has carried out ends in a commit exactly if the
      policy has the preview's revision when the execution settles, the preview is stored, and either the
      commit is stored already or there is room for it and nothing fails. The effect stands in any case. */
  lemma FileCommitExactly(w: World, c: nat, receipt: Receipt, fault: Fault)
    requires Inv(w) && w.kind.File? && Running(w, c) && w.calls[c].phase.Executing?
    requires Honest(w.port, IdentityOf(w.calls[c].phase.stored, w.calls[c].request), receipt)
    ensures var after := Step(w, Settles(c, Some(receipt), fault));
            var stored := w.calls[c].phase.stored;
            var revision := w.instances[w.calls[c].instance].policy.revision;
            && c in after.calls
            && (after.calls[c].phase.Returned? <==>
                  && stored.previewId in w.records.previews && revision == stored.policyRevision
                  && (|| stored.previewId in w.records.commits
                      || (|w.records.commits| < MAX_RECORDS && fault.NoFault?)))
            && (after.calls[c].phase.Threw? && (!fault.FailsAfter? || revision != stored.policyRevision) ==>
                  after.records == w.records)
            && OperationOf(stored) in after.port.effects
  {
    assert GoodPhase(w.calls[c], w.kind, w.port, w.sent);
    ReceiptMatches(w.port, w.sent, IdentityOf(w.calls[c].phase.stored, w.calls[c].request), receipt);
    SettlesByWriting(w, c, receipt, fault);
    FileWritesExactly(w, c, receipt, fault);
    assert GoodPort(w.port, w.sent);
  }

  /** The memory store keeps the result with whatever revision the policy has when the execution settles;
      only another revision that it holds already makes the commit fail. */
  lemma MemoryCommitExactly(w: World, c: nat, receipt: Receipt, fault: Fault)
    requires Inv(w) && w.kind.Memory? && Running(w, c) && w.calls[c].phase.Executing?
    requires Honest(w.port, IdentityOf(w.calls[c].phase.stored, w.calls[c].request), receipt)
    ensures var after := Step(w, Settles(c, Some(receipt), fault));
            var id, revision := w.calls[c].phase.stored.previewId, w.instances[w.calls[c].instance].policy.revision;
            && c in after.calls
            && (after.calls[c].phase.Returned? <==>
                  id !in w.records.commits || w.records.commits[id].result.policyRevision == revision)
            && (after.calls[c].phase.Returned? ==> after.calls[c].phase.result.policyRevision == revision)
  {
    ReceiptMatches(w.port, w.sent, IdentityOf(w.calls[c].phase.stored, w.calls[c].request), receipt);
    SettlesByWriting(w, c, receipt, fault);
    RecordedBefore(w, c, receipt);
  }

  // --- what a lost memory store costs -------------------------------------

  /** One life of a memory store: an instance starts, previews and commits a command, its policy may change
      before the execution settles, and it crashes and takes the store with it. */
  datatype Life = Life(instance: nat, call: nat, policy: Policy, later: Policy, command: Command,
                       blast: BlastRadius, now: int, actor: string)

  predicate Possible(l: Life) {
    && ValidPolicy(l.policy) && l.policy.activeStageEnabled && l.command.kind in l.policy.enabledOperations
    && ValidPolicy(l.later) && (l.later == l.policy || l.later.revision > l.policy.revision)
    && l.command.wellFormed && ValidBlastRadius(l.blast, l.command.kind)
  }

  function PreviewIn(l: Life): Preview {
    PreviewOf(l.command, l.policy, l.blast, l.now)
  }

  function RequestIn(l: Life): Request {
    var preview := PreviewIn(l);
    Request(preview, l.policy.revision, l.actor, Confirm(preview, l.actor), l.now, true)
  }

  function IdentityIn(l: Life): Identity {
    IdentityOf(PreviewIn(l), RequestIn(l))
  }

  function ReceiptIn(l: Life): Receipt {
    Receipt(IdentityIn(l).operationId, IdentityIn(l).requestFingerprint, false, l.now)
  }

  function Sending(l: Life): seq<Action> {
    [StartInstance(l.instance, l.policy), MakePreview(l.instance, l.command, l.blast, l.now, NoFault),
     Commit(l.instance, l.call, RequestIn(l)), Permission(l.call, true)]
  }

  function Settling(l: Life): seq<Action> {
    [PortProcesses(IdentityIn(l), l.now), UpdatePolicy(l.instance, l.later),
     Settles(l.call, Some(ReceiptIn(l)), NoFault), Crash(l.instance), LoseStore]
  }

  /** No instance and no record, and the port knows of the operation at most what this life asks of it. */
  predicate Fresh(w: World, l: Life) {
    && w.kind.Memory? && w.records == Records(map[], map[]) && w.instances == map[]
    && l.call !in w.calls && (forall c | c in w.calls :: w.calls[c].instance != l.instance)
    && (IdentityIn(l).operationId in w.port.receipts ==> w.port.receipts[IdentityIn(l).operationId] == ReceiptIn(l))
  }

  lemma {:induction false} RunJoins(w: World, first: seq<Action>, second: seq<Action>)
    ensures Run(w, first + second) == Run(Run(w, first), second)
    decreases |first|
  {
    if first == [] {
      assert first + second == second;
    } else {
      RunJoins(Step(w, first[0]), first[1..], second);
      assert (first + second)[0] == first[0] && (first + second)[1..] == first[1..] + second;
    }
  }

  lemma RunCons(w: World, a: Action, rest: seq<Action>)
    ensures Run(w, [a] + rest) == Run(Step(w, a), rest)
  {
    assert ([a] + rest)[1..] == rest;
  }

  lemma RunFour(w: World, a: Action, b: Action, c: Action, d: Action)
    ensures Run(w, [a, b, c, d]) == Step(Step(Step(Step(w, a), b), c), d)
  {
    RunCons(w, a, [b, c, d]);
    RunCons(Step(w, a), b, [c, d]);
    RunCons(Step(Step(w, a), b), c, [d]);
    RunCons(Step(Step(Step(w, a), b), c), d, []);
    assert [a] + [b, c, d] == [a, b, c, d] && [b] + [c, d] == [b, c, d] && [c] + [d] == [c, d] && [d] + [] == [d];
  }

  /** What a life leaves in the world when its execution has gone out. */
  function Sent(w: World, l: Life): World {
    var preview := PreviewIn(l);
    w.(records := Records(map[preview.previewId := preview], map[]),
       instances := map[l.instance := Instance(l.policy, {preview.previewId})],
       calls := w.calls[l.call := Call(l.instance, RequestIn(l), Executing(preview))],
       sent := w.sent + {IdentityIn(l)})
  }

  lemma SendingSends(w: World, l: Life)
    requires Possible(l) && Fresh(w, l)
    ensures Run(w, Sending(l)) == Sent(w, l)
  {
    var a := Sending(l);
    RunFour(w, a[0], a[1], a[2], a[3]);
    assert a == [a[0], a[1], a[2], a[3]];
    var preview := PreviewIn(l);
    var started := w.(instances := map[l.instance := Instance(l.policy, {})]);
    assert Step(w, a[0]) == started;
    var previewed := started.(records := Records(map[preview.previewId := preview], map[]));
    assert Step(started, a[1]) == previewed;
    CommitConfirms(previewed, l);
    var confirming := previewed.(calls := w.calls[l.call := Call(l.instance, RequestIn(l), Confirming(preview))]);
    PermissionSends(confirming, l);
    assert confirming.calls[l.call := Call(l.instance, RequestIn(l), Executing(preview))]
        == Sent(w, l).calls;
  }

  lemma CommitConfirms(w: World, l: Life)
    requires Possible(l) && w.records == Records(map[PreviewIn(l).previewId := PreviewIn(l)], map[])
    requires w.instances == map[l.instance := Instance(l.policy, {})] && l.call !in w.calls
    ensures Step(w, Commit(l.instance, l.call, RequestIn(l)))
         == w.(calls := w.calls[l.call := Call(l.instance, RequestIn(l), Confirming(PreviewIn(l)))])
  {
    assert Begin(w.records, l.policy, RequestIn(l)) == Execute(PreviewIn(l));
  }

  lemma PermissionSends(w: World, l: Life)
    requires w.instances == map[l.instance := Instance(l.policy, {})]
    requires l.call in w.calls && w.calls[l.call] == Call(l.instance, RequestIn(l), Confirming(PreviewIn(l)))
    ensures var preview := PreviewIn(l);
            Step(w, Permission(l.call, true))
            == w.(calls := w.calls[l.call := Call(l.instance, RequestIn(l), Executing(preview))],
                  sent := w.sent + {IdentityIn(l)},
                  instances := map[l.instance := Instance(l.policy, {preview.previewId})])
  {
    assert {} + {PreviewIn(l).previewId} == {PreviewIn(l).previewId};
  }

  function ResultIn(l: Life): OperationResult {
    ResultOf(PreviewIn(l), RequestIn(l), ReceiptIn(l), l.later)
  }

  /** What a life leaves when it is over: a result, and a port that keeps its receipt. */
  function Over(w: World, l: Life): World {
    var sent := Sent(w, l);
    sent.(records := Records(map[], map[]), instances := map[], lost := true,
          port := Process(w.port, IdentityIn(l), l.now),
          calls := sent.calls[l.call := sent.calls[l.call].(phase := Returned(ResultIn(l)))],
          returned := w.returned + [ResultIn(l)])
  }

  /** The execution is carried out, and the policy has changed before it settles. */
  function Moved(w: World, l: Life): World {
    w.(port := Process(w.port, IdentityIn(l), l.now),
       instances := map[l.instance := Instance(l.later, {PreviewIn(l).previewId})])
  }

  lemma PolicyMoves(w: World, l: Life)
    requires Possible(l) && w.instances == map[l.instance := Instance(l.policy, {PreviewIn(l).previewId})]
    requires IdentityIn(l) in w.sent
    ensures Step(Step(w, PortProcesses(IdentityIn(l), l.now)), UpdatePolicy(l.instance, l.later)) == Moved(w, l)
  {
  }

  /** The result carries the revision of the changed policy. */
  lemma SettlesLater(w: World, l: Life)
    requires w.kind.Memory? && w.records.commits == map[]
    requires w.instances == map[l.instance := Instance(l.later, {PreviewIn(l).previewId})]
    requires l.call in w.calls && w.calls[l.call] == Call(l.instance, RequestIn(l), Executing(PreviewIn(l)))
    requires IdentityIn(l).operationId in w.port.receipts && w.port.receipts[IdentityIn(l).operationId] == ReceiptIn(l)
    ensures var after := Step(w, Settles(l.call, Some(ReceiptIn(l)), NoFault));
            && after == w.(records := after.records,
                           instances := map[l.instance := Instance(l.later, {})],
                           calls := w.calls[l.call := w.calls[l.call].(phase := Returned(ResultIn(l)))],
                           returned := w.returned + [ResultIn(l)])
  {
    assert {PreviewIn(l).previewId} - {PreviewIn(l).previewId} == {};
  }

  lemma StoreIsLost(w: World, l: Life)
    requires w.kind.Memory? && w.instances == map[l.instance := Instance(l.later, {})]
    ensures Step(Step(w, Crash(l.instance)), LoseStore)
         == w.(records := Records(map[], map[]), instances := map[], lost := true)
  {
    assert w.instances - {l.instance} == map[];
  }

  lemma RunFive(w: World, a: Action, b: Action, c: Action, d: Action, e: Action)
    ensures Run(w, [a, b, c, d, e]) == Step(Step(Step(Step(Step(w, a), b), c), d), e)
  {
    RunCons(w, a, [b, c, d, e]);
    RunFour(Step(w, a), b, c, d, e);
    assert [a] + [b, c, d, e] == [a, b, c, d, e];
  }

  lemma SettlingEnds(w: World, l: Life)
    requires Possible(l) && Fresh(w, l)
    ensures Run(Sent(w, l), Settling(l)) == Over(w, l)
  {
    var sent, a := Sent(w, l), Settling(l);
    var moved := Moved(sent, l);
    PolicyMoves(sent, l);
    SettlesLater(moved, l);
    StoreIsLost(Step(moved, a[2]), l);
    RunFive(sent, a[0], a[1], a[2], a[3], a[4]);
    assert a == [a[0], a[1], a[2], a[3], a[4]];
  }

  lemma LifeIsOver(w: World, l: Life)
    requires Possible(l) && Fresh(w, l)
    ensures Run(w, Sending(l) + Settling(l)) == Over(w, l)
  {
    SendingSends(w, l);
    SettlingEnds(w, l);
    RunJoins(w, Sending(l), Settling(l));
  }

  /** A lost memory store really costs the agreement: the same preview, committed in two lives of the
      store, returns whatever two revisions the policy had when its execution settled. */
  lemma LostStoreForgetsRevision(l: Life, m: Life)
    requires Possible(l) && Possible(m) && m.instance != l.instance && m.call != l.call
    requires m == l.(instance := m.instance, call := m.call, later := m.later)
    ensures var end := Run(Empty(Memory), (Sending(l) + Settling(l)) + (Sending(m) + Settling(m)));
            && |end.returned| == 2 && end.returned[0].previewId == end.returned[1].previewId
            && end.returned[0].policyRevision == l.later.revision
            && end.returned[1].policyRevision == m.later.revision
            && |end.port.effects| == 1
  {
    LifeIsOver(Empty(Memory), l);
    LifeIsOver(Over(Empty(Memory), l), m);
    RunJoins(Empty(Memory), Sending(l) + Settling(l), Sending(m) + Settling(m));
  }

  /** The policy of an instance only rises. */
  lemma {:induction false} PolicyOnlyRises(w: World, schedule: seq<Action>, i: nat)
    requires i in w.instances && Crash(i) !in schedule
    ensures var end := Run(w, schedule);
            i in end.instances && end.instances[i].policy.revision >= w.instances[i].policy.revision
    decreases |schedule|
  {
    if schedule != [] {
      assert schedule[0] != Crash(i);
      StepRaisesPolicy(w, schedule[0], i);
      PolicyOnlyRises(Step(w, schedule[0]), schedule[1..], i);
    }
  }

  lemma StepRaisesPolicy(w: World, a: Action, i: nat)
    requires i in w.instances && a != Crash(i)
    ensures i in Step(w, a).instances && Step(w, a).instances[i].policy.revision >= w.instances[i].policy.revision
  {
  }

  /** With the file store, an instance whose policy has moved on from a preview never commits it any more:
      at no later moment does an execution of it settle in a commit or write a record. */
  lemma MovedOnNeverCommits(w: World, schedule: seq<Action>, i: nat, c: nat, receipt: Receipt, fault: Fault)
    requires Inv(w) && w.kind.File? && i in w.instances && Crash(i) !in schedule
    requires var end := Run(w, schedule);
             && Running(end, c) && end.calls[c].instance == i && end.calls[c].phase.Executing?
             && end.calls[c].phase.stored.policyRevision < w.instances[i].policy.revision
             && Honest(end.port, IdentityOf(end.calls[c].phase.stored, end.calls[c].request), receipt)
    ensures var end := Run(w, schedule);
            var after := Step(end, Settles(c, Some(receipt), fault));
            c in after.calls && after.calls[c].phase.Threw? && after.records == end.records
  {
    RunKeepsInv(w, schedule);
    RunKeepsKind(w, schedule);
    PolicyOnlyRises(w, schedule, i);
    var end := Run(w, schedule);
    FileCommitExactly(end, c, receipt, fault);
    assert GoodPhase(end.calls[c], end.kind, end.port, end.sent);
    ReceiptMatches(end.port, end.sent, IdentityOf(end.calls[c].phase.stored, end.calls[c].request), receipt);
    SettlesByWriting(end, c, receipt, fault);
  }

  /** And it refuses a new commit of the preview unless there is a record to replay. */
  lemma MovedOnNeverExecutes(w: World, schedule: seq<Action>, i: nat, r: Request)
    requires i in w.instances && Crash(i) !in schedule && r.preview.policyRevision < w.instances[i].policy.revision
    ensures var end := Run(w, schedule);
            i in end.instances && !Begin(end.records, end.instances[i].policy, r).Execute?
  {
    PolicyOnlyRises(w, schedule, i);
  }
}
