/** What a high-risk commit was allowed by. A ghost record keeps the policy and the store of the moment at
    which each call began, and the calls that were granted permission; over every interleaving, nothing
    reaches the port, takes effect or is returned without them. */
module HighRiskAuthority {
  import opened HighRiskGovernance
  import opened HighRiskRuns
  import opened Wrappers

  datatype Moment = Moment(policy: Policy, records: Records)

  datatype Witness = Witness(moments: map<nat, Moment>, granted: set<nat>)

  /** What a step adds to the record: the moment of a commit, and a permission. */
  function Witnessed(w: World, v: Witness, a: Action): Witness {
    if !Enabled(w, a) then v
    else
      match a
      case Commit(i, c, _) => v.(moments := v.moments[c := Moment(w.instances[i].policy, w.records)])
      case Permission(c, granted) => if granted then v.(granted := v.granted + {c}) else v
      case _ => v
  }

  function WitnessedRun(w: World, v: Witness, schedule: seq<Action>): Witness
    decreases |schedule|
  {
    if schedule == [] then v
    else WitnessedRun(Step(w, schedule[0]), Witnessed(w, v, schedule[0]), schedule[1..])
  }

  function Nothing(): Witness {
    Witness(map[], {})
  }

  /** The policy had the preview's revision, the ACTIVE stage and the operation enabled; the preview was
      stored, had not expired and had no commit. */
  ghost predicate Allowed(m: Moment, r: Request) {
    && m.policy.revision == r.preview.policyRevision == r.expectedPolicyRevision
    && m.policy.activeStageEnabled && r.preview.command.kind in m.policy.enabledOperations
    && r.now <= r.preview.expiresAt
    && r.preview.previewId in m.records.previews && m.records.previews[r.preview.previewId] == r.preview
    && r.preview.previewId !in m.records.commits
  }

  ghost predicate AllowedCall(calls: map<nat, Call>, v: Witness, c: nat) {
    c in calls && c in v.moments && Allowed(v.moments[c], calls[c].request)
  }

  /** The call began allowed, and its permission was granted. */
  ghost predicate Authorizes(calls: map<nat, Call>, v: Witness, c: nat) {
    AllowedCall(calls, v, c) && c in v.granted
  }

  ghost predicate BegunAllowed(calls: map<nat, Call>, v: Witness) {
    forall c | c in calls && (calls[c].phase.Confirming? || calls[c].phase.Executing?) ::
      AllowedCall(calls, v, c) && calls[c].phase.stored == calls[c].request.preview
  }

  ghost predicate EndedGranted(calls: map<nat, Call>, v: Witness) {
    forall c | c in calls && (calls[c].phase.Executing? || calls[c].phase.Returned?) :: c in v.granted
  }

  /** What was sent is the request of an authorized call, confirmed by its actor. */
  ghost predicate SentBy(calls: map<nat, Call>, v: Witness, c: nat, identity: Identity) {
    && Authorizes(calls, v, c)
    && var r, p := calls[c].request, calls[c].request.preview;
       && identity.requestFingerprint == FingerprintOf(r)
       && identity.operationId == OperationId(p.previewId, p.commandFingerprint, p.policyRevision)
       && r.confirmation == ConfirmationOf(p.previewId, p.commandFingerprint, r.actor)
  }

  ghost predicate AllSentBy(sent: set<Identity>, calls: map<nat, Call>, v: Witness) {
    forall identity | identity in sent :: exists c: nat :: SentBy(calls, v, c, identity)
  }

  ghost predicate ReceiptsSent(port: Port, sent: set<Identity>) {
    forall op | op in port.receipts :: Identity(op, port.receipts[op].requestFingerprint) in sent
  }

  /** A result is returned to the very request that the port answered. */
  ghost predicate OwnResults(calls: map<nat, Call>, port: Port) {
    forall c | c in calls && calls[c].phase.Returned? ::
      Receipted(calls[c].phase.result, FingerprintOf(calls[c].request), port)
  }

  ghost predicate AuthorityInv(w: World, v: Witness) {
    && BegunAllowed(w.calls, v) && EndedGranted(w.calls, v) && AllSentBy(w.sent, w.calls, v)
    && ReceiptsSent(w.port, w.sent) && OwnResults(w.calls, w.port)
  }

  // --- every step keeps it -----------------------------------------------

  /** Calls keep their request, and a call's moment stays what it was. */
  ghost predicate Keeps(calls: map<nat, Call>, v: Witness, next: map<nat, Call>, u: Witness) {
    && (forall c | c in calls :: c in next && next[c].request == calls[c].request)
    && (forall c | c in calls && c in v.moments :: c in u.moments && u.moments[c] == v.moments[c])
    && v.granted <= u.granted
  }

  lemma StepKeepsCalls(w: World, v: Witness, a: Action)
    ensures Keeps(w.calls, v, Step(w, a).calls, Witnessed(w, v, a))
  {
  }

  lemma SentLasts(calls: map<nat, Call>, v: Witness, next: map<nat, Call>, u: Witness, c: nat, identity: Identity)
    requires Keeps(calls, v, next, u) && SentBy(calls, v, c, identity)
    ensures SentBy(next, u, c, identity)
  {
  }

  lemma AllSentLasts(sent: set<Identity>, calls: map<nat, Call>, v: Witness, next: map<nat, Call>, u: Witness)
    requires AllSentBy(sent, calls, v) && Keeps(calls, v, next, u)
    ensures AllSentBy(sent, next, u)
  {
    forall identity | identity in sent ensures exists c: nat :: SentBy(next, u, c, identity) {
      var c: nat :| SentBy(calls, v, c, identity);
      SentLasts(calls, v, next, u, c, identity);
    }
  }

  /** Only an execution whose call was allowed and granted goes out. */
  lemma PermissionSendsOwn(w: World, v: Witness, c: nat, granted: bool)
    requires Enabled(w, Permission(c, granted)) && BegunAllowed(w.calls, v) && AllSentBy(w.sent, w.calls, v)
    ensures var a := Permission(c, granted);
            AllSentBy(Step(w, a).sent, Step(w, a).calls, Witnessed(w, v, a))
  {
    var a := Permission(c, granted);
    var next, u := Step(w, a), Witnessed(w, v, a);
    StepKeepsCalls(w, v, a);
    AllSentLasts(w.sent, w.calls, v, next.calls, u);
    if next.sent != w.sent {
      assert AllowedCall(w.calls, v, c);
      assert SentBy(next.calls, u, c, IdentityOf(w.calls[c].phase.stored, w.calls[c].request));
    }
  }

  lemma SentOnlyByPermission(w: World, a: Action)
    requires !a.Permission?
    ensures Step(w, a).sent == w.sent
  {
  }

  lemma StepKeepsSent(w: World, v: Witness, a: Action)
    requires BegunAllowed(w.calls, v) && AllSentBy(w.sent, w.calls, v)
    ensures AllSentBy(Step(w, a).sent, Step(w, a).calls, Witnessed(w, v, a))
  {
    if a.Permission? && Enabled(w, a) {
      PermissionSendsOwn(w, v, a.call, a.granted);
    } else {
      StepKeepsCalls(w, v, a);
      if !a.Permission? {
        SentOnlyByPermission(w, a);
      }
      AllSentLasts(w.sent, w.calls, v, Step(w, a).calls, Witnessed(w, v, a));
    }
  }

  /** A call goes on to execution only from a moment that allows it. */
  lemma CommitBeginsAllowed(w: World, v: Witness, a: Action)
    requires BegunAllowed(w.calls, v) && a.Commit?
    ensures BegunAllowed(Step(w, a).calls, Witnessed(w, v, a))
  {
  }

  lemma PermissionKeepsAllowed(w: World, v: Witness, a: Action)
    requires BegunAllowed(w.calls, v) && a.Permission?
    ensures BegunAllowed(Step(w, a).calls, Witnessed(w, v, a))
  {
  }

  lemma StepKeepsAllowed(w: World, v: Witness, a: Action)
    requires BegunAllowed(w.calls, v)
    ensures BegunAllowed(Step(w, a).calls, Witnessed(w, v, a))
  {
    if a.Commit? {
      CommitBeginsAllowed(w, v, a);
    } else if a.Permission? {
      PermissionKeepsAllowed(w, v, a);
    }
  }

  lemma PermissionIsGranted(w: World, v: Witness, a: Action)
    requires EndedGranted(w.calls, v) && a.Permission?
    ensures EndedGranted(Step(w, a).calls, Witnessed(w, v, a))
  {
  }

  lemma StepKeepsGranted(w: World, v: Witness, a: Action)
    requires EndedGranted(w.calls, v)
    ensures EndedGranted(Step(w, a).calls, Witnessed(w, v, a))
  {
    if a.Permission? {
      PermissionIsGranted(w, v, a);
    }
  }

  lemma StepKeepsReceipts(w: World, a: Action)
    requires ReceiptsSent(w.port, w.sent)
    ensures ReceiptsSent(Step(w, a).port, Step(w, a).sent)
  {
  }

  lemma ProcessKeepsOwn(calls: map<nat, Call>, port: Port, identity: Identity, at: int)
    requires OwnResults(calls, port)
    ensures OwnResults(calls, Process(port, identity, at))
  {
    ProcessKeepsReceipts(port, identity, at);
  }

  lemma ReplayIsOwn(w: World, c: nat, granted: bool)
    requires Running(w, c) && w.calls[c].phase.Replaying? && OwnResults(w.calls, w.port)
    requires GoodRecord(w.calls[c].phase.previous, w.kind, w.port)
    ensures OwnResults(PermissionStep(w, c, granted).calls, w.port)
  {
  }

  lemma ConfirmedIsNoResult(w: World, c: nat, granted: bool)
    requires Running(w, c) && w.calls[c].phase.Confirming? && OwnResults(w.calls, w.port)
    ensures OwnResults(PermissionStep(w, c, granted).calls, w.port)
  {
  }

  lemma PermissionReturnsOwn(w: World, c: nat, granted: bool)
    requires Inv(w) && OwnResults(w.calls, w.port)
    requires Running(w, c) && (w.calls[c].phase.Replaying? || w.calls[c].phase.Confirming?)
    ensures OwnResults(PermissionStep(w, c, granted).calls, w.port)
  {
    if w.calls[c].phase.Replaying? {
      assert GoodPhase(w.calls[c], w.kind, w.port, w.sent);
      ReplayIsOwn(w, c, granted);
    } else {
      ConfirmedIsNoResult(w, c, granted);
    }
  }

  lemma SettlingReturnsOwn(w: World, a: Action)
    requires Inv(w) && OwnResults(w.calls, w.port) && a.Settles?
    ensures OwnResults(Step(w, a).calls, Step(w, a).port)
  {
    if Enabled(w, a) && a.receipt.Some? {
      var identity := IdentityOf(w.calls[a.call].phase.stored, w.calls[a.call].request);
      ReceiptMatches(w.port, w.sent, identity, a.receipt.value);
      CommitIsGood(w, a.call, a.receipt.value);
      SettlingIsLeaving(w, a.call, a.receipt.value, a.fault);
    }
  }

  lemma StepReturnsOwn(w: World, a: Action)
    requires Inv(w) && OwnResults(w.calls, w.port)
    ensures OwnResults(Step(w, a).calls, Step(w, a).port)
  {
    if a.Permission? {
      if Enabled(w, a) {
        PermissionReturnsOwn(w, a.call, a.granted);
      }
    } else if a.Settles? {
      SettlingReturnsOwn(w, a);
    } else if a.PortProcesses? {
      ProcessKeepsOwn(w.calls, w.port, a.identity, a.at);
    } else {
      OthersReturnOwn(w, a);
    }
  }

  lemma OthersReturnOwn(w: World, a: Action)
    requires Inv(w) && OwnResults(w.calls, w.port) && !a.Permission? && !a.Settles? && !a.PortProcesses?
    ensures OwnResults(Step(w, a).calls, Step(w, a).port)
  {
  }

  lemma StepKeepsAuthority(w: World, v: Witness, a: Action)
    requires Inv(w) && AuthorityInv(w, v)
    ensures AuthorityInv(Step(w, a), Witnessed(w, v, a))
  {
    StepKeepsAllowed(w, v, a);
    StepKeepsGranted(w, v, a);
    StepKeepsSent(w, v, a);
    StepKeepsReceipts(w, a);
    StepReturnsOwn(w, a);
  }

  lemma {:induction false} RunKeepsAuthority(w: World, v: Witness, schedule: seq<Action>)
    requires Inv(w) && AuthorityInv(w, v)
    ensures Inv(Run(w, schedule)) && AuthorityInv(Run(w, schedule), WitnessedRun(w, v, schedule))
    decreases |schedule|
  {
    if schedule != [] {
      StepKeepsInv(w, schedule[0]);
      StepKeepsAuthority(w, v, schedule[0]);
      RunKeepsAuthority(Step(w, schedule[0]), Witnessed(w, v, schedule[0]), schedule[1..]);
    }
  }

  // --- what every run guarantees -----------------------------------------

  /** Whatever was sent to the port, or took effect, is the request of a call that was granted permission
      and that began while its instance's policy had the preview's revision and allowed the operation, with
      the preview stored, unexpired and uncommitted. */
  lemma NothingRunsUnallowed(kind: StoreKind, schedule: seq<Action>)
    ensures var w, v := Run(Empty(kind), schedule), WitnessedRun(Empty(kind), Nothing(), schedule);
            && AllSentBy(w.sent, w.calls, v)
            && (forall op | op in w.port.effects ::
                  && op in w.port.receipts
                  && exists c: nat :: SentBy(w.calls, v, c, Identity(op, w.port.receipts[op].requestFingerprint)))
  {
    RunKeepsAuthority(Empty(kind), Nothing(), schedule);
  }

  /** A call that returns was granted permission, and its result is the port's answer to its own request:
      its actor, its preview, and nobody else's. */
  lemma ReturnedIsOwn(kind: StoreKind, schedule: seq<Action>, c: nat)
    requires var w := Run(Empty(kind), schedule); c in w.calls && w.calls[c].phase.Returned?
    ensures var w, v := Run(Empty(kind), schedule), WitnessedRun(Empty(kind), Nothing(), schedule);
            var r, result := w.calls[c].request, w.calls[c].phase.result;
            && c in v.granted
            && result.previewId == r.preview.previewId && result.actor == r.actor
            && result.kind == r.preview.command.kind && result.blastRadius == r.preview.blastRadius
            && result.operationId in w.port.receipts
            && w.port.receipts[result.operationId].requestFingerprint == FingerprintOf(r)
            && result.committedAt == w.port.receipts[result.operationId].committedAt
  {
    RunKeepsAuthority(Empty(kind), Nothing(), schedule);
  }
}
