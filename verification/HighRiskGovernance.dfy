/** High-risk operations: previews, actor-bound confirmation, and commits that run in three pieces
    around two awaits, over the memory store or the durable file store. */
module HighRiskGovernance {
  import opened Wrappers

  const MAX_RECORDS: nat := 10_000

  datatype Kind = GlobalPromotion | RuleChange | BindingChange | PrivacyPurge

  /** `wellFormed` stands for the checks of ids, sizes and texts. */
  datatype Command = Command(kind: Kind, body: string, wellFormed: bool)

  datatype BlastRadius = BlastRadius(facts: string, irreversible: bool, wellFormed: bool)

  /** Fingerprints are injective, so each is modelled by what it covers. */
  datatype PreviewId = PreviewId(command: Command, policyRevision: nat, now: int)

  datatype Preview = Preview(previewId: PreviewId, policyRevision: nat, commandFingerprint: Command, command: Command,
                             blastRadius: BlastRadius, createdAt: int, expiresAt: int)

  datatype Policy = Policy(revision: nat, activeStageEnabled: bool, enabledOperations: set<Kind>, previewTtlMs: int)

  datatype Confirmation =
    | ConfirmationOf(previewId: PreviewId, commandFingerprint: Command, actor: string)
    | Unrelated(text: string)

  /** `wellFormed` stands for the checks of the actor, the confirmation's form and the timestamp. */
  datatype Request = Request(preview: Preview, expectedPolicyRevision: int, actor: string, confirmation: Confirmation,
                             now: int, wellFormed: bool)

  datatype RequestFingerprint = RequestFingerprint(preview: Preview, expectedPolicyRevision: int, actor: string,
                                                   confirmation: Confirmation)

  datatype OperationId = OperationId(previewId: PreviewId, commandFingerprint: Command, policyRevision: nat)

  /** What the port is sent; the operation id is also the idempotency key. */
  datatype Identity = Identity(operationId: OperationId, requestFingerprint: RequestFingerprint)

  datatype Receipt = Receipt(operationId: OperationId, requestFingerprint: RequestFingerprint, replayed: bool,
                             committedAt: int)

  datatype OperationResult = OperationResult(operationId: OperationId, previewId: PreviewId, kind: Kind,
                                             actor: string, policyRevision: nat,
                                             blastRadius: BlastRadius, committedAt: int)

  datatype CommitRecord = CommitRecord(previewId: PreviewId, result: OperationResult,
                                       requestFingerprint: RequestFingerprint)

  function Confirm(p: Preview, actor: string): Confirmation {
    ConfirmationOf(p.previewId, p.commandFingerprint, actor)
  }

  function FingerprintOf(r: Request): RequestFingerprint {
    RequestFingerprint(r.preview, r.expectedPolicyRevision, r.actor, r.confirmation)
  }

  function OperationOf(p: Preview): OperationId {
    OperationId(p.previewId, p.commandFingerprint, p.policyRevision)
  }

  predicate ValidPolicy(p: Policy) {
    1 <= p.revision <= MAX_SAFE && 1_000 <= p.previewTtlMs <= 86_400_000
  }

  predicate ValidBlastRadius(b: BlastRadius, kind: Kind) {
    b.wellFormed && (kind.PrivacyPurge? ==> b.irreversible)
  }

  // --- the stores --------------------------------------------------------

  datatype StoreKind = Memory | File

  datatype Records = Records(previews: map<PreviewId, Preview>, commits: map<PreviewId, CommitRecord>)

  datatype Fault = NoFault | FailsBefore | FailsAfter

  datatype Written = Written(records: Records, ok: bool)

  /** The id and the command fingerprint are those of the preview's own fields. */
  predicate WellFormed(p: Preview) {
    && p.previewId == PreviewId(p.command, p.policyRevision, p.createdAt) && p.commandFingerprint == p.command
  }

  predicate StorablePreview(p: Preview) {
    WellFormed(p) && 1 <= p.policyRevision <= MAX_SAFE && p.createdAt < p.expiresAt
  }

  function WritePreview(s: Records, kind: StoreKind, p: Preview, fault: Fault): Written {
    var next := s.(previews := s.previews[p.previewId := p]);
    if p.previewId in s.previews then Written(s, (kind.File? ==> StorablePreview(p)) && s.previews[p.previewId] == p)
    else if kind.Memory? then Written(next, true)
    else if !StorablePreview(p) || |s.previews| >= MAX_RECORDS || fault.FailsBefore? then Written(s, false)
    else Written(next, fault.NoFault?)
  }

  /** What the file store demands of a commit: above all the policy revision of the preview. */
  predicate StorableCommit(s: Records, c: CommitRecord) {
    && c.previewId in s.previews
    && var preview := s.previews[c.previewId];
       && c.result.previewId == c.previewId && c.result.kind == preview.command.kind
       && c.result.policyRevision == preview.policyRevision
  }

  function WriteCommit(s: Records, kind: StoreKind, c: CommitRecord, fault: Fault): Written {
    var next := s.(commits := s.commits[c.previewId := c]);
    if kind.File? && !StorableCommit(s, c) then Written(s, false)
    else if c.previewId in s.commits then Written(s, s.commits[c.previewId] == c)
    else if kind.Memory? then Written(next, true)
    else if |s.commits| >= MAX_RECORDS || fault.FailsBefore? then Written(s, false)
    else Written(next, fault.NoFault?)
  }

  /** Both stores; `kind` tells which. */
  class HighRiskGovernanceStateStore {
    const kind: StoreKind
    var previews: map<PreviewId, Preview>
    var commits: map<PreviewId, CommitRecord>

    constructor (kind: StoreKind)
      ensures this.kind == kind && previews == map[] && commits == map[]
    {
      this.kind, this.previews, this.commits := kind, map[], map[];
    }

    function Value(): Records
      reads this
    {
      Records(previews, commits)
    }

    method PutPreview(p: Preview, fault: Fault) returns (ok: bool)
      modifies this`previews
      ensures Written(Value(), ok) == WritePreview(old(Value()), kind, p, fault)
      ensures ok <==>
                && (kind.File? ==>
                      && p.previewId == PreviewId(p.command, p.policyRevision, p.createdAt)
                      && p.commandFingerprint == p.command
                      && 1 <= p.policyRevision <= MAX_SAFE && p.createdAt < p.expiresAt)
                && (if p.previewId in old(previews) then old(previews)[p.previewId] == p
                    else kind.File? ==> |old(previews)| < MAX_RECORDS && fault.NoFault?)
      ensures previews == old(previews)
              || (p.previewId !in old(previews) && previews == old(previews)[p.previewId := p])
      ensures ok ==> p.previewId in previews && previews[p.previewId] == p
    {
      if kind.File? && !StorablePreview(p) { return false; }
      if p.previewId in previews {
        return previews[p.previewId] == p;
      }
      if kind.File? && |previews| >= MAX_RECORDS { return false; }
      if kind.File? && fault.FailsBefore? { return false; }
      previews := previews[p.previewId := p];
      return kind.Memory? || fault.NoFault?;
    }

    method PutCommit(c: CommitRecord, fault: Fault) returns (ok: bool)
      modifies this`commits
      ensures Written(Value(), ok) == WriteCommit(old(Value()), kind, c, fault)
      ensures ok <==>
                && (kind.File? ==>
                      && c.previewId in previews && c.result.previewId == c.previewId
                      && c.result.kind == previews[c.previewId].command.kind
                      && c.result.policyRevision == previews[c.previewId].policyRevision)
                && (if c.previewId in old(commits) then old(commits)[c.previewId] == c
                    else kind.File? ==> |old(commits)| < MAX_RECORDS && fault.NoFault?)
      ensures commits == old(commits) || (c.previewId !in old(commits) && commits == old(commits)[c.previewId := c])
      ensures ok ==> c.previewId in commits && commits[c.previewId] == c
    {
      if kind.File? && !StorableCommit(Value(), c) { return false; }
      if c.previewId in commits {
        return commits[c.previewId] == c;
      }
      if kind.File? && |commits| >= MAX_RECORDS { return false; }
      if kind.File? && fault.FailsBefore? { return false; }
      commits := commits[c.previewId := c];
      return kind.Memory? || fault.NoFault?;
    }
  }

  // --- the service -------------------------------------------------------

  /** What a commit awaits first: the permission to be told a past result, or to execute. */
  datatype Begun = Refused | Replay(previous: CommitRecord) | Execute(stored: Preview)

  function Begin(s: Records, policy: Policy, r: Request): Begun {
    var id := r.preview.previewId;
    if !r.wellFormed then Refused
    else if id in s.commits then
      if id in s.previews && s.previews[id] == r.preview && r.confirmation == Confirm(r.preview, r.actor)
      then Replay(s.commits[id]) else Refused
    else if r.expectedPolicyRevision != policy.revision || r.preview.policyRevision != policy.revision then Refused
    else if id !in s.previews || s.previews[id] != r.preview || r.preview.commandFingerprint != r.preview.command
    then Refused
    else if r.now > r.preview.expiresAt || !policy.activeStageEnabled
            || r.preview.command.kind !in policy.enabledOperations
    then Refused
    else Execute(r.preview)
  }

  /** After the permission: the confirmation must be the actor's, and no execution may be in flight. */
  predicate MayExecute(inFlight: set<PreviewId>, r: Request, stored: Preview, granted: bool) {
    granted && r.confirmation == Confirm(stored, r.actor) && stored.previewId !in inFlight
  }

  function IdentityOf(stored: Preview, r: Request): Identity {
    Identity(OperationOf(stored), FingerprintOf(r))
  }

  predicate Matches(receipt: Receipt, identity: Identity) {
    receipt.operationId == identity.operationId && receipt.requestFingerprint == identity.requestFingerprint
  }

  /** The policy revision is read after the execution. */
  function ResultOf(stored: Preview, r: Request, receipt: Receipt, policy: Policy): OperationResult
  {
    OperationResult(OperationOf(stored), stored.previewId, stored.command.kind, r.actor, policy.revision,
                    stored.blastRadius, receipt.committedAt)
  }

  datatype Finished = Finished(records: Records, result: Option<OperationResult>)

  function Finish(s: Records, kind: StoreKind, policy: Policy, stored: Preview, r: Request, receipt: Option<Receipt>,
                  fault: Fault): Finished
  {
    if receipt.None? || !Matches(receipt.value, IdentityOf(stored, r)) then Finished(s, None)
    else
      var result := ResultOf(stored, r, receipt.value, policy);
      var written := WriteCommit(s, kind, CommitRecord(stored.previewId, result, FingerprintOf(r)), fault);
      Finished(written.records, if written.ok then Some(result) else None)
  }

  function PreviewOf(command: Command, policy: Policy, blast: BlastRadius, now: int): Preview
  {
    Preview(PreviewId(command, policy.revision, now), policy.revision, command, command, blast, now,
            now + policy.previewTtlMs)
  }

  class HighRiskGovernanceService {
    const store: HighRiskGovernanceStateStore
    var policyValue: Policy
    var inFlight: set<PreviewId>

    ghost predicate Valid()
      reads this
    {
      ValidPolicy(policyValue)
    }

    constructor (store: HighRiskGovernanceStateStore, policy: Policy)
      requires ValidPolicy(policy)
      ensures Valid() && this.store == store && policyValue == policy && inFlight == {}
    {
      this.store, this.policyValue, this.inFlight := store, policy, {};
    }

    method UpdatePolicy(next: Policy, expectedRevision: int) returns (ok: bool)
      requires Valid()
      modifies this`policyValue
      ensures Valid()
      ensures ok <==>
                && 1_000 <= next.previewTtlMs <= 86_400_000 && next.revision <= MAX_SAFE
                && expectedRevision == old(policyValue).revision < next.revision
      ensures policyValue == if ok then next else old(policyValue)
    {
      if !ValidPolicy(next) { return false; }
      if expectedRevision != policyValue.revision || next.revision <= expectedRevision { return false; }
      policyValue := next;
      return true;
    }

    /** What `preview` does once the port has answered. */
    method KeepPreview(command: Command, blast: BlastRadius, now: int, fault: Fault) returns (r: Option<Preview>)
      requires Valid()
      modifies store`previews
      ensures !command.wellFormed || !ValidBlastRadius(blast, command.kind) ==>
                r.None? && store.Value() == old(store.Value())
      ensures command.wellFormed && ValidBlastRadius(blast, command.kind) ==>
                var preview := PreviewOf(command, policyValue, blast, now);
                var written := WritePreview(old(store.Value()), store.kind, preview, fault);
                store.Value() == written.records && r == if written.ok then Some(preview) else None
      ensures r.Some? ==>
                && r.value.policyRevision == policyValue.revision
                && r.value.command == r.value.commandFingerprint == command && r.value.blastRadius == blast
                && r.value.createdAt == now && r.value.expiresAt == now + policyValue.previewTtlMs
                && r.value.previewId in store.previews && store.previews[r.value.previewId] == r.value
                && command.wellFormed && blast.wellFormed && (command.kind.PrivacyPurge? ==> blast.irreversible)
    {
      if !command.wellFormed || !ValidBlastRadius(blast, command.kind) { return None; }
      var preview := PreviewOf(command, policyValue, blast, now);
      var ok := store.PutPreview(preview, fault);
      return if ok then Some(preview) else None;
    }

    /** A commit up to its first await. */
    method BeginCommit(r: Request) returns (b: Begun)
      requires Valid()
      ensures b == Begin(store.Value(), policyValue, r)
      ensures b.Execute? <==>
                && r.wellFormed && r.preview.previewId !in store.commits
                && r.preview.previewId in store.previews && store.previews[r.preview.previewId] == r.preview
                && r.preview.commandFingerprint == r.preview.command
                && r.expectedPolicyRevision == r.preview.policyRevision == policyValue.revision
                && policyValue.activeStageEnabled && r.preview.command.kind in policyValue.enabledOperations
                && r.now <= r.preview.expiresAt
      ensures b.Execute? ==> b.stored == r.preview
      ensures b.Replay? <==>
                && r.wellFormed && r.preview.previewId in store.commits
                && r.preview.previewId in store.previews && store.previews[r.preview.previewId] == r.preview
                && r.confirmation == ConfirmationOf(r.preview.previewId, r.preview.commandFingerprint, r.actor)
      ensures b.Replay? ==> b.previous == store.commits[r.preview.previewId]
    {
      var id := r.preview.previewId;
      if !r.wellFormed { return Refused; }
      if id in store.commits {
        var previous := store.commits[id];
        if id !in store.previews || store.previews[id] != r.preview
           || r.confirmation != Confirm(store.previews[id], r.actor) {
          return Refused;
        }
        return Replay(previous);
      }
      if r.expectedPolicyRevision != policyValue.revision
         || r.preview.policyRevision != policyValue.revision {
        return Refused;
      }
      if id !in store.previews { return Refused; }
      var stored := store.previews[id];
      if stored != r.preview || stored.commandFingerprint != stored.command { return Refused; }
      if r.now > stored.expiresAt || !policyValue.activeStageEnabled
         || stored.command.kind !in policyValue.enabledOperations {
        return Refused;
      }
      return Execute(stored);
    }

    /** From the permission to the execution. */
    method Authorized(r: Request, stored: Preview, granted: bool) returns (sent: Option<Identity>)
      requires Valid()
      modifies this`inFlight
      ensures sent == if MayExecute(old(inFlight), r, stored, granted) then Some(IdentityOf(stored, r)) else None
      ensures inFlight == if sent.Some? then old(inFlight) + {stored.previewId} else old(inFlight)
      ensures sent.Some? <==>
                && granted && stored.previewId !in old(inFlight)
                && r.confirmation == ConfirmationOf(stored.previewId, stored.commandFingerprint, r.actor)
      ensures sent.Some? ==>
                && sent.value.operationId
                   == OperationId(stored.previewId, stored.commandFingerprint, stored.policyRevision)
                && sent.value.requestFingerprint == FingerprintOf(r)
    {
      if !granted { return None; }
      if r.confirmation != Confirm(stored, r.actor) { return None; }
      if stored.previewId in inFlight { return None; }
      inFlight := inFlight + {stored.previewId};
      return Some(IdentityOf(stored, r));
    }

    /** From the receipt, or the failure of the execution, to the end. */
    method Settled(r: Request, stored: Preview, receipt: Option<Receipt>, fault: Fault)
      returns (result: Option<OperationResult>)
      requires Valid()
      modifies this`inFlight, store`commits
      ensures Finished(store.Value(), result)
           == Finish(old(store.Value()), store.kind, policyValue, stored, r, receipt, fault)
      ensures inFlight == old(inFlight) - {stored.previewId}
      ensures result.Some? ==>
                && receipt.Some? && receipt.value.operationId == result.value.operationId
                && receipt.value.requestFingerprint == FingerprintOf(r)
                && result.value.operationId == OperationOf(stored)
                && result.value.previewId == stored.previewId && result.value.kind == stored.command.kind
                && result.value.actor == r.actor && result.value.policyRevision == policyValue.revision
                && result.value.blastRadius == stored.blastRadius
                && result.value.committedAt == receipt.value.committedAt
    {
      inFlight := inFlight - {stored.previewId};
      var identity := IdentityOf(stored, r);
      if receipt.None? || receipt.value.operationId != identity.operationId
         || receipt.value.requestFingerprint != identity.requestFingerprint {
        return None;
      }
      var committed := ResultOf(stored, r, receipt.value, policyValue);
      var ok := store.PutCommit(CommitRecord(stored.previewId, committed, identity.requestFingerprint), fault);
      return if ok then Some(committed) else None;
    }
  }
}
