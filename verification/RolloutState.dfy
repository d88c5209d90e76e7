/** The scoped rollout: its persisted state, the store's compare-and-swap, the runtime controller, and
    what each operation of the service makes of them. */
module RolloutState {
  import opened Wrappers

  const MAX_EVIDENCE: nat := 1_000
  const MAX_AUDIT: nat := 10_000
  const FULL_PERCENTAGE: nat := 10_000
  const CHECK_CODES: nat := 9
  const MAX_TRACES: nat := 10_000

  datatype Mode = Shadow | Active

  datatype Canary = Canary(projectIds: Option<seq<string>>, sessionIds: Option<seq<string>>,
                           taskIds: Option<seq<string>>, percentageBasisPoints: Option<int>, allocationSalt: string)

  datatype Check = Check(code: nat, passed: bool, detail: string)

  /** What the id of an eligibility evidence covers: everything but its timestamps. */
  datatype EvidenceCore = EvidenceCore(datasetId: string, datasetVersion: int, datasetFingerprint: string,
                                       configFingerprint: string, versionFingerprint: string, traceIds: seq<string>,
                                       checks: seq<Check>, eligible: bool)

  /** Timestamps are milliseconds; `None` is one that is not canonical ISO-8601. */
  type Timestamp = Option<int>

  datatype Window = Window(observedFrom: Timestamp, observedTo: Timestamp, createdAt: Timestamp)

  /** Fingerprints are injective: the id of an evidence is its core. */
  datatype Evidence = Evidence(evidenceId: EvidenceCore, core: EvidenceCore, window: Window)

  datatype Effective = Effective(policyRevision: int, mode: Mode, configFingerprint: string, versionFingerprint: string,
                                 canary: Option<Canary>, evidenceId: Option<EvidenceCore>)

  datatype AuditKind = Bootstrapped | Activated | Downgraded

  datatype Audit = Audit(kind: AuditKind, stateRevision: nat, effectivePolicyRevision: int, reason: string,
                         occurredAt: Timestamp)

  datatype State = State(stateRevision: nat, effective: Effective, lastKnownGood: Effective, evidence: seq<Evidence>,
                         audit: seq<Audit>)

  datatype Bootstrap = Bootstrap(policyRevision: int, configFingerprint: string, versionFingerprint: string,
                                 now: Timestamp)

  datatype Request = Request(expectedStateRevision: int, targetPolicyRevision: int, configFingerprint: string,
                             versionFingerprint: string,
                             eligibilityEvidenceId: EvidenceCore, canary: Canary, now: Timestamp)

  datatype Scope = Scope(sessionId: string, turnId: string, projectId: Option<string>, taskId: Option<string>)

  datatype DecisionReason = CanaryIncluded | ScopeExcluded | ShadowMode | FailSafeShadow

  datatype Decision = Decision(stateRevision: nat, policyRevision: int, mode: Mode, reason: DecisionReason)

  datatype InjectionStatus = Injected | NoContext | Timeout | ProviderError | InvalidContext

  predicate SafeIdChar(c: char) {
    'A' <= c <= 'Z' || 'a' <= c <= 'z' || '0' <= c <= '9' || c in "._:@/-"
  }

  predicate ValidId(s: string) {
    && 1 <= |s| <= 500
    && (forall i | 0 <= i < |s| :: SafeIdChar(s[i]))
    && s[0] !in "._:@/-"
  }

  predicate ValidFingerprint(s: string) {
    && |s| == 71 && s[..7] == "sha256:"
    && (forall i | 7 <= i < |s| :: '0' <= s[i] <= '9' || 'a' <= s[i] <= 'f')
  }

  predicate UniqueIds(values: seq<string>) {
    && (forall i | 0 <= i < |values| :: ValidId(values[i]))
    && (forall i, j | 0 <= i < j < |values| :: values[i] != values[j])
  }

  predicate ValidSelector(values: Option<seq<string>>) {
    values.Some? ==> 1 <= |values.value| <= 1_000 && UniqueIds(values.value)
  }

  function Percentage(c: Canary): int {
    if c.percentageBasisPoints.Some? then c.percentageBasisPoints.value else FULL_PERCENTAGE
  }

  predicate ValidCanary(c: Canary) {
    && ValidId(c.allocationSalt)
    && ValidSelector(c.projectIds) && ValidSelector(c.sessionIds) && ValidSelector(c.taskIds)
    && 1 <= Percentage(c) <= FULL_PERCENTAGE
    && (c.projectIds.None? && c.sessionIds.None? && c.taskIds.None? ==> Percentage(c) != FULL_PERCENTAGE)
  }

  predicate AllPassed(checks: seq<Check>) {
    forall i | 0 <= i < |checks| :: checks[i].passed
  }

  predicate HasCheck(checks: seq<Check>, code: nat) {
    exists i :: 0 <= i < |checks| && checks[i].code == code
  }

  predicate ValidWindow(w: Window) {
    && w.observedFrom.Some? && w.observedTo.Some? && w.createdAt.Some?
    && w.observedFrom.value <= w.observedTo.value
  }

  predicate ValidEvidence(e: Evidence) {
    && ValidId(e.core.datasetId) && 1 <= e.core.datasetVersion <= MAX_SAFE
    && ValidFingerprint(e.core.datasetFingerprint) && ValidFingerprint(e.core.configFingerprint)
       && ValidFingerprint(e.core.versionFingerprint)
    && 1 <= |e.core.traceIds| <= MAX_TRACES && UniqueIds(e.core.traceIds)
    && ValidWindow(e.window)
    && |e.core.checks| == CHECK_CODES && (forall code | 0 <= code < CHECK_CODES :: HasCheck(e.core.checks, code))
    && e.core.eligible == AllPassed(e.core.checks)
    && e.evidenceId == e.core
  }

  function FindEvidence(evidence: seq<Evidence>, id: EvidenceCore): Option<Evidence> {
    if evidence == [] then None
    else if evidence[0].evidenceId == id then Some(evidence[0]) else FindEvidence(evidence[1..], id)
  }

  function Bounded<T>(values: seq<T>, maximum: nat): seq<T> {
    if |values| <= maximum then values else values[|values| - maximum..]
  }

  // --- the store ---------------------------------------------------------

  predicate ValidEffective(e: Effective) {
    1 <= e.policyRevision <= MAX_SAFE && ValidFingerprint(e.configFingerprint) && ValidFingerprint(e.versionFingerprint)
  }

  predicate ValidState(s: State) {
    && 1 <= s.stateRevision <= MAX_SAFE
    && ValidEffective(s.effective) && ValidEffective(s.lastKnownGood)
    && 1 <= |s.audit| <= MAX_AUDIT && |s.evidence| <= MAX_EVIDENCE
    && (forall i | 0 <= i < |s.audit| :: s.audit[i].occurredAt.Some?)
    && (forall i | 0 <= i < |s.evidence| :: ValidEvidence(s.evidence[i]))
  }

  /** A save may fail before or after the new state has taken effect. */
  datatype Fault = NoFault | FailsBefore | FailsAfter

  datatype Saved = Saved(stored: Option<State>, ok: bool)

  predicate Accepts(stored: Option<State>, next: State, expected: int) {
    && ValidState(next)
    && (if stored.Some? then stored.value.stateRevision else 0) == expected && next.stateRevision == expected + 1
  }

  function Save(stored: Option<State>, next: State, expected: int, fault: Fault): Saved {
    if !Accepts(stored, next, expected) || fault.FailsBefore? then Saved(stored, false)
    else Saved(Some(next), fault.NoFault?)
  }

  class RolloutStateStore {
    var state: Option<State>

    constructor ()
      ensures state.None?
    {
      state := None;
    }

    method Load() returns (r: Option<State>)
      ensures r == state
    {
      return state;
    }

    method SaveState(next: State, expected: int, fault: Fault) returns (ok: bool)
      modifies this
      ensures Saved(state, ok) == Save(old(state), next, expected, fault)
      ensures state != old(state) ==> state == Some(next) && next.stateRevision == expected + 1 && !fault.FailsBefore?
      ensures ok <==>
                && ValidState(next) && fault.NoFault? && next.stateRevision == expected + 1
                && (if old(state).Some? then expected == old(state).value.stateRevision else expected == 0)
      ensures fault.FailsAfter? && Accepts(old(state), next, expected) ==> state == Some(next)
    {
      if !ValidState(next) { return false; }
      var current := if state.Some? then state.value.stateRevision else 0;
      if current != expected || next.stateRevision != expected + 1 { return false; }
      if fault.FailsBefore? { return false; }
      state := Some(next);
      return fault.NoFault?;
    }
  }

  // --- the runtime controller --------------------------------------------

  /** The number of UTF-16 code units of a string. */
  function Units(s: string): nat {
    if s == "" then 0 else (if s[0] as int < 0x10000 then 1 else 2) + Units(s[1..])
  }

  /** What `trim` removes. */
  predicate Blank(c: char) {
    || '\U{9}' <= c <= '\U{D}' || c == ' ' || c == '\U{A0}' || c == '\U{1680}' || '\U{2000}' <= c <= '\U{200A}'
    || c in "\U{2028}\U{2029}\U{202F}\U{205F}\U{3000}\U{FEFF}"
  }

  predicate ValidText(s: string, maximum: nat) {
    && (exists i :: 0 <= i < |s| && !Blank(s[i]))
    && Units(s) <= maximum
    && '\0' !in s && '\r' !in s && '\n' !in s
  }

  /** The controller is no stricter than the service: every dataset id of a valid evidence is a text. */
  lemma SafeIdsAreText(s: string)
    requires ValidId(s)
    ensures ValidText(s, 500)
  {
    AsciiUnits(s);
    assert SafeIdChar(s[0]) && !Blank(s[0]);
  }

  lemma {:induction false} AsciiUnits(s: string)
    requires forall i | 0 <= i < |s| :: SafeIdChar(s[i])
    ensures Units(s) == |s|
  {
    if s != "" {
      AsciiUnits(s[1..]);
    }
  }

  datatype RuntimeMode = RuntimeOff | RuntimeShadow | RuntimeActive

  datatype Controller = Controller(revision: nat, mode: RuntimeMode)

  /** The part of an evidence that the controller checks before it becomes active. */
  predicate Convincing(evidence: Option<EvidenceCore>) {
    && evidence.Some? && ValidText(evidence.value.datasetId, 500) && 1 <= evidence.value.datasetVersion <= MAX_SAFE
    && ValidFingerprint(evidence.value.configFingerprint)
  }

  predicate MayActivate(c: Controller, revision: int, mode: RuntimeMode, evidence: Option<EvidenceCore>) {
    c.revision < revision <= MAX_SAFE && (mode.RuntimeActive? ==> Convincing(evidence))
  }

  function Activate(c: Controller, revision: int, mode: RuntimeMode, evidence: Option<EvidenceCore>): Controller {
    if MayActivate(c, revision, mode, evidence) then Controller(revision, mode) else c
  }

  class InjectionRolloutController {
    var current: Controller

    constructor ()
      ensures current == Controller(0, RuntimeOff)
    {
      current := Controller(0, RuntimeOff);
    }

    method ActivateMode(revision: int, mode: RuntimeMode, evidence: Option<EvidenceCore>) returns (ok: bool)
      modifies this
      ensures ok == MayActivate(old(current), revision, mode, evidence)
      ensures current == Activate(old(current), revision, mode, evidence)
    {
      if revision > MAX_SAFE || revision <= current.revision { return false; }
      if mode.RuntimeActive? && !Convincing(evidence) { return false; }
      current := Controller(revision, mode);
      return true;
    }
  }

  // --- the operations of the service -------------------------------------

  datatype Process = Process(state: State, volatileShadow: Option<string>, controller: Controller)

  /** What an operation leaves: the process, the store, and whether it returned without throwing. */
  datatype Outcome = Outcome(process: Process, stored: Option<State>, ok: bool)

  predicate ValidBootstrap(b: Bootstrap) {
    && 1 <= b.policyRevision <= MAX_SAFE && b.now.Some?
    && ValidFingerprint(b.configFingerprint) && ValidFingerprint(b.versionFingerprint)
  }

  function BootstrapState(b: Bootstrap): State {
    var effective := Effective(b.policyRevision, Shadow, b.configFingerprint, b.versionFingerprint, None, None);
    State(1, effective, effective, [], [Audit(Bootstrapped, 1, b.policyRevision, "BOOTSTRAP_SHADOW", b.now)])
  }

  /** A persisted ACTIVE state needs its evidence to be brought back. */
  predicate Hydrates(s: State) {
    s.effective.mode.Active? ==>
      var e := s.effective;
      && e.evidenceId.Some? && FindEvidence(s.evidence, e.evidenceId.value).Some?
      && var evidence := FindEvidence(s.evidence, e.evidenceId.value).value.core;
         && evidence.eligible && e.canary.Some? && ValidCanary(e.canary.value)
         && evidence.configFingerprint == e.configFingerprint && evidence.versionFingerprint == e.versionFingerprint
  }

  function Hydrate(s: State): Option<Process> {
    var off := Controller(0, RuntimeOff);
    if s.effective.mode.Shadow? then
      if MayActivate(off, s.stateRevision, RuntimeShadow, None)
      then Some(Process(s, None, Controller(s.stateRevision, RuntimeShadow))) else None
    else if !Hydrates(s) then None
    else
      var evidence := FindEvidence(s.evidence, s.effective.evidenceId.value).value.core;
      if MayActivate(off, s.stateRevision, RuntimeActive, Some(evidence))
      then Some(Process(s, None, Controller(s.stateRevision, RuntimeActive))) else None
  }

  datatype Booted = Booted(process: Option<Process>, stored: Option<State>)

  function Boot(stored: Option<State>, b: Bootstrap, fault: Fault): Booted {
    if !ValidBootstrap(b) then Booted(None, stored)
    else if stored.Some? then Booted(Hydrate(stored.value), stored)
    else
      var saved := Save(None, BootstrapState(b), 0, fault);
      Booted(if saved.ok then Hydrate(BootstrapState(b)) else None, saved.stored)
  }

  function WithEvidence(s: State, e: Evidence): State {
    s.(stateRevision := s.stateRevision + 1, evidence := Bounded(s.evidence + [e], MAX_EVIDENCE))
  }

  function RecordEvidence(p: Process, stored: Option<State>, e: Evidence, fault: Fault): Outcome {
    var existing := FindEvidence(p.state.evidence, e.evidenceId);
    if existing.Some? then Outcome(p, stored, existing.value == e)
    else if !ValidEvidence(e) then Outcome(p, stored, false)
    else
      var next := WithEvidence(p.state, e);
      var saved := Save(stored, next, p.state.stateRevision, fault);
      Outcome(if saved.ok then p.(state := next) else p, saved.stored, saved.ok)
  }

  function MaxAudited(audit: seq<Audit>): int {
    if audit == [] then 0
    else
      var rest, last := MaxAudited(audit[..|audit| - 1]), audit[|audit| - 1].effectivePolicyRevision;
      if last > rest then last else rest
  }

  /** The greatest policy revision in view. */
  function MaxKnown(s: State): int {
    var effective, good, audited := s.effective.policyRevision, s.lastKnownGood.policyRevision, MaxAudited(s.audit);
    if effective >= good && effective >= audited then effective else if good >= audited then good else audited
  }

  predicate MayActivateCanary(s: State, r: Request) {
    && r.expectedStateRevision == s.stateRevision && s.effective.mode.Shadow?
    && MaxKnown(s) < r.targetPolicyRevision <= MAX_SAFE
    && r.now.Some? && ValidFingerprint(r.configFingerprint) && ValidFingerprint(r.versionFingerprint)
       && ValidCanary(r.canary)
    && FindEvidence(s.evidence, r.eligibilityEvidenceId).Some?
    && var evidence := FindEvidence(s.evidence, r.eligibilityEvidenceId).value.core;
       && evidence.eligible && AllPassed(evidence.checks)
       && evidence.configFingerprint == r.configFingerprint && evidence.versionFingerprint == r.versionFingerprint
  }

  function WithActivation(s: State, r: Request): State {
    var revision := s.stateRevision + 1;
    s.(stateRevision := revision,
       effective := Effective(r.targetPolicyRevision, Active, r.configFingerprint, r.versionFingerprint,
                              Some(r.canary), Some(r.eligibilityEvidenceId)),
       lastKnownGood := s.effective,
       audit := Bounded(s.audit + [Audit(Activated, revision, r.targetPolicyRevision, "SCOPED_CANARY", r.now)],
                        MAX_AUDIT))
  }

  function ActivateCanary(p: Process, stored: Option<State>, r: Request, fault: Fault): Outcome {
    if !MayActivateCanary(p.state, r) then Outcome(p, stored, false)
    else
      var next := WithActivation(p.state, r);
      var saved := Save(stored, next, p.state.stateRevision, fault);
      if !saved.ok then Outcome(p, saved.stored, false)
      else
        var evidence := Some(FindEvidence(p.state.evidence, r.eligibilityEvidenceId).value.core);
        Outcome(p.(state := next, controller := Activate(p.controller, next.stateRevision, RuntimeActive, evidence)),
                saved.stored, MayActivate(p.controller, next.stateRevision, RuntimeActive, evidence))
  }

  function WithDowngrade(s: State, reason: string, now: Timestamp): State {
    var revision := s.stateRevision + 1;
    var effective := s.lastKnownGood.(mode := Shadow);
    s.(stateRevision := revision, effective := effective, lastKnownGood := effective,
       audit := Bounded(s.audit + [Audit(Downgraded, revision, effective.policyRevision, reason, now)], MAX_AUDIT))
  }

  /** The fail-safe: decisions are SHADOW from here on, and so is the controller if its revision lags. */
  function ForceShadow(p: Process, reason: string, revision: int): Process {
    p.(volatileShadow := Some(reason),
       controller := if p.controller.revision < revision then Activate(p.controller, revision, RuntimeShadow, None)
                     else p.controller)
  }

  predicate ValidDowngrade(reason: string, now: Timestamp) {
    ValidId(reason) && now.Some?
  }

  function Downgrade(p: Process, stored: Option<State>, reason: string, now: Timestamp, fault: Fault): Outcome {
    if !ValidDowngrade(reason, now) then Outcome(p, stored, false)
    else if p.state.effective.mode.Shadow? then Outcome(p, stored, true)
    else
      var next := WithDowngrade(p.state, reason, now);
      var saved := Save(stored, next, p.state.stateRevision, fault);
      if !saved.ok then Outcome(ForceShadow(p, reason, next.stateRevision), saved.stored, false)
      else
        var forced := ForceShadow(p.(state := next), reason, next.stateRevision);
        if p.controller.revision < next.stateRevision
           && !MayActivate(p.controller, next.stateRevision, RuntimeShadow, None)
        then Outcome(forced, saved.stored, false)
        else Outcome(forced.(volatileShadow := None), saved.stored, true)
  }

  /** New evidence is against the effective ACTIVE revision, or of another one. */
  predicate Degrades(e: Evidence, effective: Effective) {
    effective.mode.Active? && (!e.core.eligible || e.core.configFingerprint != effective.configFingerprint
                               || e.core.versionFingerprint != effective.versionFingerprint)
  }

  function ObserveEligibility(p: Process, stored: Option<State>, e: Evidence, now: Timestamp, recording: Fault,
                              downgrading: Fault): Outcome {
    var recorded := RecordEvidence(p, stored, e, recording);
    if !recorded.ok then
      recorded.(process := if p.state.effective.mode.Active?
                           then ForceShadow(p, "QUALITY_EVIDENCE_UNSAFE", p.state.stateRevision + 1) else p)
    else
      if Degrades(e, recorded.process.state.effective)
      then Downgrade(recorded.process, recorded.stored, "QUALITY_EVIDENCE_DEGRADED", now, downgrading)
      else recorded
  }

  function DowngradeReason(status: InjectionStatus): Option<string> {
    match status
    case Timeout => Some("ACTIVE_TIMEOUT")
    case ProviderError => Some("ACTIVE_PROVIDER_ERROR")
    case InvalidContext => Some("ACTIVE_INVALID_CONTEXT")
    case Injected => None
    case NoContext => None
  }

  function ObserveInjectionResult(p: Process, stored: Option<State>, d: Decision, status: InjectionStatus,
                                  now: Timestamp, fault: Fault): Outcome {
    if d.mode.Shadow? || p.state.effective.mode.Shadow? || d.policyRevision != p.state.effective.policyRevision
       || DowngradeReason(status).None?
    then Outcome(p, stored, true)
    else Downgrade(p, stored, DowngradeReason(status).value, now, fault)
  }

  predicate Selected(values: Option<seq<string>>, id: Option<string>) {
    values.Some? ==> id.Some? && id.value in values.value
  }

  /** `bucket` is the request's allocation hash modulo 10,000. */
  predicate RequestIncluded(c: Canary, scope: Scope, bucket: nat) {
    && Selected(c.projectIds, scope.projectId) && Selected(c.sessionIds, Some(scope.sessionId))
       && Selected(c.taskIds, scope.taskId)
    && (Percentage(c) == FULL_PERCENTAGE || bucket < Percentage(c))
  }

  predicate ValidScope(scope: Scope) {
    && ValidId(scope.sessionId) && ValidId(scope.turnId)
    && (scope.projectId.Some? ==> ValidId(scope.projectId.value))
       && (scope.taskId.Some? ==> ValidId(scope.taskId.value))
  }

  function Decide(p: Process, scope: Scope, bucket: nat): Option<Decision> {
    var revision, effective := p.state.stateRevision, p.state.effective;
    if !ValidScope(scope) then None
    else if p.volatileShadow.Some? then Some(Decision(revision, effective.policyRevision, Shadow, FailSafeShadow))
    else if effective.mode.Shadow? then Some(Decision(revision, effective.policyRevision, Shadow, ShadowMode))
    else if effective.canary.None? then None
    else if RequestIncluded(effective.canary.value, scope, bucket)
    then Some(Decision(revision, effective.policyRevision, Active, CanaryIncluded))
    else Some(Decision(revision, effective.policyRevision, Shadow, ScopeExcluded))
  }
}
