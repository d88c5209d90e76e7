/** Runs of rollout processes that share one store, with restarts and with saves that fail before or
    after they take effect. */
module RolloutRuns {
  import opened RolloutState
  import opened Wrappers

  // --- what every persisted state satisfies ------------------------------

  function AfterKind(k: AuditKind): AuditKind {
    if k.Activated? then Downgraded else Activated
  }

  /** ACTIVATED and DOWNGRADED alternate, after a bootstrap that may have been truncated away. */
  ghost predicate Alternates(audit: seq<Audit>) {
    forall i, j | 0 <= i < j < |audit| && j == i + 1 :: audit[j].kind == AfterKind(audit[i].kind)
  }

  ghost predicate HasEvidence(evidence: seq<Evidence>, id: EvidenceCore) {
    exists i :: 0 <= i < |evidence| && evidence[i].evidenceId == id
  }

  ghost predicate DistinctIds(evidence: seq<Evidence>) {
    forall i, j | 0 <= i < j < |evidence| :: evidence[i].evidenceId != evidence[j].evidenceId
  }

  /** An ACTIVE state names an evidence that passed and is bound to its revisions, and a canary. */
  ghost predicate Backed(e: Effective) {
    && e.evidenceId.Some? && e.canary.Some? && ValidCanary(e.canary.value)
    && e.evidenceId.value.eligible && AllPassed(e.evidenceId.value.checks)
    && e.evidenceId.value.configFingerprint == e.configFingerprint
       && e.evidenceId.value.versionFingerprint == e.versionFingerprint
    && Identified(e.evidenceId.value)
  }

  /** The service's checks of an evidence's ids are no weaker than the controller's. */
  ghost predicate Identified(e: EvidenceCore) {
    ValidId(e.datasetId) && 1 <= e.datasetVersion <= MAX_SAFE && ValidFingerprint(e.configFingerprint)
  }

  lemma IdentifiedConvinces(e: EvidenceCore)
    requires Identified(e)
    ensures Convincing(Some(e))
  {
    SafeIdsAreText(e.datasetId);
  }

  /** The newest audit entry tells the mode, and an ACTIVE revision is the greatest in view. */
  ghost predicate Audited(s: State) {
    && s.audit != [] && Alternates(s.audit) && s.lastKnownGood.mode.Shadow?
    && var last := s.audit[|s.audit| - 1];
       && (last.kind.Activated? <==> s.effective.mode.Active?)
       && (s.effective.mode.Active? ==> last.effectivePolicyRevision == s.effective.policyRevision == MaxKnown(s))
  }

  ghost predicate GoodState(s: State) {
    ValidState(s) && DistinctIds(s.evidence) && Audited(s) && (s.effective.mode.Active? ==> Backed(s.effective))
  }

  /** What a save makes of the effective and the last known good revision: an activation keeps what was
      effective before it as the last known good, a downgrade restores that in SHADOW and says so in the
      audit, and recorded evidence touches neither. */
  ghost predicate Carries(s: State, next: State) {
    if s.effective.mode.Shadow? && next.effective.mode.Active? then next.lastKnownGood == s.effective
    else if s.effective.mode.Active? && next.effective.mode.Shadow? then
      && next.effective == next.lastKnownGood == s.lastKnownGood.(mode := Shadow)
      && next.audit != [] && next.audit[|next.audit| - 1].kind.Downgraded?
      && next.audit[|next.audit| - 1].effectivePolicyRevision == s.lastKnownGood.policyRevision
    else next.effective == s.effective && next.lastKnownGood == s.lastKnownGood && next.audit == s.audit
  }

  /** What one save adds to the history. */
  ghost predicate Moves(s: State, next: State) {
    && Carries(s, next) && next.stateRevision == s.stateRevision + 1
    && MaxKnown(next) == Max(MaxKnown(s), next.effective.policyRevision)
    && (s.effective.mode.Shadow? && next.effective.mode.Active? ==> next.effective.policyRevision > MaxKnown(s))
  }

  ghost predicate Advances(s: State, next: State) {
    GoodState(next) && Moves(s, next)
  }

  function Max(a: int, b: int): int {
    if a >= b then a else b
  }

  lemma {:induction false} DropFirst(audit: seq<Audit>)
    requires audit != []
    ensures MaxAudited(audit[1..]) <= MaxAudited(audit)
  {
    if |audit| > 1 {
      DropFirst(audit[..|audit| - 1]);
      assert audit[1..][..|audit| - 2] == audit[..|audit| - 1][1..];
    }
  }

  lemma {:induction false} MaxOfSuffix(audit: seq<Audit>, n: nat)
    requires n <= |audit|
    ensures MaxAudited(audit[n..]) <= MaxAudited(audit)
  {
    if n > 0 {
      MaxOfSuffix(audit, n - 1);
      DropFirst(audit[n - 1..]);
      assert audit[n - 1..][1..] == audit[n..];
    } else {
      assert audit[0..] == audit;
    }
  }

  lemma {:induction false} MaxIsUpper(audit: seq<Audit>, i: nat)
    requires i < |audit|
    ensures audit[i].effectivePolicyRevision <= MaxAudited(audit)
  {
    if i < |audit| - 1 {
      MaxIsUpper(audit[..|audit| - 1], i);
    }
  }

  lemma MaxAppends(audit: seq<Audit>, a: Audit)
    ensures MaxAudited(audit + [a]) == Max(MaxAudited(audit), a.effectivePolicyRevision)
  {
    assert (audit + [a])[..|audit|] == audit;
  }

  lemma StillAlternates(audit: seq<Audit>, a: Audit)
    requires Alternates(audit) && audit != [] && a.kind == AfterKind(audit[|audit| - 1].kind)
    ensures Alternates(Bounded(audit + [a], MAX_AUDIT))
  {
    var all, kept := audit + [a], Bounded(audit + [a], MAX_AUDIT);
    var k := |all| - |kept|;
    forall i, j | 0 <= i < j < |kept| && j == i + 1 ensures kept[j].kind == AfterKind(kept[i].kind) {
      assert kept[i] == all[k + i] && kept[j] == all[k + j];
    }
  }

  /** Whatever truncation drops, the newest two entries stay in view. */
  lemma AppendedAudit(audit: seq<Audit>, a: Audit)
    requires Alternates(audit) && audit != [] && a.kind == AfterKind(audit[|audit| - 1].kind)
    ensures var next := Bounded(audit + [a], MAX_AUDIT);
            && Alternates(next) && next != [] && next[|next| - 1] == a
            && MaxAudited(next) <= Max(MaxAudited(audit), a.effectivePolicyRevision)
            && MaxAudited(next) >= Max(audit[|audit| - 1].effectivePolicyRevision, a.effectivePolicyRevision)
  {
    var next := Bounded(audit + [a], MAX_AUDIT);
    StillAlternates(audit, a);
    MaxAppends(audit, a);
    if |audit| < MAX_AUDIT {
      MaxIsUpper(audit, |audit| - 1);
    } else {
      assert next == (audit + [a])[|audit| + 1 - MAX_AUDIT..];
      MaxOfSuffix(audit + [a], |audit| + 1 - MAX_AUDIT);
      assert next[|next| - 2] == audit[|audit| - 1];
      MaxIsUpper(next, |next| - 2);
      MaxIsUpper(next, |next| - 1);
    }
  }

  lemma {:induction false} FindsIt(evidence: seq<Evidence>, id: EvidenceCore)
    ensures FindEvidence(evidence, id).Some? <==> HasEvidence(evidence, id)
    ensures FindEvidence(evidence, id).Some? ==>
              FindEvidence(evidence, id).value in evidence && FindEvidence(evidence, id).value.evidenceId == id
  {
    if evidence != [] {
      FindsIt(evidence[1..], id);
      if HasEvidence(evidence, id) && evidence[0].evidenceId != id {
        var i :| 0 <= i < |evidence| && evidence[i].evidenceId == id;
        assert evidence[1..][i - 1].evidenceId == id;
      }
      if HasEvidence(evidence[1..], id) {
        var i :| 0 <= i < |evidence[1..]| && evidence[1..][i].evidenceId == id;
        assert evidence[i + 1].evidenceId == id;
      }
    }
  }

  lemma BootstrapIsGood(b: Bootstrap)
    requires ValidBootstrap(b)
    ensures GoodState(BootstrapState(b)) && MaxKnown(BootstrapState(b)) == b.policyRevision
  {
    MaxAppends([], BootstrapState(b).audit[0]);
    assert [] + BootstrapState(b).audit == BootstrapState(b).audit;
  }

  lemma RecordingKeepsDistinct(evidence: seq<Evidence>, e: Evidence)
    requires DistinctIds(evidence) && FindEvidence(evidence, e.evidenceId).None?
    ensures DistinctIds(Bounded(evidence + [e], MAX_EVIDENCE))
  {
    FindsIt(evidence, e.evidenceId);
  }

  lemma RecordAdvances(s: State, e: Evidence)
    requires GoodState(s) && FindEvidence(s.evidence, e.evidenceId).None? && ValidState(WithEvidence(s, e))
    ensures Advances(s, WithEvidence(s, e))
  {
    RecordingKeepsDistinct(s.evidence, e);
    assert Audited(WithEvidence(s, e));
  }

  lemma AppendedActivation(audit: seq<Audit>, a: Audit)
    requires Alternates(audit) && audit != [] && !audit[|audit| - 1].kind.Activated?
    requires a.kind.Activated? && a.effectivePolicyRevision > MaxAudited(audit)
    ensures var next := Bounded(audit + [a], MAX_AUDIT);
            next != [] && Alternates(next) && next[|next| - 1] == a && MaxAudited(next) == a.effectivePolicyRevision
  {
    AppendedAudit(audit, a);
  }

  lemma ActivationIsAudited(s: State, r: Request)
    requires Audited(s) && s.effective.mode.Shadow? && r.targetPolicyRevision > MaxKnown(s)
    ensures Audited(WithActivation(s, r)) && MaxKnown(WithActivation(s, r)) == r.targetPolicyRevision
  {
    AppendedActivation(s.audit, Audit(Activated, s.stateRevision + 1, r.targetPolicyRevision, "SCOPED_CANARY", r.now));
  }

  lemma ActivationIsBacked(s: State, r: Request)
    requires ValidState(s) && MayActivateCanary(s, r)
    ensures Backed(WithActivation(s, r).effective)
    ensures FindEvidence(s.evidence, r.eligibilityEvidenceId).value.core == r.eligibilityEvidenceId
  {
    FindsIt(s.evidence, r.eligibilityEvidenceId);
    assert ValidEvidence(FindEvidence(s.evidence, r.eligibilityEvidenceId).value);
  }

  lemma ActivationAdvances(s: State, r: Request)
    requires GoodState(s) && MayActivateCanary(s, r) && ValidState(WithActivation(s, r))
    ensures Advances(s, WithActivation(s, r))
    ensures Convincing(Some(FindEvidence(s.evidence, r.eligibilityEvidenceId).value.core))
  {
    ActivationIsAudited(s, r);
    ActivationIsBacked(s, r);
    IdentifiedConvinces(r.eligibilityEvidenceId);
  }

  /** A downgrade keeps the greatest policy revision in view: the activation it undoes is the entry
      before its own. */
  lemma DowngradeIsAudited(s: State, reason: string, now: Timestamp)
    requires Audited(s) && s.effective.mode.Active?
    ensures Audited(WithDowngrade(s, reason, now)) && MaxKnown(WithDowngrade(s, reason, now)) == MaxKnown(s)
    ensures WithDowngrade(s, reason, now).effective.policyRevision <= MaxKnown(s)
  {
    AppendedAudit(s.audit, Audit(Downgraded, s.stateRevision + 1, s.lastKnownGood.policyRevision, reason, now));
  }

  lemma DowngradeAdvances(s: State, reason: string, now: Timestamp)
    requires GoodState(s) && s.effective.mode.Active? && ValidState(WithDowngrade(s, reason, now))
    ensures Advances(s, WithDowngrade(s, reason, now))
  {
    DowngradeIsAudited(s, reason, now);
  }

  // --- what every process satisfies --------------------------------------

  /** The controller follows the process: it is ACTIVE exactly when the state is and no volatile shadow
      is set, except that a shadow forced at the last revision cannot reach it. */
  ghost predicate GoodProcess(p: Process) {
    && GoodState(p.state)
    && (p.volatileShadow.Some? ==> p.state.effective.mode.Active?)
    && 1 <= p.controller.revision <= p.state.stateRevision + (if p.volatileShadow.Some? then 1 else 0)
    && p.controller.revision <= MAX_SAFE && !p.controller.mode.RuntimeOff?
    && (p.controller.mode.RuntimeActive? ==>
          p.state.effective.mode.Active? && p.controller.revision <= p.state.stateRevision)
    && (p.state.effective.mode.Active? && p.volatileShadow.None? ==> p.controller.mode.RuntimeActive?)
    && (p.volatileShadow.Some? && p.state.stateRevision < MAX_SAFE ==> p.controller.mode.RuntimeShadow?)
  }

  /** An operation leaves the store and the state alone, or saves one state that advances. */
  ghost predicate Follows(p: Process, stored: Option<State>, o: Outcome) {
    || (o.stored == stored && o.process.state == p.state)
    || (&& o.stored.Some? && Accepts(stored, o.stored.value, p.state.stateRevision) && Advances(p.state, o.stored.value)
        && (o.process.state == p.state || o.process.state == o.stored.value))
  }

  lemma RecordFollows(p: Process, stored: Option<State>, e: Evidence, fault: Fault)
    requires GoodProcess(p)
    ensures var o := RecordEvidence(p, stored, e, fault); GoodProcess(o.process) && Follows(p, stored, o)
  {
    var next := WithEvidence(p.state, e);
    if FindEvidence(p.state.evidence, e.evidenceId).None? && ValidEvidence(e)
       && Accepts(stored, next, p.state.stateRevision) {
      RecordAdvances(p.state, e);
    }
  }

  /** An activation whose save succeeds always reaches the controller. */
  lemma ActivationFollows(p: Process, stored: Option<State>, r: Request, fault: Fault)
    requires GoodProcess(p)
    ensures var o := ActivateCanary(p, stored, r, fault);
            && GoodProcess(o.process) && Follows(p, stored, o)
            && (o.ok <==> o.process != p)
            && (o.ok ==> o.process.controller == Controller(p.state.stateRevision + 1, RuntimeActive))
  {
    var next := WithActivation(p.state, r);
    if MayActivateCanary(p.state, r) && Accepts(stored, next, p.state.stateRevision) {
      ActivationAdvances(p.state, r);
    }
  }

  lemma ForceShadowKeeps(p: Process, reason: string)
    requires GoodProcess(p) && p.state.effective.mode.Active?
    ensures GoodProcess(ForceShadow(p, reason, p.state.stateRevision + 1))
  {
  }

  lemma DowngradeFollows(p: Process, stored: Option<State>, reason: string, now: Timestamp, fault: Fault)
    requires GoodProcess(p)
    ensures var o := Downgrade(p, stored, reason, now, fault); GoodProcess(o.process) && Follows(p, stored, o)
  {
    if ValidDowngrade(reason, now) && p.state.effective.mode.Active? {
      ForceShadowKeeps(p, reason);
      var next := WithDowngrade(p.state, reason, now);
      if Accepts(stored, next, p.state.stateRevision) {
        DowngradeAdvances(p.state, reason, now);
      }
    }
  }

  /** Observing an evidence records it and may then downgrade: two saves, one after the other. */
  lemma EligibilityFollows(p: Process, stored: Option<State>, e: Evidence, now: Timestamp, recording: Fault,
                           downgrading: Fault)
    requires GoodProcess(p)
    ensures var recorded := RecordEvidence(p, stored, e, recording);
            var o := ObserveEligibility(p, stored, e, now, recording, downgrading);
            && GoodProcess(recorded.process) && Follows(p, stored, recorded)
            && GoodProcess(o.process)
            && (recorded.ok ==> Follows(recorded.process, recorded.stored, o))
            && (!recorded.ok ==> o.stored == recorded.stored && o.process.state == p.state)
  {
    RecordFollows(p, stored, e, recording);
    var recorded := RecordEvidence(p, stored, e, recording);
    if recorded.ok {
      DowngradeFollows(recorded.process, recorded.stored, "QUALITY_EVIDENCE_DEGRADED", now, downgrading);
    } else if p.state.effective.mode.Active? {
      ForceShadowKeeps(p, "QUALITY_EVIDENCE_UNSAFE");
    }
  }

  lemma InjectionResultFollows(p: Process, stored: Option<State>, d: Decision, status: InjectionStatus,
                               now: Timestamp, fault: Fault)
    requires GoodProcess(p)
    ensures var o := ObserveInjectionResult(p, stored, d, status, now, fault);
            GoodProcess(o.process) && Follows(p, stored, o)
  {
    if DowngradeReason(status).Some? {
      DowngradeFollows(p, stored, DowngradeReason(status).value, now, fault);
    }
  }

  lemma HydrateIsGood(s: State)
    requires GoodState(s)
    ensures Hydrate(s).Some? ==> GoodProcess(Hydrate(s).value) && Hydrate(s).value.state == s
  {
  }

  // --- rehydration -------------------------------------------------------

  /** A persisted state that runs can reach comes back after a restart exactly if it is SHADOW or its
      evidence is still in the list. */
  lemma ComesBackExactly(s: State)
    requires GoodState(s)
    ensures Hydrate(s).Some? <==> (s.effective.mode.Active? ==> HasEvidence(s.evidence, s.effective.evidenceId.value))
  {
    if s.effective.mode.Active? {
      FindsIt(s.evidence, s.effective.evidenceId.value);
      if HasEvidence(s.evidence, s.effective.evidenceId.value) {
        assert ValidEvidence(FindEvidence(s.evidence, s.effective.evidenceId.value).value);
        IdentifiedConvinces(s.effective.evidenceId.value);
      }
    }
  }

  /** Recording another evidence loses that of the active revision exactly if the list is full and it
      is the oldest. */
  lemma LostExactly(s: State, e: Evidence)
    requires GoodState(s) && s.effective.mode.Active? && FindEvidence(s.evidence, e.evidenceId).None?
    requires HasEvidence(s.evidence, s.effective.evidenceId.value)
    ensures HasEvidence(WithEvidence(s, e).evidence, s.effective.evidenceId.value)
            <==> !(|s.evidence| == MAX_EVIDENCE && s.evidence[0].evidenceId == s.effective.evidenceId.value)
  {
    var id := s.effective.evidenceId.value;
    var i :| 0 <= i < |s.evidence| && s.evidence[i].evidenceId == id;
    FindsIt(s.evidence, e.evidenceId);
    var list := WithEvidence(s, e).evidence;
    if |s.evidence| < MAX_EVIDENCE {
      assert list[i].evidenceId == id;
    } else if i > 0 {
      assert list[i - 1].evidenceId == id;
    } else {
      forall k | 0 <= k < |list| ensures list[k].evidenceId != id {
        assert list[k] == (s.evidence + [e])[k + 1];
      }
    }
  }

  // --- runs --------------------------------------------------------------

  /** `history` holds every state that was ever stored, in order. */
  datatype World = World(stored: Option<State>, history: seq<State>, processes: map<nat, Process>)

  datatype Action =
    | Start(id: nat, bootstrap: Bootstrap, fault: Fault)
    | Crash(id: nat)
    | Recording(id: nat, evidence: Evidence, fault: Fault)
    | Activating(id: nat, request: Request, fault: Fault)
    | Downgrading(id: nat, reason: string, now: Timestamp, fault: Fault)
    | ObservingEligibility(id: nat, evidence: Evidence, now: Timestamp, recording: Fault, downgrading: Fault)
    | ObservingResult(id: nat, decision: Decision, status: InjectionStatus, now: Timestamp, fault: Fault)

  function Extend(history: seq<State>, before: Option<State>, after: Option<State>): seq<State> {
    if after == before || after.None? then history else history + [after.value]
  }

  function Apply(w: World, id: nat, o: Outcome): World {
    World(o.stored, Extend(w.history, w.stored, o.stored), w.processes[id := o.process])
  }

  /** The outcome of an operation, seen from its last save. */
  function OutcomeOf(p: Process, stored: Option<State>, a: Action): Outcome
    requires !a.Start? && !a.Crash?
  {
    match a
    case Recording(_, e, fault) => RecordEvidence(p, stored, e, fault)
    case Activating(_, r, fault) => ActivateCanary(p, stored, r, fault)
    case Downgrading(_, reason, now, fault) => Downgrade(p, stored, reason, now, fault)
    case ObservingEligibility(_, e, now, recording, downgrading) =>
      ObserveEligibility(p, stored, e, now, recording, downgrading)
    case ObservingResult(_, d, status, now, fault) => ObserveInjectionResult(p, stored, d, status, now, fault)
  }

  function Step(w: World, a: Action): World {
    if a.Start? then
      var booted := Boot(w.stored, a.bootstrap, a.fault);
      World(booted.stored, Extend(w.history, w.stored, booted.stored),
            if booted.process.Some? then w.processes[a.id := booted.process.value] else w.processes)
    else if a.Crash? then w.(processes := w.processes - {a.id})
    else if a.id !in w.processes then w
    else
      var p := w.processes[a.id];
      if a.ObservingEligibility? then
        var recorded := Apply(w, a.id, RecordEvidence(p, w.stored, a.evidence, a.recording));
        Apply(recorded, a.id, OutcomeOf(p, w.stored, a))
      else Apply(w, a.id, OutcomeOf(p, w.stored, a))
  }

  function Run(w: World, schedule: seq<Action>): World
    decreases |schedule|
  {
    if schedule == [] then w else Run(Step(w, schedule[0]), schedule[1..])
  }

  function Empty(): World {
    World(None, [], map[])
  }

  /** The greatest policy revision that was effective in the first `n` states. */
  function Peak(history: seq<State>, n: nat): int
    requires n <= |history|
  {
    if n == 0 then 0 else Max(Peak(history, n - 1), history[n - 1].effective.policyRevision)
  }

  ghost predicate GoodHistory(history: seq<State>) {
    && (forall i | 0 <= i < |history| :: GoodState(history[i]) && history[i].stateRevision == i + 1)
    && (forall i, j | 0 <= i < j < |history| && j == i + 1 :: Moves(history[i], history[j]))
    && (history != [] ==>
          MaxKnown(history[0]) == history[0].effective.policyRevision >= 1 && history[0].effective.mode.Shadow?)
  }

  ghost predicate Known(history: seq<State>, p: Process) {
    GoodProcess(p) && p.state.stateRevision <= |history| && history[p.state.stateRevision - 1] == p.state
  }

  ghost predicate AllKnown(history: seq<State>, processes: map<nat, Process>) {
    forall id | id in processes :: Known(history, processes[id])
  }

  ghost predicate Inv(w: World) {
    && GoodHistory(w.history)
    && w.stored == (if w.history == [] then None else Some(w.history[|w.history| - 1]))
    && AllKnown(w.history, w.processes)
  }

  lemma HistoryGrows(history: seq<State>, next: State)
    requires GoodHistory(history) && history != [] && Advances(history[|history| - 1], next)
    ensures GoodHistory(history + [next])
  {
  }

  lemma KnownLasts(history: seq<State>, more: seq<State>, p: Process)
    requires Known(history, p) && history <= more && 1 <= p.state.stateRevision
    ensures Known(more, p)
  {
  }

  lemma AllKnownLasts(history: seq<State>, more: seq<State>, processes: map<nat, Process>, id: nat, p: Process)
    requires AllKnown(history, processes) && history <= more && Known(more, p)
    ensures AllKnown(more, processes[id := p])
  {
    forall other | other in processes && other != id ensures Known(more, processes[other]) {
      KnownLasts(history, more, processes[other]);
    }
  }

  /** A save that is accepted comes from a process that holds the newest state. */
  lemma SavesTheNewest(history: seq<State>, p: Process, stored: Option<State>, o: Outcome)
    requires GoodHistory(history) && stored == (if history == [] then None else Some(history[|history| - 1]))
    requires Known(history, p) && Follows(p, stored, o) && o.stored != stored
    ensures history != [] && history[|history| - 1] == p.state && o.stored.Some? && Advances(p.state, o.stored.value)
  {
  }

  lemma ExtendedHistory(history: seq<State>, p: Process, stored: Option<State>, o: Outcome)
    requires GoodHistory(history) && stored == (if history == [] then None else Some(history[|history| - 1]))
    requires Known(history, p) && Follows(p, stored, o)
    ensures var next := Extend(history, stored, o.stored);
            && history <= next && GoodHistory(next)
            && o.stored == (if next == [] then None else Some(next[|next| - 1]))
  {
    if o.stored != stored {
      SavesTheNewest(history, p, stored, o);
      HistoryGrows(history, o.stored.value);
    }
  }

  lemma OutcomeIsKnown(history: seq<State>, p: Process, stored: Option<State>, o: Outcome)
    requires GoodHistory(history) && stored == (if history == [] then None else Some(history[|history| - 1]))
    requires Known(history, p) && Follows(p, stored, o) && GoodProcess(o.process)
    ensures Known(Extend(history, stored, o.stored), o.process)
  {
    if o.stored != stored {
      SavesTheNewest(history, p, stored, o);
    }
  }

  lemma SaveKeepsInv(w: World, id: nat, p: Process, o: Outcome)
    requires Inv(w) && Known(w.history, p) && Follows(p, w.stored, o) && GoodProcess(o.process)
    ensures Inv(Apply(w, id, o)) && Known(Apply(w, id, o).history, o.process)
  {
    ExtendedHistory(w.history, p, w.stored, o);
    OutcomeIsKnown(w.history, p, w.stored, o);
    AllKnownLasts(w.history, Apply(w, id, o).history, w.processes, id, o.process);
  }

  /** The first save of all. */
  lemma BootstrapKeepsInv(w: World, b: Bootstrap)
    requires Inv(w) && w.stored.None? && ValidBootstrap(b)
    ensures Inv(w.(stored := Some(BootstrapState(b)), history := [BootstrapState(b)], processes := map[]))
    ensures w.history == [] && w.processes.Keys == {}
  {
    BootstrapIsGood(b);
  }

  lemma ProcessKeepsInv(w: World, id: nat, p: Process)
    requires Inv(w) && Known(w.history, p)
    ensures Inv(w.(processes := w.processes[id := p]))
  {
  }

  lemma FirstBoot(b: Bootstrap, fault: Fault)
    requires ValidBootstrap(b)
    ensures var booted := Boot(None, b, fault);
            || booted == Booted(None, None)
            || booted == Booted(None, Some(BootstrapState(b)))
            || booted == Booted(Hydrate(BootstrapState(b)), Some(BootstrapState(b)))
  {
  }

  lemma FirstStartKeepsInv(w: World, id: nat, b: Bootstrap, fault: Fault)
    requires Inv(w) && w.stored.None? && ValidBootstrap(b)
    ensures Inv(Step(w, Start(id, b, fault)))
  {
    BootstrapKeepsInv(w, b);
    FirstBoot(b, fault);
    assert w.processes == map[];
    var saved := w.(stored := Some(BootstrapState(b)), history := [BootstrapState(b)], processes := map[]);
    var p := Hydrate(BootstrapState(b));
    HydrateIsGood(BootstrapState(b));
    if p.Some? {
      ProcessKeepsInv(saved, id, p.value);
    }
  }

  lemma LaterStartKeepsInv(w: World, id: nat, b: Bootstrap, fault: Fault)
    requires Inv(w) && w.stored.Some?
    ensures Inv(Step(w, Start(id, b, fault)))
  {
    HydrateIsGood(w.stored.value);
    var p := Hydrate(w.stored.value);
    if p.Some? {
      ProcessKeepsInv(w, id, p.value);
    }
  }

  lemma StartKeepsInv(w: World, a: Action)
    requires Inv(w) && a.Start?
    ensures Inv(Step(w, a))
  {
    if w.stored.Some? {
      LaterStartKeepsInv(w, a.id, a.bootstrap, a.fault);
    } else if ValidBootstrap(a.bootstrap) {
      FirstStartKeepsInv(w, a.id, a.bootstrap, a.fault);
    }
  }

  /** Two operations of one process, one after the other. */
  lemma TwoSavesKeepInv(w: World, id: nat, p: Process, recorded: Outcome, o: Outcome)
    requires Inv(w) && Known(w.history, p)
    requires Follows(p, w.stored, recorded) && GoodProcess(recorded.process) && GoodProcess(o.process)
    requires Follows(recorded.process, recorded.stored, o)
             || (o.stored == recorded.stored && o.process.state == p.state)
    ensures Inv(Apply(Apply(w, id, recorded), id, o))
  {
    var middle := Apply(w, id, recorded);
    SaveKeepsInv(w, id, p, recorded);
    if Follows(recorded.process, recorded.stored, o) {
      SaveKeepsInv(middle, id, recorded.process, o);
    } else {
      SaveKeepsInv(middle, id, p, o);
    }
  }

  lemma ObservingKeepsInv(w: World, a: Action)
    requires Inv(w) && a.ObservingEligibility? && a.id in w.processes
    ensures Inv(Step(w, a))
  {
    var p := w.processes[a.id];
    EligibilityFollows(p, w.stored, a.evidence, a.now, a.recording, a.downgrading);
    TwoSavesKeepInv(w, a.id, p, RecordEvidence(p, w.stored, a.evidence, a.recording), OutcomeOf(p, w.stored, a));
  }

  lemma StepKeepsInv(w: World, a: Action)
    requires Inv(w)
    ensures Inv(Step(w, a))
  {
    if a.Start? {
      StartKeepsInv(w, a);
    } else if !a.Crash? && a.id in w.processes {
      var p := w.processes[a.id];
      match a
      case Recording(_, e, fault) =>
        RecordFollows(p, w.stored, e, fault);
        SaveKeepsInv(w, a.id, p, OutcomeOf(p, w.stored, a));
      case Activating(_, r, fault) =>
        ActivationFollows(p, w.stored, r, fault);
        SaveKeepsInv(w, a.id, p, OutcomeOf(p, w.stored, a));
      case Downgrading(_, reason, now, fault) =>
        DowngradeFollows(p, w.stored, reason, now, fault);
        SaveKeepsInv(w, a.id, p, OutcomeOf(p, w.stored, a));
      case ObservingEligibility(_, _, _, _, _) => ObservingKeepsInv(w, a);
      case ObservingResult(_, d, status, now, fault) =>
        InjectionResultFollows(p, w.stored, d, status, now, fault);
        SaveKeepsInv(w, a.id, p, OutcomeOf(p, w.stored, a));
    }
  }

  lemma StepKeepsHistory(w: World, a: Action)
    ensures w.history <= Step(w, a).history
  {
  }

  /** Over every run of processes that share the store, crash, restart and see saves fail, states are
      sound, every process has a controller that follows it, and what was stored stays history. */
  lemma {:induction false} RunKeepsInv(w: World, schedule: seq<Action>)
    requires Inv(w)
    ensures Inv(Run(w, schedule)) && w.history <= Run(w, schedule).history
    decreases |schedule|
  {
    if schedule != [] {
      StepKeepsInv(w, schedule[0]);
      StepKeepsHistory(w, schedule[0]);
      RunKeepsInv(Step(w, schedule[0]), schedule[1..]);
    }
  }

  /** In every reachable world the controller of a process is ACTIVE exactly when the state is and no
      volatile shadow is set, up to the last safe state revision; its revision is at most one ahead. */
  lemma ControllerFollowsTheState(schedule: seq<Action>, id: nat)
    requires id in Run(Empty(), schedule).processes
    ensures var p := Run(Empty(), schedule).processes[id];
            && p.controller.revision <= p.state.stateRevision + 1
            && (p.controller.mode.RuntimeActive? ==> p.state.effective.mode.Active?)
            && (p.state.stateRevision < MAX_SAFE ==>
                  (p.controller.mode.RuntimeActive? <==> p.state.effective.mode.Active? && p.volatileShadow.None?))
  {
    RunKeepsInv(Empty(), schedule);
  }

  // --- policy revisions --------------------------------------------------

  /** Although the audit is truncated, the greatest policy revision ever effective stays in view. */
  lemma {:induction false} TheMaximumStaysInView(history: seq<State>, n: nat)
    requires GoodHistory(history) && 1 <= n <= |history|
    ensures MaxKnown(history[n - 1]) == Peak(history, n)
  {
    if n > 1 {
      TheMaximumStaysInView(history, n - 1);
      assert Moves(history[n - 2], history[n - 1]);
    } else {
      assert Peak(history, 0) == 0;
    }
  }

  lemma {:induction false} PeakIsUpper(history: seq<State>, n: nat, i: nat)
    requires i < n <= |history|
    ensures history[i].effective.policyRevision <= Peak(history, n)
  {
    if i < n - 1 {
      PeakIsUpper(history, n - 1, i);
    }
  }

  /** Every activation that takes effect has a policy revision above all that were effective before. */
  lemma ActivationsAlwaysIncrease(schedule: seq<Action>, i: nat, j: nat)
    requires var history := Run(Empty(), schedule).history;
             i < j < |history| && history[j].effective.mode.Active? && history[j - 1].effective.mode.Shadow?
    ensures var history := Run(Empty(), schedule).history;
            history[j].effective.policyRevision > history[i].effective.policyRevision
  {
    RunKeepsInv(Empty(), schedule);
    var history := Run(Empty(), schedule).history;
    TheMaximumStaysInView(history, j);
    PeakIsUpper(history, j, i);
    assert Moves(history[j - 1], history[j]);
  }

  // --- the fail-safe -----------------------------------------------------

  ghost predicate ShadowOnly(p: Process) {
    p.volatileShadow.Some? || p.state.effective.mode.Shadow?
  }

  lemma ShadowOnlyDecidesShadow(p: Process, scope: Scope, bucket: nat)
    requires ShadowOnly(p)
    ensures Decide(p, scope, bucket).Some? <==> ValidScope(scope)
    ensures Decide(p, scope, bucket).Some? ==> Decide(p, scope, bucket).value.mode.Shadow?
  {
  }

  /** A request is let through exactly if its scope is in the canary of an ACTIVE state without a volatile
      shadow; the controller is then ACTIVE too. */
  lemma DecidesActiveExactly(p: Process, scope: Scope, bucket: nat)
    requires GoodProcess(p) && ValidScope(scope)
    ensures Decide(p, scope, bucket).Some?
    ensures Decide(p, scope, bucket).value.mode.Active?
            <==> !ShadowOnly(p) && RequestIncluded(p.state.effective.canary.value, scope, bucket)
    ensures Decide(p, scope, bucket).value.mode.Active? ==> p.controller.mode.RuntimeActive?
  {
  }

  /** A validated downgrade leaves the process shadow-only, whatever its save does. It stops the
      controller except at the last safe state revision. */
  lemma DowngradeFailsSafe(p: Process, stored: Option<State>, reason: string, now: Timestamp, fault: Fault)
    requires GoodProcess(p) && !ShadowOnly(p) && ValidDowngrade(reason, now)
    ensures var after := Downgrade(p, stored, reason, now, fault).process;
            ShadowOnly(after) && (after.controller.mode.RuntimeActive? <==> p.state.stateRevision == MAX_SAFE)
  {
    DowngradeFollows(p, stored, reason, now, fault);
  }

  /** An evidence that cannot be recorded makes an ACTIVE process shadow-only. */
  lemma UnrecordedEvidenceFailsSafe(p: Process, stored: Option<State>, e: Evidence, now: Timestamp, recording: Fault,
                                    downgrading: Fault)
    requires !RecordEvidence(p, stored, e, recording).ok
    ensures ShadowOnly(ObserveEligibility(p, stored, e, now, recording, downgrading).process)
  {
  }

  /** The process is not replaced and none of its activations succeeds. */
  ghost predicate StaysDown(w: World, id: nat, schedule: seq<Action>)
    decreases |schedule|
  {
    schedule == []
    || (&& (schedule[0].Start? || schedule[0].Crash? ==> schedule[0].id != id)
        && (schedule[0].Activating? && schedule[0].id == id && id in w.processes ==>
              !OutcomeOf(w.processes[id], w.stored, schedule[0]).ok)
        && StaysDown(Step(w, schedule[0]), id, schedule[1..]))
  }

  /** Once shadow-only, a process decides SHADOW until it activates successfully. */
  lemma {:induction false} ShadowLastsUntilActivation(w: World, id: nat, schedule: seq<Action>)
    requires Inv(w) && id in w.processes && ShadowOnly(w.processes[id]) && StaysDown(w, id, schedule)
    ensures id in Run(w, schedule).processes && ShadowOnly(Run(w, schedule).processes[id])
    decreases |schedule|
  {
    if schedule != [] {
      StepKeepsInv(w, schedule[0]);
      StepKeepsShadow(w, id, schedule[0]);
      ShadowLastsUntilActivation(Step(w, schedule[0]), id, schedule[1..]);
    }
  }

  lemma DowngradeKeepsShadow(p: Process, stored: Option<State>, reason: string, now: Timestamp, fault: Fault)
    requires ShadowOnly(p)
    ensures ShadowOnly(Downgrade(p, stored, reason, now, fault).process)
  {
  }

  lemma OutcomeKeepsShadow(p: Process, stored: Option<State>, a: Action)
    requires !a.Start? && !a.Crash? && GoodProcess(p) && ShadowOnly(p)
    requires a.Activating? ==> !OutcomeOf(p, stored, a).ok
    ensures ShadowOnly(OutcomeOf(p, stored, a).process)
  {
    match a
    case Recording(_, e, fault) =>
    case Activating(_, r, fault) => ActivationFollows(p, stored, r, fault);
    case Downgrading(_, reason, now, fault) => DowngradeKeepsShadow(p, stored, reason, now, fault);
    case ObservingEligibility(_, e, now, recording, downgrading) =>
      var recorded := RecordEvidence(p, stored, e, recording);
      DowngradeKeepsShadow(recorded.process, recorded.stored, "QUALITY_EVIDENCE_DEGRADED", now, downgrading);
    case ObservingResult(_, d, status, now, fault) =>
      if DowngradeReason(status).Some? {
        DowngradeKeepsShadow(p, stored, DowngradeReason(status).value, now, fault);
      }
  }

  lemma StepsOfAProcess(w: World, id: nat, a: Action)
    requires id in w.processes && (a.Start? || a.Crash? ==> a.id != id)
    ensures var next := Step(w, a);
            && id in next.processes
            && (a.id != id ==> next.processes[id] == w.processes[id])
            && (a.id == id ==> next.processes[id] == OutcomeOf(w.processes[id], w.stored, a).process)
  {
  }

  lemma StepKeepsShadow(w: World, id: nat, a: Action)
    requires Inv(w) && id in w.processes && ShadowOnly(w.processes[id])
    requires a.Start? || a.Crash? ==> a.id != id
    requires a.Activating? && a.id == id ==> !OutcomeOf(w.processes[id], w.stored, a).ok
    ensures id in Step(w, a).processes && ShadowOnly(Step(w, a).processes[id])
  {
    StepsOfAProcess(w, id, a);
    if !a.Start? && !a.Crash? && a.id == id {
      OutcomeKeepsShadow(w.processes[id], w.stored, a);
    }
  }
}
