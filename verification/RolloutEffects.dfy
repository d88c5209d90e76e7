/** What the operations of the rollout mean, over whole histories and in terms of the fields that are
    stored: what a downgrade restores, when an activation succeeds, what an evidence or an injection result
    does to a process, and which requests a canary lets through. */
module RolloutEffects {
  import opened RolloutState
  import opened RolloutRuns
  import opened Wrappers

  // --- what a downgrade restores -----------------------------------------

  /** State `a` was SHADOW, the next one was activated, and all from there up to `b` are ACTIVE. */
  ghost predicate ActiveSince(history: seq<State>, a: nat, b: nat) {
    && a < b < |history| && history[a].effective.mode.Shadow?
    && (forall k | a < k <= b :: history[k].effective.mode.Active?)
  }

  /** While a revision is ACTIVE, what was effective before it stays the last known good, and evidence that
      is recorded changes nothing else. */
  lemma {:induction false} KnownGoodStays(history: seq<State>, a: nat, b: nat)
    requires GoodHistory(history) && ActiveSince(history, a, b)
    ensures history[b].lastKnownGood == history[a].effective
    ensures history[b].effective == history[a + 1].effective && history[b].audit == history[a + 1].audit
    decreases b
  {
    if b > a + 1 {
      KnownGoodStays(history, a, b - 1);
      assert Moves(history[b - 1], history[b]);
    } else {
      assert Moves(history[a], history[b]);
    }
  }

  /** In every run, a downgrade restores the very revision that was effective just before the activation:
      its policy revision, fingerprints, canary and evidence, in SHADOW, as effective and last known good,
      and the newest audit entry names it. */
  lemma DowngradeRestores(schedule: seq<Action>, a: nat, b: nat)
    requires var history := Run(Empty(), schedule).history;
             b + 1 < |history| && ActiveSince(history, a, b) && history[b + 1].effective.mode.Shadow?
    ensures var history := Run(Empty(), schedule).history;
            var before, after := history[a], history[b + 1];
            && after.effective.policyRevision == before.effective.policyRevision
            && after.effective.configFingerprint == before.effective.configFingerprint
            && after.effective.versionFingerprint == before.effective.versionFingerprint
            && after.effective.canary == before.effective.canary
            && after.effective.evidenceId == before.effective.evidenceId
            && after.lastKnownGood == after.effective && after.effective.mode.Shadow?
            && after.audit != []
            && after.audit[|after.audit| - 1].kind.Downgraded?
            && after.audit[|after.audit| - 1].effectivePolicyRevision == before.effective.policyRevision
  {
    RunKeepsInv(Empty(), schedule);
    var history := Run(Empty(), schedule).history;
    KnownGoodStays(history, a, b);
    assert Moves(history[b], history[b + 1]);
  }

  /** A downgrade that succeeds leaves process and store with the last known good revision, one state
      revision on, the same evidence, and no volatile shadow. */
  lemma DowngradeOnFields(p: Process, stored: Option<State>, reason: string, now: Timestamp, fault: Fault)
    requires p.state.effective.mode.Active? && Downgrade(p, stored, reason, now, fault).ok
    ensures var o := Downgrade(p, stored, reason, now, fault);
            && o.stored == Some(o.process.state) && o.process.volatileShadow.None?
            && o.process.state.stateRevision == p.state.stateRevision + 1
            && o.process.state.evidence == p.state.evidence
            && o.process.state.effective.mode.Shadow?
            && o.process.state.effective == p.state.lastKnownGood.(mode := o.process.state.effective.mode)
            && o.process.state.lastKnownGood == o.process.state.effective
  {
  }

  // --- activation ----------------------------------------------------------

  /** No revision in view is as great. */
  predicate Exceeds(revision: int, s: State) {
    && revision > s.effective.policyRevision && revision > s.lastKnownGood.policyRevision
    && (forall i | 0 <= i < |s.audit| :: revision > s.audit[i].effectivePolicyRevision)
  }

  lemma {:induction false} MaxAuditedExactly(audit: seq<Audit>, revision: int)
    ensures revision > MaxAudited(audit)
            <==> revision > 0 && forall i | 0 <= i < |audit| :: revision > audit[i].effectivePolicyRevision
  {
    if audit != [] {
      MaxAuditedExactly(audit[..|audit| - 1], revision);
      assert audit == audit[..|audit| - 1] + [audit[|audit| - 1]];
    }
  }

  /** The evidence is in the list, passed every check, and is bound to both fingerprints. */
  ghost predicate Supports(evidence: seq<Evidence>, r: Request) {
    exists i :: 0 <= i < |evidence| && evidence[i].evidenceId == r.eligibilityEvidenceId && Passed(evidence[i], r)
  }

  predicate Passed(e: Evidence, r: Request) {
    && e.core.eligible && (forall i | 0 <= i < |e.core.checks| :: e.core.checks[i].passed)
    && e.core.configFingerprint == r.configFingerprint && e.core.versionFingerprint == r.versionFingerprint
  }

  lemma SupportsExactly(s: State, r: Request)
    requires DistinctIds(s.evidence)
    ensures Supports(s.evidence, r) <==>
              && FindEvidence(s.evidence, r.eligibilityEvidenceId).Some?
              && Passed(FindEvidence(s.evidence, r.eligibilityEvidenceId).value, r)
  {
    FindsIt(s.evidence, r.eligibilityEvidenceId);
    var found := FindEvidence(s.evidence, r.eligibilityEvidenceId);
    if found.Some? {
      var i :| 0 <= i < |s.evidence| && s.evidence[i] == found.value;
    }
  }

  /** What the service demands of an activation. */
  ghost predicate Activatable(s: State, r: Request) {
    && r.expectedStateRevision == s.stateRevision && s.effective.mode.Shadow?
    && Exceeds(r.targetPolicyRevision, s) && r.targetPolicyRevision <= MAX_SAFE
    && r.now.Some? && ValidFingerprint(r.configFingerprint) && ValidFingerprint(r.versionFingerprint)
    && ValidCanary(r.canary) && Supports(s.evidence, r)
  }

  lemma ActivatableExactly(s: State, r: Request)
    requires GoodState(s)
    ensures MayActivateCanary(s, r) <==> Activatable(s, r)
  {
    MaxAuditedExactly(s.audit, r.targetPolicyRevision);
    SupportsExactly(s, r);
  }

  lemma ActivatedIsValid(s: State, r: Request)
    requires GoodState(s) && MayActivateCanary(s, r) && s.stateRevision < MAX_SAFE
    ensures ValidState(WithActivation(s, r))
  {
  }

  /** An activation succeeds exactly from SHADOW, over the process's own stored state, for a greater policy
      revision than any in view, with valid fingerprints and canary and a passing, listed evidence bound to
      them; and then the request is what is effective, and what was effective is the last known good. */
  lemma ActivatesExactly(p: Process, stored: Option<State>, r: Request, fault: Fault)
    requires GoodProcess(p)
    ensures var o := ActivateCanary(p, stored, r, fault);
            && (o.ok <==>
                  && Activatable(p.state, r)
                  && stored.Some? && stored.value.stateRevision == p.state.stateRevision < MAX_SAFE && fault.NoFault?)
            && (o.ok ==>
                  && o.stored == Some(o.process.state)
                  && o.process.state.effective
                     == Effective(r.targetPolicyRevision, Active, r.configFingerprint, r.versionFingerprint,
                                  Some(r.canary), Some(r.eligibilityEvidenceId))
                  && o.process.state.lastKnownGood == p.state.effective
                  && o.process.state.evidence == p.state.evidence)
  {
    ActivatableExactly(p.state, r);
    ActivationFollows(p, stored, r, fault);
    if MayActivateCanary(p.state, r) && p.state.stateRevision < MAX_SAFE {
      ActivatedIsValid(p.state, r);
    }
  }

  // --- evidence --------------------------------------------------------------

  /** Recording succeeds exactly for an evidence that is listed already, or for a valid one over the
      process's own stored state; then it is in the list, at its end if it is new, and of the others only
      the oldest can have gone, if the list was full. */
  lemma RecordsExactly(p: Process, stored: Option<State>, e: Evidence, fault: Fault)
    requires GoodProcess(p)
    ensures var o := RecordEvidence(p, stored, e, fault);
            && (o.ok <==>
                  if HasEvidence(p.state.evidence, e.evidenceId) then e in p.state.evidence
                  else
                    && ValidEvidence(e) && fault.NoFault?
                    && stored.Some? && stored.value.stateRevision == p.state.stateRevision < MAX_SAFE)
            && (o.ok ==> e in o.process.state.evidence)
            && (o.ok && !HasEvidence(p.state.evidence, e.evidenceId) ==>
                  o.process.state.evidence
                  == (if |p.state.evidence| < 1_000 then p.state.evidence else p.state.evidence[1..]) + [e])
  {
    FindsIt(p.state.evidence, e.evidenceId);
    RecordFollows(p, stored, e, fault);
    if HasEvidence(p.state.evidence, e.evidenceId) {
      FoundIsTheOne(p.state.evidence, e);
    } else {
      var next := WithEvidence(p.state, e).evidence;
      assert next[|next| - 1] == e;
    }
  }

  lemma FoundIsTheOne(evidence: seq<Evidence>, e: Evidence)
    requires DistinctIds(evidence) && HasEvidence(evidence, e.evidenceId)
    ensures FindEvidence(evidence, e.evidenceId) == Some(e) <==> e in evidence
  {
    FindsIt(evidence, e.evidenceId);
  }

  lemma DowngradeShadows(p: Process, stored: Option<State>, reason: string, now: Timestamp, fault: Fault)
    requires ValidDowngrade(reason, now)
    ensures ShadowOnly(Downgrade(p, stored, reason, now, fault).process)
  {
  }

  lemma RecordKeepsEffective(p: Process, stored: Option<State>, e: Evidence, fault: Fault)
    ensures var after := RecordEvidence(p, stored, e, fault).process;
            && after.state.effective == p.state.effective && after.state.lastKnownGood == p.state.lastKnownGood
            && after.volatileShadow == p.volatileShadow && after.controller == p.controller
  {
  }

  /** The evidence fails, or is of other fingerprints than the effective revision. */
  predicate Against(e: Evidence, effective: Effective) {
    || !e.core.eligible || e.core.configFingerprint != effective.configFingerprint
    || e.core.versionFingerprint != effective.versionFingerprint
  }

  /** Recorded evidence against the effective ACTIVE revision leaves the process shadow-only; any other
      recorded evidence leaves what is effective, and the controller, alone. */
  lemma EvidenceDecides(p: Process, stored: Option<State>, e: Evidence, now: Timestamp, recording: Fault,
                        downgrading: Fault)
    requires RecordEvidence(p, stored, e, recording).ok && now.Some?
    ensures var after := ObserveEligibility(p, stored, e, now, recording, downgrading).process;
            if p.state.effective.mode.Active? && Against(e, p.state.effective) then ShadowOnly(after)
            else
              && after.state.effective == p.state.effective && after.state.lastKnownGood == p.state.lastKnownGood
              && after.volatileShadow == p.volatileShadow && after.controller == p.controller
  {
    assert ValidId("QUALITY_EVIDENCE_DEGRADED");
    RecordKeepsEffective(p, stored, e, recording);
    var recorded := RecordEvidence(p, stored, e, recording);
    DowngradeShadows(recorded.process, recorded.stored, "QUALITY_EVIDENCE_DEGRADED", now, downgrading);
  }

  /** The result counts against the process: an injection that failed, decided under the effective ACTIVE
      revision. */
  predicate Counts(p: Process, d: Decision, status: InjectionStatus) {
    && d.mode.Active? && p.state.effective.mode.Active? && d.policyRevision == p.state.effective.policyRevision
    && (status.Timeout? || status.ProviderError? || status.InvalidContext?)
  }

  lemma ReasonsAreIds(status: InjectionStatus)
    ensures DowngradeReason(status).Some? <==> status.Timeout? || status.ProviderError? || status.InvalidContext?
    ensures DowngradeReason(status).Some? ==> ValidId(DowngradeReason(status).value)
  {
  }

  /** Exactly such a result leaves the process shadow-only; every other leaves everything as it was. */
  lemma ResultDecides(p: Process, stored: Option<State>, d: Decision, status: InjectionStatus, now: Timestamp,
                      fault: Fault)
    requires now.Some?
    ensures var o := ObserveInjectionResult(p, stored, d, status, now, fault);
            if Counts(p, d, status) then ShadowOnly(o.process) else o == Outcome(p, stored, true)
  {
    ReasonsAreIds(status);
    if Counts(p, d, status) {
      DowngradeShadows(p, stored, DowngradeReason(status).value, now, fault);
    }
  }

  // --- decisions -----------------------------------------------------------

  /** Each selector that is given must name the request's scope. */
  predicate InScope(c: Canary, scope: Scope) {
    && (c.projectIds.None? || (scope.projectId.Some? && scope.projectId.value in c.projectIds.value))
    && (c.sessionIds.None? || scope.sessionId in c.sessionIds.value)
    && (c.taskIds.None? || (scope.taskId.Some? && scope.taskId.value in c.taskIds.value))
  }

  /** A decision names the state and the policy it was made under, and is ACTIVE exactly for a request in
      scope whose bucket is below the canary's percentage. */
  lemma DecisionOnFields(p: Process, scope: Scope, bucket: nat)
    requires GoodProcess(p) && ValidScope(scope) && bucket < 10_000
    ensures var d := Decide(p, scope, bucket);
            && d.Some? && d.value.stateRevision == p.state.stateRevision
            && d.value.policyRevision == p.state.effective.policyRevision
            && (d.value.mode.Active? <==>
                  && p.volatileShadow.None? && p.state.effective.mode.Active?
                  && var canary := p.state.effective.canary.value;
                     && InScope(canary, scope)
                     && (canary.percentageBasisPoints.Some? ==> bucket < canary.percentageBasisPoints.value))
            && d.value.reason
               == if p.volatileShadow.Some? then FailSafeShadow
                  else if p.state.effective.mode.Shadow? then ShadowMode
                  else if d.value.mode.Active? then CanaryIncluded else ScopeExcluded
  {
  }

  function Buckets(n: nat): set<nat> {
    if n == 0 then {} else Buckets(n - 1) + {n - 1}
  }

  lemma {:induction false} BucketsAreBelow(n: nat)
    ensures |Buckets(n)| == n && forall b: nat :: b in Buckets(n) <==> b < n
  {
    if n > 0 {
      BucketsAreBelow(n - 1);
    }
  }

  /** Of the 10,000 buckets a canary lets exactly its percentage through, in basis points. */
  lemma CanaryShare(c: Canary, scope: Scope)
    requires ValidCanary(c) && InScope(c, scope)
    ensures var included := set bucket | bucket in Buckets(10_000) && RequestIncluded(c, scope, bucket);
            |included| == if c.percentageBasisPoints.Some? then c.percentageBasisPoints.value else 10_000
  {
    var share: nat := if c.percentageBasisPoints.Some? then c.percentageBasisPoints.value else 10_000;
    BucketsAreBelow(share);
    BucketsAreBelow(10_000);
    var included := set bucket | bucket in Buckets(10_000) && RequestIncluded(c, scope, bucket);
    forall bucket: nat ensures bucket in included <==> bucket in Buckets(share) {
      assert bucket in Buckets(10_000) <==> bucket < 10_000;
    }
    assert included == Buckets(share);
  }

  // --- the beginning -------------------------------------------------------

  /** A service that finds no state begins in SHADOW, with the bootstrap revision as effective and last known
      good; one that finds a state goes on with that, and neither writes. */
  lemma BeginsInShadow(stored: Option<State>, b: Bootstrap, fault: Fault)
    requires Boot(stored, b, fault).process.Some?
    ensures var p, after := Boot(stored, b, fault).process.value, Boot(stored, b, fault).stored;
            && after == Some(p.state) && p.volatileShadow.None? && p.controller.revision == p.state.stateRevision
            && (p.controller.mode.RuntimeActive? <==> p.state.effective.mode.Active?)
            && (stored.Some? ==> stored == after)
            && (stored.None? ==>
                  && p.state.stateRevision == 1 && p.state.effective.mode.Shadow?
                  && p.state.effective == p.state.lastKnownGood && p.state.evidence == []
                  && p.state.effective.policyRevision == b.policyRevision
                  && p.state.effective.configFingerprint == b.configFingerprint
                  && p.state.effective.versionFingerprint == b.versionFingerprint
                  && p.state.effective.canary.None? && p.state.effective.evidenceId.None?
                  && p.state.audit == [Audit(Bootstrapped, 1, b.policyRevision, "BOOTSTRAP_SHADOW", b.now)])
  {
  }
}
