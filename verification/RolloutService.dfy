/** The rollout service over its store and its runtime controller. Every method leaves exactly what
    the operation of the same name in `RolloutState` says. */
module RolloutService {
  import opened RolloutState
  import opened Wrappers

  class ActiveRolloutService {
    const store: RolloutStateStore
    const injectionRollout: InjectionRolloutController
    var stateValue: State
    var volatileShadowReason: Option<string>

    ghost function Value(): Process
      reads this, injectionRollout
    {
      Process(stateValue, volatileShadowReason, injectionRollout.current)
    }

    constructor Hydrated(store: RolloutStateStore, state: State, controller: InjectionRolloutController)
      ensures this.store == store && injectionRollout == controller
      ensures stateValue == state && volatileShadowReason.None?
    {
      this.store, this.injectionRollout, this.stateValue, this.volatileShadowReason := store, controller, state, None;
    }

    /** The constructor: load or bootstrap, then bring the controller to the loaded mode. */
    static method Create(store: RolloutStateStore, bootstrap: Bootstrap, fault: Fault)
      returns (r: Option<ActiveRolloutService>)
      modifies store
      ensures var booted := Boot(old(store.state), bootstrap, fault);
              && store.state == booted.stored
              && (r.Some? <==> booted.process.Some?)
              && (r.Some? ==> fresh(r.value) && fresh(r.value.injectionRollout) && r.value.store == store
                              && r.value.Value() == booted.process.value)
    {
      if !ValidBootstrap(bootstrap) { return None; }
      var loaded := store.Load();
      var state: State;
      if loaded.None? {
        state := BootstrapState(bootstrap);
        var saved := store.SaveState(state, 0, fault);
        if !saved { return None; }
      } else {
        state := loaded.value;
      }
      var controller := new InjectionRolloutController();
      var hydrated := HydrateController(state, controller);
      if !hydrated { return None; }
      var service := new ActiveRolloutService.Hydrated(store, state, controller);
      return Some(service);
    }

    static method HydrateController(state: State, controller: InjectionRolloutController) returns (ok: bool)
      requires controller.current == Controller(0, RuntimeOff)
      modifies controller
      ensures ok <==> Hydrate(state).Some?
      ensures ok ==> Process(state, None, controller.current) == Hydrate(state).value
    {
      var effective := state.effective;
      if effective.mode.Shadow? {
        ok := controller.ActivateMode(state.stateRevision, RuntimeShadow, None);
        return;
      }
      if effective.evidenceId.None? { return false; }
      var evidence := FindEvidence(state.evidence, effective.evidenceId.value);
      if evidence.None? || !evidence.value.core.eligible || effective.canary.None?
         || evidence.value.core.configFingerprint != effective.configFingerprint
         || evidence.value.core.versionFingerprint != effective.versionFingerprint
         || !ValidCanary(effective.canary.value) {
        return false;
      }
      ok := controller.ActivateMode(state.stateRevision, RuntimeActive, Some(evidence.value.core));
    }

    method Record(evidence: Evidence, fault: Fault) returns (ok: bool)
      modifies this, store, injectionRollout
      ensures Outcome(Value(), store.state, ok) == RecordEvidence(old(Value()), old(store.state), evidence, fault)
    {
      var existing := FindEvidence(stateValue.evidence, evidence.evidenceId);
      if existing.Some? { return existing.value == evidence; }
      if !ValidEvidence(evidence) { return false; }
      var next := stateValue.(stateRevision := stateValue.stateRevision + 1,
                              evidence := Bounded(stateValue.evidence + [evidence], MAX_EVIDENCE));
      ok := store.SaveState(next, stateValue.stateRevision, fault);
      if ok { stateValue := next; }
    }

    /** `Math.max` over the audit. */
    method GreatestKnown() returns (maximum: int)
      ensures maximum == MaxKnown(stateValue)
    {
      maximum := 0;
      var i := 0;
      while i < |stateValue.audit|
        invariant 0 <= i <= |stateValue.audit| && maximum == MaxAudited(stateValue.audit[..i])
      {
        assert stateValue.audit[..i + 1][..i] == stateValue.audit[..i];
        if stateValue.audit[i].effectivePolicyRevision > maximum {
          maximum := stateValue.audit[i].effectivePolicyRevision;
        }
        i := i + 1;
      }
      assert stateValue.audit[..i] == stateValue.audit;
      if stateValue.lastKnownGood.policyRevision > maximum { maximum := stateValue.lastKnownGood.policyRevision; }
      if stateValue.effective.policyRevision > maximum { maximum := stateValue.effective.policyRevision; }
    }

    method Activate(request: Request, fault: Fault) returns (ok: bool)
      modifies this, store, injectionRollout
      ensures Outcome(Value(), store.state, ok) == ActivateCanary(old(Value()), old(store.state), request, fault)
    {
      if request.expectedStateRevision != stateValue.stateRevision { return false; }
      if stateValue.effective.mode.Active? { return false; }
      var maximum := GreatestKnown();
      if request.targetPolicyRevision > MAX_SAFE || request.targetPolicyRevision <= maximum { return false; }
      if request.now.None? || !ValidFingerprint(request.configFingerprint)
         || !ValidFingerprint(request.versionFingerprint)
         || !ValidCanary(request.canary) {
        return false;
      }
      var evidence := FindEvidence(stateValue.evidence, request.eligibilityEvidenceId);
      if evidence.None? || !evidence.value.core.eligible
         || evidence.value.core.configFingerprint != request.configFingerprint
         || evidence.value.core.versionFingerprint != request.versionFingerprint
         || !AllPassed(evidence.value.core.checks) {
        return false;
      }
      assert MayActivateCanary(stateValue, request);
      var next := WithActivation(stateValue, request);
      var saved := store.SaveState(next, stateValue.stateRevision, fault);
      if !saved { return false; }
      stateValue := next;
      ok := injectionRollout.ActivateMode(next.stateRevision, RuntimeActive, Some(evidence.value.core));
    }

    method Decision(scope: Scope, bucket: nat) returns (d: Option<RolloutState.Decision>)
      ensures d == Decide(Value(), scope, bucket)
    {
      if !ValidScope(scope) { return None; }
      var effective := stateValue.effective;
      var revision, policy := stateValue.stateRevision, effective.policyRevision;
      if volatileShadowReason.Some? { return Some(RolloutState.Decision(revision, policy, Shadow, FailSafeShadow)); }
      if effective.mode.Shadow? { return Some(RolloutState.Decision(revision, policy, Shadow, ShadowMode)); }
      if effective.canary.None? { return None; }
      var included := RequestIncluded(effective.canary.value, scope, bucket);
      return Some(RolloutState.Decision(revision, policy, if included then Active else Shadow,
                                        if included then CanaryIncluded else ScopeExcluded));
    }

    method ForceRuntimeShadow(reason: string, revision: int) returns (ok: bool)
      modifies this`volatileShadowReason, injectionRollout
      ensures Value() == ForceShadow(old(Value()), reason, revision)
      ensures ok <==> old(injectionRollout.current.revision) >= revision
                      || MayActivate(old(injectionRollout.current), revision, RuntimeShadow, None)
    {
      volatileShadowReason := Some(reason);
      ok := true;
      if injectionRollout.current.revision < revision {
        ok := injectionRollout.ActivateMode(revision, RuntimeShadow, None);
      }
    }

    method DowngradeTo(reason: string, now: Timestamp, fault: Fault) returns (ok: bool)
      modifies this, store, injectionRollout
      ensures Outcome(Value(), store.state, ok) == Downgrade(old(Value()), old(store.state), reason, now, fault)
    {
      if !ValidId(reason) || now.None? { return false; }
      if stateValue.effective.mode.Shadow? { return true; }
      var next := WithDowngrade(stateValue, reason, now);
      var saved := store.SaveState(next, stateValue.stateRevision, fault);
      if !saved {
        var forced := ForceRuntimeShadow(reason, next.stateRevision);
        return false;
      }
      stateValue := next;
      volatileShadowReason := None;
      var forced := ForceRuntimeShadow(reason, next.stateRevision);
      if !forced { return false; }
      volatileShadowReason := None;
      return true;
    }

    /** Evidence against the effective ACTIVE revision takes it down. */
    method DowngradeIfDegraded(evidence: Evidence, now: Timestamp, fault: Fault) returns (ok: bool)
      modifies this, store, injectionRollout
      ensures Outcome(Value(), store.state, ok)
           == if Degrades(evidence, old(Value()).state.effective)
              then Downgrade(old(Value()), old(store.state), "QUALITY_EVIDENCE_DEGRADED", now, fault)
              else Outcome(old(Value()), old(store.state), true)
    {
      ok := true;
      var effective := stateValue.effective;
      if effective.mode.Active? && (!evidence.core.eligible
                                    || evidence.core.configFingerprint != effective.configFingerprint
                                    || evidence.core.versionFingerprint != effective.versionFingerprint) {
        ok := DowngradeTo("QUALITY_EVIDENCE_DEGRADED", now, fault);
      }
    }

    method Observe(evidence: Evidence, now: Timestamp, recording: Fault, downgrading: Fault) returns (ok: bool)
      modifies this, store, injectionRollout
      ensures Outcome(Value(), store.state, ok)
              == ObserveEligibility(old(Value()), old(store.state), evidence, now, recording, downgrading)
    {
      ok := Record(evidence, recording);
      if !ok {
        if stateValue.effective.mode.Active? {
          var forced := ForceRuntimeShadow("QUALITY_EVIDENCE_UNSAFE", stateValue.stateRevision + 1);
        }
        return false;
      }
      ok := DowngradeIfDegraded(evidence, now, downgrading);
    }

    method ObserveResult(d: RolloutState.Decision, status: InjectionStatus, now: Timestamp, fault: Fault)
      returns (ok: bool)
      modifies this, store, injectionRollout
      ensures Outcome(Value(), store.state, ok)
           == ObserveInjectionResult(old(Value()), old(store.state), d, status, now, fault)
    {
      if d.mode.Shadow? || stateValue.effective.mode.Shadow?
         || d.policyRevision != stateValue.effective.policyRevision {
        return true;
      }
      var reason := DowngradeReason(status);
      if reason.None? { return true; }
      ok := DowngradeTo(reason.value, now, fault);
    }
  }
}
