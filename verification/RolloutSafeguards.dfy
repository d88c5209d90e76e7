/** What the checks of the rollout come to: a valid canary is partial, a valid evidence is whole, a state comes
    back ACTIVE only with its evidence, and every downgrade names its cause. */
module RolloutSafeguards {
  import opened RolloutState
  import opened RolloutRuns
  import opened RolloutEffects
  import opened Wrappers

  lemma SmallerSet<T>(a: set<T>, b: set<T>)
    requires a <= b
    ensures |a| <= |b| && (|a| == |b| ==> a == b)
  {
    assert b == a + (b - a) && |b| == |a| + |b - a|;
  }

  // --- canaries --------------------------------------------------------------

  function Letter(n: nat): char
    requires n < 11
  {
    ['a', 'b', 'c', 'd', 'e', 'f', 'g', 'h', 'i', 'j', 'k'][n]
  }

  /** Three letters; different numbers have different ones. */
  function IdOf(n: nat): string
    requires n < 1_331
  {
    [Letter(n / 121), Letter(n / 11 % 11), Letter(n % 11)]
  }

  lemma LettersDiffer(m: nat, n: nat)
    requires m < 11 && n < 11 && Letter(m) == Letter(n)
    ensures m == n
  {
  }

  lemma ThreeDigits(n: nat)
    ensures n == n / 121 * 121 + n / 11 % 11 * 11 + n % 11
  {
    assert n / 11 / 11 == n / 121;
  }

  lemma IdsDiffer(m: nat, n: nat)
    requires m < 1_331 && n < 1_331 && IdOf(m) == IdOf(n)
    ensures m == n
  {
    assert IdOf(m)[0] == IdOf(n)[0] && IdOf(m)[1] == IdOf(n)[1] && IdOf(m)[2] == IdOf(n)[2];
    LettersDiffer(m / 121, n / 121);
    LettersDiffer(m / 11 % 11, n / 11 % 11);
    LettersDiffer(m % 11, n % 11);
    ThreeDigits(m);
    ThreeDigits(n);
  }

  lemma IdsAreValid(n: nat)
    requires n < 1_331
    ensures ValidId(IdOf(n))
  {
  }

  ghost function Ids(n: nat): set<string>
    requires n <= 1_331
  {
    if n == 0 then {} else Ids(n - 1) + {IdOf(n - 1)}
  }

  lemma {:induction false} IdsAre(n: nat, s: string) returns (k: nat)
    requires n <= 1_331 && s in Ids(n)
    ensures k < n && s == IdOf(k)
    decreases n
  {
    k := n - 1;
    if s != IdOf(k) {
      k := IdsAre(n - 1, s);
    }
  }

  lemma {:induction false} IdsCount(n: nat)
    requires n <= 1_331
    ensures |Ids(n)| == n
  {
    if n > 0 {
      IdsCount(n - 1);
      if IdOf(n - 1) in Ids(n - 1) {
        var k := IdsAre(n - 1, IdOf(n - 1));
        IdsDiffer(n - 1, k);
      }
    }
  }

  ghost function Elements(values: seq<string>): set<string> {
    if values == [] then {} else Elements(values[1..]) + {values[0]}
  }

  lemma {:induction false} ElementsCount(values: seq<string>)
    ensures |Elements(values)| <= |values| && forall s :: s in Elements(values) <==> s in values
  {
    if values != [] {
      ElementsCount(values[1..]);
    }
  }

  lemma NotAllFit(few: set<string>, many: set<string>)
    requires |few| < |many|
    ensures exists s :: s in many && s !in few
  {
    if many <= few {
      SmallerSet(many, few);
    }
  }

  /** No list of as many as 1,000 names every id. */
  lemma SomeIdIsOutside(values: seq<string>) returns (id: string)
    requires |values| <= 1_000
    ensures ValidId(id) && id !in values
  {
    IdsCount(1_001);
    ElementsCount(values);
    NotAllFit(Elements(values), Ids(1_001));
    id :| id in Ids(1_001) && id !in Elements(values);
    var k := IdsAre(1_001, id);
    IdsAreValid(k);
  }

  /** A request that every selector names. */
  function Member(c: Canary): Scope
    requires ValidCanary(c)
  {
    Scope(if c.sessionIds.Some? then c.sessionIds.value[0] else "s", "t",
          if c.projectIds.Some? then Some(c.projectIds.value[0]) else None,
          if c.taskIds.Some? then Some(c.taskIds.value[0]) else None)
  }

  lemma MemberIsIncluded(c: Canary)
    requires ValidCanary(c)
    ensures ValidScope(Member(c)) && RequestIncluded(c, Member(c), 0)
  {
  }

  lemma NeighbourIsExcluded(c: Canary) returns (scope: Scope, bucket: nat)
    requires ValidCanary(c)
    ensures ValidScope(scope) && bucket < 10_000 && !RequestIncluded(c, scope, bucket)
  {
    MemberIsIncluded(c);
    scope, bucket := Member(c), 0;
    if Percentage(c) < 10_000 {
      bucket := Percentage(c);
    } else if c.projectIds.Some? {
      scope := scope.(projectId := None);
    } else if c.taskIds.Some? {
      scope := scope.(taskId := None);
    } else {
      var id := SomeIdIsOutside(c.sessionIds.value);
      scope := scope.(sessionId := id);
    }
  }

  /** A canary that is accepted is one: it lets some valid request through, and never all of them. */
  lemma CanaryIsPartial(c: Canary)
    requires ValidCanary(c)
    ensures exists scope, bucket: nat :: ValidScope(scope) && bucket < 10_000 && RequestIncluded(c, scope, bucket)
    ensures exists scope, bucket: nat :: ValidScope(scope) && bucket < 10_000 && !RequestIncluded(c, scope, bucket)
  {
    MemberIsIncluded(c);
    var scope, bucket := NeighbourIsExcluded(c);
  }

  // --- evidence --------------------------------------------------------------

  predicate IsHex(digits: string) {
    forall i | 0 <= i < |digits| :: '0' <= digits[i] <= '9' || 'a' <= digits[i] <= 'f'
  }

  /** A fingerprint is the name of the hash and 64 hexadecimal digits. */
  lemma FingerprintExactly(s: string)
    ensures ValidFingerprint(s) <==> exists digits :: |digits| == 64 && IsHex(digits) && s == "sha256:" + digits
  {
    if ValidFingerprint(s) {
      var digits := s[7..];
      assert s == "sha256:" + digits && |digits| == 64 && IsHex(digits);
    }
    forall digits | |digits| == 64 && IsHex(digits) && s == "sha256:" + digits ensures ValidFingerprint(s) {
      assert s[..7] == "sha256:" && s[7..] == digits;
      assert forall i | 7 <= i < |s| :: s[i] == digits[i - 7];
    }
  }

  ghost function Codes(checks: seq<Check>): set<nat> {
    if checks == [] then {} else Codes(checks[1..]) + {checks[0].code}
  }

  lemma {:induction false} CodesCount(checks: seq<Check>)
    ensures |Codes(checks)| <= |checks|
    ensures forall code :: code in Codes(checks) <==> HasCheck(checks, code)
  {
    if checks != [] {
      CodesCount(checks[1..]);
      forall code ensures code in Codes(checks) <==> HasCheck(checks, code) {
        if HasCheck(checks[1..], code) {
          var i :| 0 <= i < |checks[1..]| && checks[1..][i].code == code;
          assert checks[i + 1].code == code;
        }
        if HasCheck(checks, code) && code != checks[0].code {
          var i :| 0 <= i < |checks| && checks[i].code == code;
          assert checks[1..][i - 1].code == code;
        }
      }
    }
  }

  /** Without one of two checks of the same code the codes are the same. */
  lemma RepeatedCode(checks: seq<Check>, i: nat, j: nat)
    requires i < j < |checks| && checks[i].code == checks[j].code
    ensures |Codes(checks)| < |checks|
  {
    var rest := checks[..j] + checks[j + 1..];
    CodesCount(checks);
    CodesCount(rest);
    forall code | code in Codes(checks) ensures code in Codes(rest) {
      var k :| 0 <= k < |checks| && checks[k].code == code;
      assert rest[if k < j then k else if k == j then i else k - 1].code == code;
    }
    SmallerSet(Codes(checks), Codes(rest));
  }

  ghost function Below(n: nat): set<nat> {
    if n == 0 then {} else Below(n - 1) + {n - 1}
  }

  lemma {:induction false} BelowCount(n: nat)
    ensures |Below(n)| == n && forall k: nat :: k in Below(n) <==> k < n
  {
    if n > 0 {
      BelowCount(n - 1);
    }
  }

  lemma ChecksAreWhole(checks: seq<Check>)
    requires |checks| == CHECK_CODES && forall code | 0 <= code < CHECK_CODES :: HasCheck(checks, code)
    ensures forall i | 0 <= i < |checks| :: checks[i].code < 9
    ensures forall i, j | 0 <= i < j < |checks| :: checks[i].code != checks[j].code
  {
    CodesCount(checks);
    BelowCount(CHECK_CODES);
    SmallerSet(Below(CHECK_CODES), Codes(checks));
    forall i, j | 0 <= i < j < |checks| ensures checks[i].code != checks[j].code {
      if checks[i].code == checks[j].code {
        RepeatedCode(checks, i, j);
      }
    }
    forall i | 0 <= i < |checks| ensures checks[i].code < 9 {
      assert HasCheck(checks, checks[i].code);
    }
  }

  /** A valid evidence is whole: it has exactly one check for each of the nine codes and no other, it is
      eligible exactly if all nine passed, no trace is counted twice, and its id is its content. */
  lemma EvidenceIsWhole(e: Evidence)
    requires ValidEvidence(e)
    ensures |e.core.checks| == 9 && forall i | 0 <= i < |e.core.checks| :: e.core.checks[i].code < 9
    ensures forall i, j | 0 <= i < j < |e.core.checks| :: e.core.checks[i].code != e.core.checks[j].code
    ensures e.core.eligible <==> forall i | 0 <= i < |e.core.checks| :: e.core.checks[i].passed
    ensures e.core.traceIds != [] && e.evidenceId == e.core
    ensures forall i, j | 0 <= i < j < |e.core.traceIds| :: e.core.traceIds[i] != e.core.traceIds[j]
    ensures e.window.observedFrom.Some? && e.window.observedTo.Some?
            && e.window.observedFrom.value <= e.window.observedTo.value
  {
    ChecksAreWhole(e.core.checks);
  }

  // --- coming back -----------------------------------------------------------

  /** The evidence still stands behind the effective revision. */
  ghost predicate StandsBehind(e: Evidence, effective: Effective) {
    && Some(e.evidenceId) == effective.evidenceId && e.core.eligible && Convincing(Some(e.core))
    && e.core.configFingerprint == effective.configFingerprint
    && e.core.versionFingerprint == effective.versionFingerprint
  }

  /** Whatever the store holds, an ACTIVE state is brought back exactly if it has a valid canary and one of
      its evidences still stands behind it; then the controller is ACTIVE at its revision. */
  lemma ActiveComesBackExactly(s: State)
    requires ValidState(s) && DistinctIds(s.evidence) && s.effective.mode.Active?
    ensures Hydrate(s).Some? <==>
              && s.effective.canary.Some? && ValidCanary(s.effective.canary.value)
              && exists i :: 0 <= i < |s.evidence| && StandsBehind(s.evidence[i], s.effective)
    ensures Hydrate(s).Some? ==> Hydrate(s).value == Process(s, None, Controller(s.stateRevision, RuntimeActive))
  {
    if s.effective.evidenceId.Some? {
      FindsIt(s.evidence, s.effective.evidenceId.value);
    }
  }

  // --- causes ----------------------------------------------------------------

  /** The reason that the audit, or else the fail-safe, gives for a downgrade. */
  ghost predicate Names(o: Outcome, reason: string) {
    if o.ok then
      && o.stored == Some(o.process.state) && o.process.volatileShadow.None?
      && o.process.state.audit != []
      && var last := o.process.state.audit[|o.process.state.audit| - 1];
         && last.kind.Downgraded? && last.reason == reason && last.stateRevision == o.process.state.stateRevision
         && last.effectivePolicyRevision == o.process.state.effective.policyRevision
    else o.process.volatileShadow == Some(reason)
  }

  lemma DowngradeNames(p: Process, stored: Option<State>, reason: string, now: Timestamp, fault: Fault)
    requires ValidDowngrade(reason, now) && p.state.effective.mode.Active?
    ensures Names(Downgrade(p, stored, reason, now, fault), reason)
  {
  }

  /** A failed injection is recorded for what it was. */
  lemma FailedInjectionIsNamed(p: Process, stored: Option<State>, d: Decision, status: InjectionStatus,
                               now: Timestamp, fault: Fault)
    requires Counts(p, d, status) && now.Some?
    ensures var o := ObserveInjectionResult(p, stored, d, status, now, fault);
            && (status.Timeout? ==> Names(o, "ACTIVE_TIMEOUT"))
            && (status.ProviderError? ==> Names(o, "ACTIVE_PROVIDER_ERROR"))
            && (status.InvalidContext? ==> Names(o, "ACTIVE_INVALID_CONTEXT"))
  {
    ReasonsAreIds(status);
    DowngradeNames(p, stored, DowngradeReason(status).value, now, fault);
  }

  /** Evidence against the effective revision is named as degraded if it was recorded, and as unsafe if not. */
  lemma BadEvidenceIsNamed(p: Process, stored: Option<State>, e: Evidence, now: Timestamp, recording: Fault,
                           downgrading: Fault)
    requires p.state.effective.mode.Active? && now.Some?
    ensures var o := ObserveEligibility(p, stored, e, now, recording, downgrading);
            if !RecordEvidence(p, stored, e, recording).ok
            then !o.ok && o.process.volatileShadow == Some("QUALITY_EVIDENCE_UNSAFE")
            else Against(e, p.state.effective) ==> Names(o, "QUALITY_EVIDENCE_DEGRADED")
  {
    assert ValidId("QUALITY_EVIDENCE_DEGRADED");
    RecordKeepsEffective(p, stored, e, recording);
    var recorded := RecordEvidence(p, stored, e, recording);
    DowngradeNames(recorded.process.(state := recorded.process.state), recorded.stored, "QUALITY_EVIDENCE_DEGRADED",
                   now, downgrading);
  }

  /** An activation is recorded under its own policy revision and moment, as a scoped canary. */
  lemma ActivationIsNamed(p: Process, stored: Option<State>, r: Request, fault: Fault)
    requires ActivateCanary(p, stored, r, fault).ok
    ensures var s := ActivateCanary(p, stored, r, fault).process.state;
            s.audit != []
            && s.audit[|s.audit| - 1]
               == Audit(Activated, s.stateRevision, r.targetPolicyRevision, "SCOPED_CANARY", r.now)
  {
  }

  /** Over every run the two lists stay within their bounds, and the audit never runs dry. */
  lemma HistoryIsBounded(schedule: seq<Action>, k: nat)
    requires k < |Run(Empty(), schedule).history|
    ensures var s := Run(Empty(), schedule).history[k];
            1 <= |s.audit| <= 10_000 && |s.evidence| <= 1_000 && s.stateRevision == k + 1 <= MAX_SAFE
  {
    RunKeepsInv(Empty(), schedule);
  }
}
