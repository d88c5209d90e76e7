/** The bounded pool of workers that re-verifies a batch of items over one shared cursor, and the
    assembly of its results. Each step is what one worker does between two awaits. */
module VerificationPool {
  import opened Wrappers

  const MAX_CONCURRENCY: nat := 4

  /** The answer of one verification. The verification of an item may also throw (`None`). */
  datatype Batch = Batch(runId: string, codeRevision: string, graphRevision: Option<string>, results: nat)

  datatype Worker = Looping | Verifying(index: nat) | Finished

  /** `claims` is a ghost history: the indexes in the order in which workers claimed them. */
  datatype Pool = Pool(cursor: nat, failed: bool, batches: seq<Option<Batch>>, workers: seq<Worker>, claims: seq<nat>)

  datatype Action =
    | Claim(worker: nat)
    | Settle(worker: nat, aborted: bool)

  type Verifier = nat -> Option<Batch>

  function Start(n: nat): Pool {
    Pool(0, false, seq(n, _ => None), seq(Min(MAX_CONCURRENCY, n), _ => Looping), [])
  }

  /** The top of the worker loop: leave it after a failure, otherwise take the next index. */
  function ClaimStep(p: Pool, w: nat): Pool
    requires w < |p.workers|
  {
    if p.failed then p.(workers := p.workers[w := Finished])
    else if p.cursor >= |p.batches| then p.(cursor := p.cursor + 1, workers := p.workers[w := Finished])
    else p.(cursor := p.cursor + 1, workers := p.workers[w := Verifying(p.cursor)], claims := p.claims + [p.cursor])
  }

  /** A verification settles: store the batch or the failure, then look at the abort signal. */
  function SettleStep(p: Pool, w: nat, verify: Verifier, aborted: bool): Pool
    requires w < |p.workers| && p.workers[w].Verifying? && p.workers[w].index < |p.batches|
  {
    var index := p.workers[w].index;
    var answer := verify(index);
    p.(batches := if answer.Some? then p.batches[index := answer] else p.batches,
       failed := p.failed || answer.None? || aborted,
       workers := p.workers[w := Looping])
  }

  ghost predicate Enabled(p: Pool, a: Action) {
    && a.worker < |p.workers|
    && match a
       case Claim(w) => p.workers[w].Looping?
       case Settle(w, _) => p.workers[w].Verifying? && p.workers[w].index < |p.batches|
  }

  ghost function Step(p: Pool, a: Action, verify: Verifier): Pool {
    if !Enabled(p, a) then p
    else
      match a
      case Claim(w) => ClaimStep(p, w)
      case Settle(w, aborted) => SettleStep(p, w, verify, aborted)
  }

  ghost function Run(p: Pool, schedule: seq<Action>, verify: Verifier): Pool
    decreases |schedule|
  {
    if schedule == [] then p else Run(Step(p, schedule[0], verify), schedule[1..], verify)
  }

  /** Exactly the claimed indexes below the cursor: each verified, being verified, or failed. */
  ghost predicate Inv(p: Pool, n: nat, verify: Verifier) {
    && |p.batches| == n && |p.workers| == Min(MAX_CONCURRENCY, n)
    && |p.claims| == Min(p.cursor, n)
    && (forall k | 0 <= k < |p.claims| :: p.claims[k] == k)
    && (forall w | 0 <= w < |p.workers| && p.workers[w].Verifying? :: p.workers[w].index < |p.claims|)
    && (forall v, w | 0 <= v < w < |p.workers| && p.workers[v].Verifying? && p.workers[w].Verifying? ::
          p.workers[v].index != p.workers[w].index)
    && (forall k | 0 <= k < n && p.batches[k].Some? :: k < |p.claims| && p.batches[k] == verify(k))
    && (!p.failed ==> forall k | 0 <= k < |p.claims| && p.batches[k].None? :: InProgress(p, k))
    && (!p.failed ==> forall w | 0 <= w < |p.workers| && p.workers[w].Finished? :: p.cursor >= n)
  }

  ghost predicate InProgress(p: Pool, k: nat) {
    exists w | 0 <= w < |p.workers| :: p.workers[w] == Verifying(k)
  }

  lemma ClaimKeepsInv(p: Pool, w: nat, n: nat, verify: Verifier)
    requires Inv(p, n, verify) && w < |p.workers| && p.workers[w].Looping?
    ensures Inv(ClaimStep(p, w), n, verify)
  {
    var q := ClaimStep(p, w);
    forall k | !q.failed && 0 <= k < |q.claims| && q.batches[k].None? ensures InProgress(q, k) {
      if k < |p.claims| {
        assert InProgress(p, k);
        var v :| 0 <= v < |p.workers| && p.workers[v] == Verifying(k);
        assert q.workers[v] == Verifying(k);
      } else {
        assert q.workers[w] == Verifying(k);
      }
    }
  }

  lemma SettleKeepsInv(p: Pool, w: nat, n: nat, verify: Verifier, aborted: bool)
    requires Inv(p, n, verify) && w < |p.workers| && p.workers[w].Verifying?
    ensures Inv(SettleStep(p, w, verify, aborted), n, verify)
  {
    var q := SettleStep(p, w, verify, aborted);
    forall k | !q.failed && 0 <= k < |q.claims| && q.batches[k].None? ensures InProgress(q, k) {
      assert InProgress(p, k);
      var v :| 0 <= v < |p.workers| && p.workers[v] == Verifying(k);
      assert q.workers[v] == Verifying(k);
    }
  }

  lemma StepKeepsInv(p: Pool, a: Action, n: nat, verify: Verifier)
    requires Inv(p, n, verify)
    ensures Inv(Step(p, a, verify), n, verify)
  {
    if Enabled(p, a) {
      match a
      case Claim(w) => ClaimKeepsInv(p, w, n, verify);
      case Settle(w, aborted) => SettleKeepsInv(p, w, n, verify, aborted);
    }
  }

  lemma {:induction false} RunKeepsInv(p: Pool, schedule: seq<Action>, n: nat, verify: Verifier)
    requires Inv(p, n, verify)
    ensures Inv(Run(p, schedule, verify), n, verify)
    decreases |schedule|
  {
    if schedule != [] {
      StepKeepsInv(p, schedule[0], n, verify);
      RunKeepsInv(Step(p, schedule[0], verify), schedule[1..], n, verify);
    }
  }

  ghost predicate AllFinished(p: Pool) {
    forall w | 0 <= w < |p.workers| :: p.workers[w].Finished?
  }

  /** How many verifications are outstanding. */
  function Outstanding(workers: seq<Worker>): nat {
    if workers == [] then 0 else Outstanding(workers[1..]) + if workers[0].Verifying? then 1 else 0
  }

  lemma {:induction false} OutstandingBounded(workers: seq<Worker>)
    ensures Outstanding(workers) <= |workers|
  {
    if workers != [] {
      OutstandingBounded(workers[1..]);
    }
  }

  /** A plain loop over the items: all batches, or nothing if any verification throws. */
  function Sequential(n: nat, verify: Verifier): Option<seq<Batch>> {
    if n == 0 then Some([])
    else
      var before := Sequential(n - 1, verify);
      if before.None? || verify(n - 1).None? then None else Some(before.value + [verify(n - 1).value])
  }

  function Values(batches: seq<Option<Batch>>): seq<Batch>
    requires forall k | 0 <= k < |batches| :: batches[k].Some?
  {
    if batches == [] then [] else Values(batches[..|batches| - 1]) + [batches[|batches| - 1].value]
  }

  lemma {:induction false} SequentialFromBatches(n: nat, verify: Verifier, batches: seq<Option<Batch>>)
    requires |batches| == n && forall k | 0 <= k < n :: batches[k].Some? && batches[k] == verify(k)
    ensures Sequential(n, verify) == Some(Values(batches))
  {
    if n > 0 {
      SequentialFromBatches(n - 1, verify, batches[..n - 1]);
    }
  }

  /** What the pool returns once every worker is finished: all batches, or the failure. */
  ghost function Result(p: Pool): Option<seq<Batch>>
    requires p.failed || forall k | 0 <= k < |p.batches| :: p.batches[k].Some?
  {
    if p.failed then None else Some(Values(p.batches))
  }

  /** Under every schedule: indexes are claimed in order and at most once, at most min(4, n) are
      outstanding, and a pool that ends without failure has exactly the sequential loop's batches. */
  lemma EveryScheduleMatchesTheLoop(n: nat, verify: Verifier, schedule: seq<Action>)
    ensures var p := Run(Start(n), schedule, verify);
            && Outstanding(p.workers) <= Min(MAX_CONCURRENCY, n)
            && |p.claims| <= n && (forall k | 0 <= k < |p.claims| :: p.claims[k] == k)
            && (AllFinished(p) && !p.failed ==>
                  && |p.claims| == n == |p.batches|
                  && (forall k | 0 <= k < n :: p.batches[k].Some?)
                  && Result(p) == Sequential(n, verify))
  {
    RunKeepsInv(Start(n), schedule, n, verify);
    var p := Run(Start(n), schedule, verify);
    OutstandingBounded(p.workers);
    if AllFinished(p) && !p.failed {
      if n > 0 {
        assert p.workers[0].Finished?;
      }
      forall k | 0 <= k < n ensures p.batches[k].Some? {
        assert p.batches[k].None? ==> InProgress(p, k);
      }
      SequentialFromBatches(n, verify, p.batches);
    }
  }

  /** After a failure no further index is claimed, whatever the workers still do. */
  lemma {:induction false} NoClaimAfterFailure(p: Pool, schedule: seq<Action>, verify: Verifier)
    requires p.failed
    ensures Run(p, schedule, verify).failed
    ensures Run(p, schedule, verify).claims == p.claims
    decreases |schedule|
  {
    if schedule != [] {
      NoClaimAfterFailure(Step(p, schedule[0], verify), schedule[1..], verify);
    }
  }

  /** Step `i` of the schedule lets a verification settle, and it has thrown or the signal is aborted. The
      index it was verifying is one that was claimed. */
  ghost predicate FailsAt(p: Pool, schedule: seq<Action>, i: nat, n: nat, verify: Verifier) {
    && i < |schedule|
    && var q := Run(p, schedule[..i], verify);
       && !q.failed && schedule[i].Settle? && Enabled(q, schedule[i])
       && var index := q.workers[schedule[i].worker].index;
          && index < n && index in Run(p, schedule, verify).claims
          && (schedule[i].aborted || verify(index).None?)
  }

  lemma {:induction false} ClaimsLast(p: Pool, schedule: seq<Action>, verify: Verifier)
    ensures p.claims <= Run(p, schedule, verify).claims
    decreases |schedule|
  {
    if schedule != [] {
      ClaimsLast(Step(p, schedule[0], verify), schedule[1..], verify);
    }
  }

  lemma {:induction false} RunSplits(p: Pool, schedule: seq<Action>, i: nat, verify: Verifier)
    requires i <= |schedule|
    ensures Run(p, schedule, verify) == Run(Run(p, schedule[..i], verify), schedule[i..], verify)
    decreases i
  {
    if i == 0 {
      assert schedule[..0] == [] && schedule[0..] == schedule;
    } else {
      RunSplits(Step(p, schedule[0], verify), schedule[1..], i - 1, verify);
      assert schedule[..i][0] == schedule[0] && schedule[..i][1..] == schedule[1..][..i - 1];
      assert schedule[1..][i - 1..] == schedule[i..];
    }
  }

  /** The first step that sets the failure flag. */
  lemma FirstFailure(p: Pool, schedule: seq<Action>, n: nat, verify: Verifier)
    requires Inv(p, n, verify) && !p.failed && schedule != [] && Step(p, schedule[0], verify).failed
    ensures FailsAt(p, schedule, 0, n, verify)
  {
    assert schedule[..0] == [];
    var a := schedule[0];
    var index := p.workers[a.worker].index;
    ClaimsLast(p, schedule, verify);
    assert p.claims[index] == index;
    assert Run(p, schedule, verify).claims[index] == index;
  }

  lemma FailsLater(p: Pool, schedule: seq<Action>, j: nat, n: nat, verify: Verifier)
    requires schedule != [] && FailsAt(Step(p, schedule[0], verify), schedule[1..], j, n, verify)
    ensures FailsAt(p, schedule, j + 1, n, verify)
  {
    assert schedule[..j + 1][0] == schedule[0] && schedule[..j + 1][1..] == schedule[1..][..j];
  }

  lemma {:induction false} FailureHasACause(p: Pool, schedule: seq<Action>, n: nat, verify: Verifier) returns (i: nat)
    requires Inv(p, n, verify) && !p.failed && Run(p, schedule, verify).failed
    ensures FailsAt(p, schedule, i, n, verify)
    decreases |schedule|
  {
    var next := Step(p, schedule[0], verify);
    if next.failed {
      FirstFailure(p, schedule, n, verify);
      i := 0;
    } else {
      StepKeepsInv(p, schedule[0], n, verify);
      var j := FailureHasACause(next, schedule[1..], n, verify);
      FailsLater(p, schedule, j, n, verify);
      i := j + 1;
    }
  }

  /** The pool fails exactly if, before anything else has failed, a verification of a claimed item throws or
      settles while the signal is aborted. */
  lemma FailsOnlyForCause(p: Pool, schedule: seq<Action>, n: nat, verify: Verifier)
    requires Inv(p, n, verify) && !p.failed
    ensures Run(p, schedule, verify).failed <==> exists i: nat :: FailsAt(p, schedule, i, n, verify)
  {
    if Run(p, schedule, verify).failed {
      var i := FailureHasACause(p, schedule, n, verify);
    }
    forall i: nat | FailsAt(p, schedule, i, n, verify) ensures Run(p, schedule, verify).failed {
      var q := Run(p, schedule[..i], verify);
      RunSplits(p, schedule, i, verify);
      assert Step(q, schedule[i..][0], verify).failed;
      NoClaimAfterFailure(Step(q, schedule[i..][0], verify), schedule[i..][1..], verify);
    }
  }

  function Weight(workers: seq<Worker>): nat {
    if workers == [] then 0
    else Weight(workers[1..]) + match workers[0] case Looping => 1 case Verifying(_) => 2 case Finished => 0
  }

  /** Work left: every step uses some up, so the pool ends under every schedule. */
  function Measure(p: Pool): nat {
    Weight(p.workers) + if p.cursor < |p.batches| then 3 * (|p.batches| - p.cursor) else 0
  }

  lemma {:induction false} WeightUpdate(workers: seq<Worker>, w: nat, next: Worker)
    requires w < |workers|
    ensures Weight(workers[w := next]) == Weight(workers) - Weight([workers[w]]) + Weight([next])
  {
    if w > 0 {
      assert workers[w := next][1..] == workers[1..][w - 1 := next];
      WeightUpdate(workers[1..], w - 1, next);
    } else {
      assert workers[w := next][1..] == workers[1..];
    }
  }

  lemma EveryStepMakesProgress(p: Pool, n: nat, a: Action, verify: Verifier)
    requires Inv(p, n, verify)
    ensures Enabled(p, a) ==> Measure(Step(p, a, verify)) < Measure(p)
    ensures !AllFinished(p) ==> exists b :: Enabled(p, b)
  {
    if Enabled(p, a) {
      WeightUpdate(p.workers, a.worker, Step(p, a, verify).workers[a.worker]);
    }
    if !AllFinished(p) {
      var w :| 0 <= w < |p.workers| && !p.workers[w].Finished?;
      if p.workers[w].Looping? {
        assert Enabled(p, Claim(w));
      } else {
        assert Enabled(p, Settle(w, false));
      }
    }
  }

  datatype AssembleError = RevisionMismatch | GraphRevisionMixed

  datatype Verified = Verified(graphRevision: Option<string>, results: map<string, nat>, runIds: map<string, string>)

  /** The position of the last item of an asset, which is the one that is kept. */
  ghost predicate LastOf(assets: seq<string>, upto: nat, asset: string, i: nat)
    requires upto <= |assets|
  {
    i < upto && assets[i] == asset && forall j | i < j < upto :: assets[j] != asset
  }

  ghost predicate SameGraph(batches: seq<Batch>) {
    forall i, j | 0 <= i < |batches| && 0 <= j < |batches|
                  && batches[i].graphRevision.Some? && batches[j].graphRevision.Some? ::
      batches[i].graphRevision == batches[j].graphRevision
  }

  /** The loop over all batches: it succeeds exactly if every batch has the expected code revision and
      no two name different graph revisions; then every asset has the answer of its last item. */
  method Assemble(assets: seq<string>, batches: seq<Batch>, sourceRef: string)
    returns (r: Result<Verified, AssembleError>)
    requires |assets| == |batches|
    ensures r.Ok? <==> (forall i | 0 <= i < |batches| :: batches[i].codeRevision == sourceRef) && SameGraph(batches)
    ensures r == Err(RevisionMismatch) ==> exists i | 0 <= i < |batches| :: batches[i].codeRevision != sourceRef
    ensures r.Ok? ==>
              && (forall asset :: asset in r.value.results <==> asset in assets)
              && r.value.runIds.Keys == r.value.results.Keys
              && (forall asset, i: nat | LastOf(assets, |assets|, asset, i) && asset in r.value.results ::
                    r.value.results[asset] == batches[i].results && r.value.runIds[asset] == batches[i].runId)
              && (forall i | 0 <= i < |batches| && batches[i].graphRevision.Some? ::
                    r.value.graphRevision == batches[i].graphRevision)
              && (r.value.graphRevision.Some? ==>
                    exists i | 0 <= i < |batches| :: batches[i].graphRevision == r.value.graphRevision)
  {
    var results: map<string, nat>, runIds: map<string, string> := map[], map[];
    var graphRevision: Option<string> := None;
    var i := 0;
    while i < |batches|
      invariant 0 <= i <= |batches|
      invariant forall j | 0 <= j < i :: batches[j].codeRevision == sourceRef
      invariant forall j | 0 <= j < i && batches[j].graphRevision.Some? :: graphRevision == batches[j].graphRevision
      invariant graphRevision.Some? ==> exists j | 0 <= j < i :: batches[j].graphRevision == graphRevision
      invariant forall asset :: asset in results <==> asset in assets[..i]
      invariant runIds.Keys == results.Keys
      invariant forall asset, j: nat | LastOf(assets, i, asset, j) && asset in results ::
                  results[asset] == batches[j].results && runIds[asset] == batches[j].runId
    {
      var batch := batches[i];
      if batch.codeRevision != sourceRef { return Err(RevisionMismatch); }
      if batch.graphRevision.Some? {
        if graphRevision.Some? && graphRevision != batch.graphRevision { return Err(GraphRevisionMixed); }
        graphRevision := batch.graphRevision;
      }
      assert assets[..i + 1] == assets[..i] + [assets[i]];
      results := results[assets[i] := batch.results];
      runIds := runIds[assets[i] := batch.runId];
      assert forall asset, j: nat | LastOf(assets, i + 1, asset, j) && asset != assets[i] ::
               LastOf(assets, i, asset, j);
      i := i + 1;
    }
    assert assets[..i] == assets;
    return Ok(Verified(graphRevision, results, runIds));
  }
}
