/** Which response each request of the MCP stdio adapter gets, and why, over every interleaving. */
module McpAnswers {
  import opened Wrappers
  import opened McpDispatch

  /** A request with an id finds a free slot, and its id is not in use. */
  predicate Admitted(w: World, r: Request) {
    Owed(r) && w.inFlight < w.maximum && r.id.value !in w.active
  }

  /** The step decides that task `i` gets this response. */
  predicate Decides(w: World, a: Action, i: nat, response: Response) {
    && Enabled(w, a)
    && match a
       case Receive(r) =>
         && i == |w.tasks| && Owed(r)
         && (match response
             case Busy => w.inFlight >= w.maximum
             case InvalidRequest => w.inFlight < w.maximum && r.id.value in w.active
             case InvalidParams => Admitted(w, r) && r.kind == Call(false)
             case MethodNotFound => Admitted(w, r) && r.kind.Unknown?
             case Result => Admitted(w, r) && r.kind.Simple?
             case _ => false)
       case AuthoritySettles(task, ok) =>
         && i == task
         && (if w.tasks[i].aborted then response.Cancelled? else !ok && response.InternalError?)
       case HandlerSettles(task, ok) =>
         && i == task
         && (if ok then response.Result?
             else if w.tasks[i].aborted then response.Cancelled? else response.InternalError?)
       case AbortDelivered(task) => i == task && response.Cancelled?
       case _ => false
  }

  predicate Has(w: World, i: nat, response: Response) {
    i < |w.tasks| && (w.tasks[i].phase == Responding(response) || w.tasks[i].phase == Answered(response))
  }

  /** A step gives a task a response exactly if it decides so, and a response that was given stays. */
  lemma RespondsExactly(w: World, a: Action, i: nat, response: Response)
    requires QueueInv(w)
    ensures Has(Step(w, a), i, response) <==> Has(w, i, response) || Decides(w, a, i, response)
  {
    if Enabled(w, a) {
      match a
      case Receive(r) => ReceiveResponds(w, r, i, response);
      case WriteCompletes => WriteResponds(w, i, response);
      case StdinCloses => CloseResponds(w, i, response);
      case _ => SettleResponds(w, a, i, response);
    }
  }

  lemma CloseResponds(w: World, i: nat, response: Response)
    requires Enabled(w, StdinCloses)
    ensures Has(Step(w, StdinCloses), i, response) <==> Has(w, i, response)
  {
  }

  lemma ReceiveResponds(w: World, r: Request, i: nat, response: Response)
    requires Enabled(w, Receive(r))
    ensures Has(ReceiveStep(w, r), i, response) <==> Has(w, i, response) || Decides(w, Receive(r), i, response)
  {
    if Owed(r) {
      AdmittedShape(w, r.id.value, r.kind);
    }
  }

  lemma WriteResponds(w: World, i: nat, response: Response)
    requires QueueInv(w) && Enabled(w, WriteCompletes)
    ensures Has(WriteStep(w), i, response) <==> Has(w, i, response)
  {
  }

  lemma SettleResponds(w: World, a: Action, i: nat, response: Response)
    requires Enabled(w, a) && !a.Receive? && !a.WriteCompletes? && !a.StdinCloses?
    ensures Has(Step(w, a), i, response) <==> Has(w, i, response) || Decides(w, a, i, response)
  {
  }

  /** A call that is to be handled starts to wait for the authority, and for the handler once it has agreed. */
  lemma WaitsExactly(w: World, a: Action, i: nat)
    requires QueueInv(w) && Enabled(w, a)
    ensures i < |Step(w, a).tasks| && Step(w, a).tasks[i].phase.Authorizing? <==>
              || (i < |w.tasks| && w.tasks[i].phase.Authorizing?
                  && a != AbortDelivered(i) && !(a.AuthoritySettles? && a.task == i))
              || (i == |w.tasks| && a.Receive? && Admitted(w, a.request) && a.request.kind == Call(true))
    ensures i < |Step(w, a).tasks| && Step(w, a).tasks[i].phase.Handling? <==>
              || (i < |w.tasks| && w.tasks[i].phase.Handling?
                  && a != AbortDelivered(i) && !(a.HandlerSettles? && a.task == i))
              || (i < |w.tasks| && a == AuthoritySettles(i, true) && !w.tasks[i].aborted)
  {
    match a
    case Receive(r) => ReceiveWaits(w, r, i);
    case WriteCompletes => WriteWaits(w, i);
    case _ =>
  }

  lemma ReceiveWaits(w: World, r: Request, i: nat)
    requires Enabled(w, Receive(r))
    ensures i < |ReceiveStep(w, r).tasks| && ReceiveStep(w, r).tasks[i].phase.Authorizing? <==>
              || (i < |w.tasks| && w.tasks[i].phase.Authorizing?)
              || (i == |w.tasks| && Admitted(w, r) && r.kind == Call(true))
    ensures i < |ReceiveStep(w, r).tasks| && ReceiveStep(w, r).tasks[i].phase.Handling? <==>
              i < |w.tasks| && w.tasks[i].phase.Handling?
  {
    if Owed(r) {
      AdmittedShape(w, r.id.value, r.kind);
    }
  }

  lemma WriteWaits(w: World, i: nat)
    requires Enabled(w, WriteCompletes)
    ensures |WriteStep(w).tasks| == |w.tasks|
    ensures i < |w.tasks| ==>
              && (WriteStep(w).tasks[i].phase.Authorizing? <==> w.tasks[i].phase.Authorizing?)
              && (WriteStep(w).tasks[i].phase.Handling? <==> w.tasks[i].phase.Handling?)
  {
  }

  /** The client asks to cancel the request with the id of the task, or stdin closes. */
  predicate Aborts(w: World, a: Action, i: nat) {
    && Enabled(w, a) && i < |w.tasks|
    && (a.StdinCloses? || (a.Receive? && a.request.kind == Cancel(Some(w.tasks[i].key))))
  }

  predicate Aborted(w: World, i: nat) {
    i < |w.tasks| && w.tasks[i].aborted
  }

  /** A call that waits is aborted exactly by these steps, and nothing takes that back. */
  lemma AbortedExactly(w: World, a: Action, i: nat)
    requires Inv(w)
    ensures Aborted(Step(w, a), i) ==> Aborted(w, i) || Aborts(w, a, i)
    ensures Aborted(w, i) ==> Aborted(Step(w, a), i)
    ensures Aborts(w, a, i) && Waits(w.tasks[i]) ==> Aborted(Step(w, a), i)
  {
    if Enabled(w, a) {
      match a
      case Receive(r) => ReceiveAborts(w, r, i);
      case StdinCloses => CloseAborts(w, i);
      case _ => OthersKeepAborts(w, a, i);
    }
  }

  lemma OthersKeepAborts(w: World, a: Action, i: nat)
    requires Enabled(w, a) && !a.Receive? && !a.StdinCloses?
    ensures Aborted(Step(w, a), i) == Aborted(w, i)
  {
  }

  lemma ReceiveAborts(w: World, r: Request, i: nat)
    requires ControllersInv(w) && Enabled(w, Receive(r))
    ensures var q := ReceiveStep(w, r);
            && (Aborted(q, i) ==> Aborted(w, i) || Aborts(w, Receive(r), i))
            && (Aborted(w, i) ==> Aborted(q, i))
            && (Aborts(w, Receive(r), i) && Waits(w.tasks[i]) ==> Aborted(q, i))
  {
    if r.kind.Cancel? {
      CancelAborts(w, r.kind.target, i);
    } else if Owed(r) {
      AdmittedShape(w, r.id.value, r.kind);
      AdmittedUnaborted(w, r.id.value, r.kind);
    }
  }

  lemma CancelAborts(w: World, target: Option<Key>, i: nat)
    requires ControllersInv(w)
    ensures var q := CancelStep(w, target);
            && (Aborted(q, i) ==> Aborted(w, i) || (i < |w.tasks| && target == Some(w.tasks[i].key)))
            && (Aborted(w, i) ==> Aborted(q, i))
            && (i < |w.tasks| && Waits(w.tasks[i]) && target == Some(w.tasks[i].key) ==> Aborted(q, i))
  {
  }

  lemma AdmittedUnaborted(w: World, key: Key, kind: Method)
    ensures !Aborted(AdmitStep(w, key, kind), |w.tasks|)
  {
  }

  lemma CloseAborts(w: World, i: nat)
    requires ControllersInv(w) && !w.closed
    ensures var q := Step(w, StdinCloses);
            && |q.tasks| == |w.tasks| && (Aborted(w, i) ==> Aborted(q, i))
            && (i < |w.tasks| && Waits(w.tasks[i]) ==> Aborted(q, i))
  {
    assert i < |w.tasks| ==> Step(w, StdinCloses).tasks[i] == AbortIfControlled(w, i);
  }

  // --- over runs -------------------------------------------------------------

  /** The world after the first `k` steps. */
  ghost function At(maximum: nat, schedule: seq<Action>, k: nat): World
    requires k <= |schedule|
  {
    Run(Start(maximum), schedule[..k])
  }

  lemma {:induction false} RunAppends(w: World, schedule: seq<Action>, a: Action)
    ensures Run(w, schedule + [a]) == Step(Run(w, schedule), a)
    decreases |schedule|
  {
    if schedule == [] {
      assert Run(Step(w, a), []) == Step(w, a);
      assert ([] + [a])[1..] == [];
    } else {
      RunAppends(Step(w, schedule[0]), schedule[1..], a);
      assert (schedule + [a])[1..] == schedule[1..] + [a];
    }
  }

  lemma AtNext(maximum: nat, schedule: seq<Action>, k: nat)
    requires k < |schedule|
    ensures At(maximum, schedule, k + 1) == Step(At(maximum, schedule, k), schedule[k]) && Inv(At(maximum, schedule, k))
  {
    assert schedule[..k + 1] == schedule[..k] + [schedule[k]];
    RunAppends(Start(maximum), schedule[..k], schedule[k]);
    RunKeepsInv(Start(maximum), schedule[..k]);
  }

  /** Step `k` of the schedule decided the response. */
  ghost predicate DecidedAt(maximum: nat, schedule: seq<Action>, k: nat, i: nat, response: Response) {
    k < |schedule| && Decides(At(maximum, schedule, k), schedule[k], i, response)
  }

  ghost predicate AbortedAt(maximum: nat, schedule: seq<Action>, k: nat, i: nat) {
    k < |schedule| && Aborts(At(maximum, schedule, k), schedule[k], i)
  }

  /** A task has a response exactly if one of the steps so far decided it. */
  lemma {:induction false} HasExactly(maximum: nat, schedule: seq<Action>, n: nat, i: nat, response: Response)
    requires n <= |schedule|
    ensures Has(At(maximum, schedule, n), i, response)
            <==> exists k: nat :: k < n && DecidedAt(maximum, schedule, k, i, response)
    decreases n
  {
    if n > 0 {
      HasExactly(maximum, schedule, n - 1, i, response);
      HasNext(maximum, schedule, n - 1, i, response);
    }
  }

  lemma HasNext(maximum: nat, schedule: seq<Action>, k: nat, i: nat, response: Response)
    requires k < |schedule|
    ensures Has(At(maximum, schedule, k + 1), i, response)
            <==> Has(At(maximum, schedule, k), i, response) || DecidedAt(maximum, schedule, k, i, response)
  {
    AtNext(maximum, schedule, k);
    RespondsExactly(At(maximum, schedule, k), schedule[k], i, response);
  }

  lemma {:induction false} AbortedHasCause(maximum: nat, schedule: seq<Action>, n: nat, i: nat)
    requires n <= |schedule| && Aborted(At(maximum, schedule, n), i)
    ensures exists k: nat :: k < n && AbortedAt(maximum, schedule, k, i)
    decreases n
  {
    if n > 0 {
      var last := n - 1;
      AtNext(maximum, schedule, last);
      AbortedExactly(At(maximum, schedule, last), schedule[last], i);
      if Aborted(At(maximum, schedule, last), i) {
        AbortedHasCause(maximum, schedule, last, i);
      } else {
        assert AbortedAt(maximum, schedule, last, i);
      }
    }
  }

  /** In every interleaving, whatever the client is sent was decided by one of the steps, for its reason. */
  lemma EveryResponseHasItsReason(maximum: nat, schedule: seq<Action>, p: nat)
    requires p < |Run(Start(maximum), schedule).output|
    ensures var (i, response) := Run(Start(maximum), schedule).output[p];
            exists k: nat :: DecidedAt(maximum, schedule, k, i, response)
  {
    var w := Run(Start(maximum), schedule);
    assert schedule[..|schedule|] == schedule;
    RunKeepsInv(Start(maximum), schedule);
    HasExactly(maximum, schedule, |schedule|, w.output[p].0, w.output[p].1);
  }

  /** What was decided is what is sent, when the task is answered: one decision, never another. */
  lemma DecisionIsFinal(maximum: nat, schedule: seq<Action>, k: nat, i: nat, response: Response)
    requires DecidedAt(maximum, schedule, k, i, response)
    ensures var w := Run(Start(maximum), schedule);
            && Has(w, i, response)
            && (forall p | 0 <= p < |w.output| && w.output[p].0 == i :: w.output[p].1 == response)
  {
    assert schedule[..|schedule|] == schedule;
    RunKeepsInv(Start(maximum), schedule);
    HasExactly(maximum, schedule, |schedule|, i, response);
  }

  // --- order -----------------------------------------------------------------

  /** The response that a task has been given. */
  function GivenTo(w: World, i: nat): (nat, Response)
    requires i < |w.tasks| && w.tasks[i].phase.Responding?
  {
    (i, w.tasks[i].phase.response)
  }

  ghost predicate Queued(w: World) {
    forall p | 0 <= p < |w.writeQueue| ::
      w.writeQueue[p] < |w.tasks| && w.tasks[w.writeQueue[p]].phase.Responding?
  }

  ghost function Unsent(w: World): seq<(nat, Response)>
    requires Queued(w)
  {
    seq(|w.writeQueue|, p requires 0 <= p < |w.writeQueue| => GivenTo(w, w.writeQueue[p]))
  }

  /** What has been sent, and after it what is still to be sent. */
  ghost function Answers(w: World): seq<(nat, Response)>
    requires Queued(w)
  {
    w.output + Unsent(w)
  }

  /** One more answer that the step has decided, or none. */
  ghost predicate Grows(w: World, a: Action, before: seq<(nat, Response)>, after: seq<(nat, Response)>) {
    && before <= after
    && (|after| == |before|
        || (|after| == |before| + 1 && Decides(w, a, after[|before|].0, after[|before|].1)))
  }

  lemma LaterStays(w: World, p: nat)
    requires QueueInv(w) && Enabled(w, WriteCompletes) && p + 1 < |w.writeQueue|
    ensures WriteStep(w).writeQueue[p] == w.writeQueue[p + 1]
    ensures WriteStep(w).tasks[w.writeQueue[p + 1]] == w.tasks[w.writeQueue[p + 1]]
  {
    assert w.writeQueue[0] != w.writeQueue[p + 1];
  }

  lemma UnsentShifts(w: World, q: World)
    requires Queued(w) && Queued(q) && w.writeQueue != [] && q.writeQueue == w.writeQueue[1..]
    requires forall p | 0 <= p < |q.writeQueue| :: q.tasks[q.writeQueue[p]] == w.tasks[q.writeQueue[p]]
    ensures Unsent(w) == [GivenTo(w, w.writeQueue[0])] + Unsent(q)
  {
    forall p | 0 <= p < |q.writeQueue| ensures Unsent(q)[p] == Unsent(w)[p + 1] {
      assert q.writeQueue[p] == w.writeQueue[p + 1];
    }
  }

  lemma WriteSendsFirst(w: World)
    requires QueueInv(w) && Enabled(w, WriteCompletes) && QueueInv(WriteStep(w))
    ensures Unsent(w) == [GivenTo(w, w.writeQueue[0])] + Unsent(WriteStep(w))
  {
    var q := WriteStep(w);
    forall p | 0 <= p < |q.writeQueue| ensures q.tasks[q.writeQueue[p]] == w.tasks[q.writeQueue[p]] {
      LaterStays(w, p);
    }
    UnsentShifts(w, q);
  }

  lemma WriteKeepsAnswers(w: World)
    requires QueueInv(w) && Enabled(w, WriteCompletes) && QueueInv(WriteStep(w))
    ensures Answers(WriteStep(w)) == Answers(w)
  {
    WriteSendsFirst(w);
    assert WriteStep(w).output == w.output + [GivenTo(w, w.writeQueue[0])];
  }

  lemma QueueAnswers(w: World, i: nat, response: Response)
    requires QueueInv(w) && i < |w.tasks| && Waits(w.tasks[i]) && QueueInv(Queue(w, i, response))
    ensures Answers(Queue(w, i, response)) == Answers(w) + [(i, response)]
  {
  }

  lemma SameAnswers(w: World, q: World)
    requires QueueInv(w) && QueueInv(q) && q.output == w.output && q.writeQueue == w.writeQueue
    requires forall i | 0 <= i < |w.tasks| :: i < |q.tasks| && q.tasks[i].phase == w.tasks[i].phase
    ensures Answers(q) == Answers(w)
  {
  }

  lemma AddedAnswers(w: World, q: World)
    requires QueueInv(w) && QueueInv(q) && OneAdded(w, q)
    ensures Answers(q)
         == Answers(w) + if q.tasks[|w.tasks|].phase.Responding? then [GivenTo(q, |w.tasks|)] else []
  {
    assert forall p | 0 <= p < |w.writeQueue| :: q.writeQueue[p] == w.writeQueue[p] < |w.tasks|;
  }

  lemma ReceiveGrows(w: World, r: Request)
    requires QueueInv(w) && Enabled(w, Receive(r)) && QueueInv(ReceiveStep(w, r))
    ensures Grows(w, Receive(r), Answers(w), Answers(ReceiveStep(w, r)))
  {
    var q := ReceiveStep(w, r);
    if Owed(r) {
      AdmittedShape(w, r.id.value, r.kind);
      AddedAnswers(w, q);
      if q.tasks[|w.tasks|].phase.Responding? {
        ReceiveResponds(w, r, |w.tasks|, q.tasks[|w.tasks|].phase.response);
      }
    } else {
      SameAnswers(w, q);
    }
  }

  lemma SettleGrows(w: World, a: Action, i: nat)
    requires QueueInv(w) && Enabled(w, a) && QueueInv(Step(w, a))
    requires a == AuthoritySettles(i, true) || a == AuthoritySettles(i, false) || a == AbortDelivered(i)
             || a == HandlerSettles(i, true) || a == HandlerSettles(i, false)
    ensures Grows(w, a, Answers(w), Answers(Step(w, a)))
  {
    var q := Step(w, a);
    if q.tasks[i].phase.Handling? {
      HandledAnswers(w, i);
    } else {
      QueueAnswers(w, i, q.tasks[i].phase.response);
      SettleResponds(w, a, i, q.tasks[i].phase.response);
    }
  }

  lemma HandledAnswers(w: World, i: nat)
    requires QueueInv(w) && i < |w.tasks| && w.tasks[i].phase.Authorizing? && QueueInv(Handled(w, i))
    ensures Answers(Handled(w, i)) == Answers(w)
  {
    assert forall p | 0 <= p < |w.writeQueue| :: w.writeQueue[p] != i;
  }

  lemma AnswersGrow(w: World, a: Action)
    requires QueueInv(w) && QueueInv(Step(w, a))
    ensures Grows(w, a, Answers(w), Answers(Step(w, a)))
  {
    if Enabled(w, a) {
      match a
      case Receive(r) => ReceiveGrows(w, r);
      case WriteCompletes => WriteKeepsAnswers(w);
      case StdinCloses => SameAnswers(w, Step(w, a));
      case AuthoritySettles(i, _) => SettleGrows(w, a, i);
      case HandlerSettles(i, _) => SettleGrows(w, a, i);
      case AbortDelivered(i) => SettleGrows(w, a, i);
    }
  }

  /** Step `j` decided the one response, and a later step the other. */
  ghost predicate InTurn(maximum: nat, schedule: seq<Action>, one: (nat, Response), other: (nat, Response)) {
    exists j: nat, k: nat | j < k ::
      DecidedAt(maximum, schedule, j, one.0, one.1) && DecidedAt(maximum, schedule, k, other.0, other.1)
  }

  lemma AnswersAreGiven(w: World, p: nat)
    requires QueueInv(w) && OutputInv(w) && p < |Answers(w)|
    ensures Has(w, Answers(w)[p].0, Answers(w)[p].1)
  {
    if p >= |w.output| {
      assert Answers(w)[p] == GivenTo(w, w.writeQueue[p - |w.output|]);
    }
  }

  ghost function AnswersAt(maximum: nat, schedule: seq<Action>, n: nat): seq<(nat, Response)>
    requires n <= |schedule|
  {
    RunKeepsInv(Start(maximum), schedule[..n]);
    Answers(At(maximum, schedule, n))
  }

  lemma AnswersAtNext(maximum: nat, schedule: seq<Action>, k: nat)
    requires k < |schedule|
    ensures var before, after := AnswersAt(maximum, schedule, k), AnswersAt(maximum, schedule, k + 1);
            && before <= after
            && (|after| > |before| ==>
                  |after| == |before| + 1
                  && DecidedAt(maximum, schedule, k, after[|before|].0, after[|before|].1))
  {
    var w, next := At(maximum, schedule, k), At(maximum, schedule, k + 1);
    AtNext(maximum, schedule, k);
    StepKeepsInv(w, schedule[k]);
    AnswersGrow(w, schedule[k]);
    assert AnswersAt(maximum, schedule, k) == Answers(w);
    assert AnswersAt(maximum, schedule, k + 1) == Answers(next);
  }

  lemma AnswersAtAreGiven(maximum: nat, schedule: seq<Action>, k: nat, p: nat)
    requires k <= |schedule| && p < |AnswersAt(maximum, schedule, k)|
    ensures var given := AnswersAt(maximum, schedule, k)[p]; Has(At(maximum, schedule, k), given.0, given.1)
  {
    RunKeepsInv(Start(maximum), schedule[..k]);
    AnswersAreGiven(At(maximum, schedule, k), p);
  }

  lemma LatestIsInTurn(maximum: nat, schedule: seq<Action>, last: nat, one: (nat, Response), other: (nat, Response))
    requires last < |schedule| && Has(At(maximum, schedule, last), one.0, one.1)
    requires DecidedAt(maximum, schedule, last, other.0, other.1)
    ensures InTurn(maximum, schedule, one, other)
  {
    HasExactly(maximum, schedule, last, one.0, one.1);
  }

  lemma {:induction false} AnswersAreInTurn(maximum: nat, schedule: seq<Action>, n: nat, p: nat, q: nat)
    requires n <= |schedule| && p < q < |AnswersAt(maximum, schedule, n)|
    ensures var all := AnswersAt(maximum, schedule, n); InTurn(maximum, schedule, all[p], all[q])
    decreases n
  {
    if n > 0 {
      var before, after := AnswersAt(maximum, schedule, n - 1), AnswersAt(maximum, schedule, n);
      AnswersAtNext(maximum, schedule, n - 1);
      if q < |before| {
        AnswersAreInTurn(maximum, schedule, n - 1, p, q);
      } else {
        AnswersAtAreGiven(maximum, schedule, n - 1, p);
        LatestIsInTurn(maximum, schedule, n - 1, before[p], after[q]);
      }
    }
  }

  /** Responses leave in the order in which they were decided. */
  lemma ResponsesLeaveInTurn(maximum: nat, schedule: seq<Action>, p: nat, q: nat)
    requires p < q < |Run(Start(maximum), schedule).output|
    ensures var output := Run(Start(maximum), schedule).output; InTurn(maximum, schedule, output[p], output[q])
  {
    assert schedule[..|schedule|] == schedule;
    RunKeepsInv(Start(maximum), schedule);
    AnswersAreInTurn(maximum, schedule, |schedule|, p, q);
  }

  // --- cancellation ----------------------------------------------------------

  /** A client is told that its call was cancelled only after it asked for that, or closed stdin. */
  lemma CancelledOnlyForCause(maximum: nat, schedule: seq<Action>, p: nat)
    requires p < |Run(Start(maximum), schedule).output| && Run(Start(maximum), schedule).output[p].1.Cancelled?
    ensures exists j: nat :: AbortedAt(maximum, schedule, j, Run(Start(maximum), schedule).output[p].0)
  {
    EveryResponseHasItsReason(maximum, schedule, p);
    var i := Run(Start(maximum), schedule).output[p].0;
    var k: nat :| DecidedAt(maximum, schedule, k, i, Cancelled);
    assert Aborted(At(maximum, schedule, k), i);
    AbortedHasCause(maximum, schedule, k, i);
  }

  /** The call is cancelled and unanswered, or answered as cancelled or with a result: never as failed. */
  predicate CancelledOrResult(w: World, i: nat) {
    Aborted(w, i) && (Waits(w.tasks[i]) || Has(w, i, Cancelled) || Has(w, i, Result))
  }

  ghost predicate AbortedWaiting(maximum: nat, schedule: seq<Action>, k: nat, i: nat) {
    AbortedAt(maximum, schedule, k, i) && Waits(At(maximum, schedule, k).tasks[i])
  }

  /** A call that is cancelled while it waits is answered as cancelled, or with the result of a handler that
      succeeds before the abort is delivered. */
  lemma {:induction false} CancelledCallsNeverFail(maximum: nat, schedule: seq<Action>, j: nat, i: nat, n: nat)
    requires AbortedWaiting(maximum, schedule, j, i) && j < n <= |schedule|
    ensures CancelledOrResult(At(maximum, schedule, n), i)
    decreases n
  {
    if n == j + 1 {
      BecomesCancelled(maximum, schedule, j, i);
    } else {
      CancelledCallsNeverFail(maximum, schedule, j, i, n - 1);
      RemainsCancelled(maximum, schedule, n - 1, i);
    }
  }

  lemma BecomesCancelled(maximum: nat, schedule: seq<Action>, k: nat, i: nat)
    requires AbortedWaiting(maximum, schedule, k, i)
    ensures CancelledOrResult(At(maximum, schedule, k + 1), i)
  {
    AtNext(maximum, schedule, k);
    CancelledNow(At(maximum, schedule, k), schedule[k], i);
  }

  lemma RemainsCancelled(maximum: nat, schedule: seq<Action>, k: nat, i: nat)
    requires k < |schedule| && CancelledOrResult(At(maximum, schedule, k), i)
    ensures CancelledOrResult(At(maximum, schedule, k + 1), i)
  {
    AtNext(maximum, schedule, k);
    CancelledStays(At(maximum, schedule, k), schedule[k], i);
  }

  lemma CancelledNow(w: World, a: Action, i: nat)
    requires Inv(w) && Aborts(w, a, i) && Waits(w.tasks[i])
    ensures CancelledOrResult(Step(w, a), i)
  {
    AbortedExactly(w, a, i);
    WaitsOrResponds(w, a, i);
  }

  lemma CancelledStays(w: World, a: Action, i: nat)
    requires Inv(w) && CancelledOrResult(w, i)
    ensures CancelledOrResult(Step(w, a), i)
  {
    AbortedExactly(w, a, i);
    if Waits(w.tasks[i]) {
      WaitsOrResponds(w, a, i);
    }
    RespondsExactly(w, a, i, Cancelled);
    RespondsExactly(w, a, i, Result);
  }

  /** A waiting call goes on waiting, or has been given a response by this step. */
  lemma WaitsOrResponds(w: World, a: Action, i: nat)
    requires i < |w.tasks| && Waits(w.tasks[i]) && QueueInv(w)
    ensures i < |Step(w, a).tasks|
    ensures Waits(Step(w, a).tasks[i]) || Decides(w, a, i, Result) || Decides(w, a, i, Cancelled)
            || (!Aborted(w, i) && Decides(w, a, i, InternalError))
  {
    if Enabled(w, a) && a.Receive? && Owed(a.request) {
      AdmittedShape(w, a.request.id.value, a.request.kind);
    }
  }
}
