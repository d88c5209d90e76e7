/** The in-flight request machine of the MCP stdio adapter. A step is what runs between two awaits:
    a request arrives, a port settles, a write completes, or stdin closes. Writes are assumed to
    complete; they leave in the order in which they were queued. */
module McpDispatch {
  import opened Wrappers

  /** `keyForId`: an id and its type. */
  type Key = string

  datatype Method =
    | Initialized
    | Cancel(target: Option<Key>)
    | Simple
    | Unknown
    | Call(valid: bool)

  datatype Request = Request(id: Option<Key>, kind: Method)

  datatype Response = Result | Busy | InvalidRequest | InvalidParams | MethodNotFound | Cancelled | InternalError

  datatype Phase = Authorizing | Handling | Responding(response: Response) | Answered(response: Response)

  /** A request that is owed a response. `slot` says that it holds an in-flight slot. */
  datatype Task = Task(key: Key, slot: bool, aborted: bool, phase: Phase)

  /** A port is still to answer. */
  predicate Waits(task: Task) {
    task.phase.Authorizing? || task.phase.Handling?
  }

  /** `output` is what the client has been sent: the task answered and the response. */
  datatype World = World(
    maximum: nat,
    inFlight: nat,
    active: set<Key>,
    controllers: map<Key, nat>,
    tasks: seq<Task>,
    writeQueue: seq<nat>,
    output: seq<(nat, Response)>,
    closed: bool)

  datatype Action =
    | Receive(request: Request)
    | AuthoritySettles(task: nat, ok: bool)
    | HandlerSettles(task: nat, ok: bool)
    | AbortDelivered(task: nat)
    | WriteCompletes
    | StdinCloses

  function Start(maximum: nat): World {
    World(maximum, 0, {}, map[], [], [], [], false)
  }

  function Queue(w: World, task: nat, response: Response): World
    requires task < |w.tasks|
  {
    w.(tasks := w.tasks[task := w.tasks[task].(phase := Responding(response))], writeQueue := w.writeQueue + [task])
  }

  /** The authority has answered, and the handler runs. */
  function Handled(w: World, i: nat): World
    requires i < |w.tasks|
  {
    w.(tasks := w.tasks[i := w.tasks[i].(phase := Handling)])
  }

  function Add(w: World, key: Key, slot: bool, phase: Phase): World {
    var added := w.(tasks := w.tasks + [Task(key, slot, false, phase)]);
    if phase.Responding? then added.(writeQueue := w.writeQueue + [|w.tasks|]) else added
  }

  function AbortTask(w: World, task: nat): World
    requires task < |w.tasks|
  {
    w.(tasks := w.tasks[task := w.tasks[task].(aborted := true)])
  }

  predicate Owed(r: Request) {
    r.id.Some? && !r.kind.Initialized? && !r.kind.Cancel?
  }

  /** A cancellation aborts the controller of the named request, if there is one. */
  function CancelStep(w: World, target: Option<Key>): World {
    if target.Some? && target.value in w.controllers && w.controllers[target.value] < |w.tasks|
    then AbortTask(w, w.controllers[target.value]) else w
  }

  /** A request with an id takes a slot, unless none is free or its id is in use. */
  function AdmitStep(w: World, key: Key, kind: Method): World {
    if w.inFlight >= w.maximum then Add(w, key, false, Responding(Busy))
    else if key in w.active then Add(w, key, false, Responding(InvalidRequest))
    else
      var held := w.(active := w.active + {key}, inFlight := w.inFlight + 1);
      if kind == Call(true) then Add(held.(controllers := held.controllers[key := |w.tasks|]), key, true, Authorizing)
      else if kind == Call(false) then Add(held, key, true, Responding(InvalidParams))
      else if kind == Unknown then Add(held, key, true, Responding(MethodNotFound))
      else Add(held, key, true, Responding(Result))
  }

  /** What dispatching a parsed request does up to its first await. */
  function ReceiveStep(w: World, r: Request): World {
    if r.kind.Initialized? then w
    else if r.kind.Cancel? then CancelStep(w, r.kind.target)
    else if r.id.None? then w
    else AdmitStep(w, r.id.value, r.kind)
  }

  /** A queued write leaves; if its task holds a slot, the slot and its controller are released. */
  function WriteStep(w: World): World
    requires w.writeQueue != [] && w.writeQueue[0] < |w.tasks| && w.tasks[w.writeQueue[0]].phase.Responding?
  {
    var i := w.writeQueue[0];
    var task := w.tasks[i];
    var sent := w.(writeQueue := w.writeQueue[1..],
                   output := w.output + [(i, task.phase.response)],
                   tasks := w.tasks[i := task.(phase := Answered(task.phase.response))]);
    if !task.slot then sent
    else sent.(active := sent.active - {task.key}, controllers := sent.controllers - {task.key},
               inFlight := if sent.inFlight > 0 then sent.inFlight - 1 else 0)
  }

  predicate Enabled(w: World, a: Action) {
    match a
    case Receive(_) => !w.closed
    case AuthoritySettles(i, _) => i < |w.tasks| && w.tasks[i].phase.Authorizing?
    case HandlerSettles(i, _) => i < |w.tasks| && w.tasks[i].phase.Handling?
    case AbortDelivered(i) => i < |w.tasks| && w.tasks[i].aborted && Waits(w.tasks[i])
    case WriteCompletes =>
      w.writeQueue != [] && w.writeQueue[0] < |w.tasks| && w.tasks[w.writeQueue[0]].phase.Responding?
    case StdinCloses => !w.closed
  }

  function Failure(task: Task): Response {
    if task.aborted then Cancelled else InternalError
  }

  function Step(w: World, a: Action): World {
    if !Enabled(w, a) then w
    else
      match a
      case Receive(r) => ReceiveStep(w, r)
      case AuthoritySettles(i, ok) =>
        if ok && !w.tasks[i].aborted then Handled(w, i)
        else Queue(w, i, Failure(w.tasks[i]))
      case HandlerSettles(i, ok) => Queue(w, i, if ok then Result else Failure(w.tasks[i]))
      case AbortDelivered(i) => Queue(w, i, Cancelled)
      case WriteCompletes => WriteStep(w)
      case StdinCloses =>
        w.(closed := true, tasks := seq(|w.tasks|, i requires 0 <= i < |w.tasks| => AbortIfControlled(w, i)))
  }

  function AbortIfControlled(w: World, i: nat): Task
    requires i < |w.tasks|
  {
    var task := w.tasks[i];
    if task.key in w.controllers && w.controllers[task.key] == i then task.(aborted := true) else task
  }

  ghost function Run(w: World, schedule: seq<Action>): World
    decreases |schedule|
  {
    if schedule == [] then w else Run(Step(w, schedule[0]), schedule[1..])
  }

  predicate Holds(task: Task) {
    task.slot && !task.phase.Answered?
  }

  /** The slots: one per active id, never more than the maximum. */
  ghost predicate SlotsInv(w: World) {
    && w.inFlight == |w.active| <= w.maximum
    && (forall i | 0 <= i < |w.tasks| && Holds(w.tasks[i]) :: w.tasks[i].key in w.active)
    && (forall i, j | 0 <= i < j < |w.tasks| && Holds(w.tasks[i]) && Holds(w.tasks[j]) ::
          w.tasks[i].key != w.tasks[j].key)
    && (forall k | k in w.active :: HeldBy(w, k))
  }

  ghost predicate HeldBy(w: World, k: Key) {
    exists i | 0 <= i < |w.tasks| :: Holds(w.tasks[i]) && w.tasks[i].key == k
  }

  /** Controllers belong to active ids, and every call that waits for a port has its own. */
  ghost predicate ControllersInv(w: World) {
    && (forall k | k in w.controllers ::
          k in w.active && w.controllers[k] < |w.tasks|
          && Holds(w.tasks[w.controllers[k]]) && w.tasks[w.controllers[k]].key == k)
    && (forall i | 0 <= i < |w.tasks| && Waits(w.tasks[i]) ::
          w.tasks[i].slot && w.tasks[i].key in w.controllers && w.controllers[w.tasks[i].key] == i
          && (w.closed ==> w.tasks[i].aborted))
  }

  /** The write queue holds each responding task once, and nothing else. */
  ghost predicate QueueInv(w: World) {
    && (forall p | 0 <= p < |w.writeQueue| ::
          w.writeQueue[p] < |w.tasks| && w.tasks[w.writeQueue[p]].phase.Responding?)
    && (forall p, q | 0 <= p < q < |w.writeQueue| :: w.writeQueue[p] != w.writeQueue[q])
    && (forall i | 0 <= i < |w.tasks| && w.tasks[i].phase.Responding? :: i in w.writeQueue)
  }

  /** A task has been sent one response if it is answered, and none otherwise. */
  ghost predicate OutputInv(w: World) {
    && (forall p | 0 <= p < |w.output| ::
          w.output[p].0 < |w.tasks| && w.tasks[w.output[p].0].phase == Answered(w.output[p].1))
    && (forall p, q | 0 <= p < q < |w.output| :: w.output[p].0 != w.output[q].0)
    && (forall i | 0 <= i < |w.tasks| && w.tasks[i].phase.Answered? :: Sent(w, i))
  }

  ghost predicate Sent(w: World, i: nat) {
    exists p | 0 <= p < |w.output| :: w.output[p].0 == i
  }

  ghost predicate Inv(w: World) {
    SlotsInv(w) && ControllersInv(w) && QueueInv(w) && OutputInv(w)
  }

  /** Steps that keep who holds which slot. */
  lemma SlotsKept(w: World, q: World)
    requires SlotsInv(w) && |q.tasks| == |w.tasks|
    requires q.active == w.active && q.inFlight == w.inFlight && q.maximum == w.maximum
    requires forall i | 0 <= i < |w.tasks| :: Holds(q.tasks[i]) == Holds(w.tasks[i]) && q.tasks[i].key == w.tasks[i].key
    ensures SlotsInv(q)
  {
    forall k | k in q.active ensures HeldBy(q, k) {
      HeldByKept(w, q, k);
    }
  }

  lemma HeldByKept(w: World, q: World, k: Key)
    requires HeldBy(w, k) && |w.tasks| <= |q.tasks|
    requires forall i | 0 <= i < |w.tasks| && w.tasks[i].key == k ::
               q.tasks[i].key == k && (Holds(w.tasks[i]) ==> Holds(q.tasks[i]))
    ensures HeldBy(q, k)
  {
    var j :| 0 <= j < |w.tasks| && Holds(w.tasks[j]) && w.tasks[j].key == k;
    assert Holds(q.tasks[j]) && q.tasks[j].key == k;
  }

  /** Steps that send nothing and answer no task. */
  lemma OutputKept(w: World, q: World)
    requires OutputInv(w) && q.output == w.output && |w.tasks| <= |q.tasks|
    requires forall i | 0 <= i < |w.tasks| :: w.tasks[i].phase.Answered? ==> q.tasks[i].phase == w.tasks[i].phase
    requires forall i | 0 <= i < |q.tasks| && q.tasks[i].phase.Answered? :: i < |w.tasks| && w.tasks[i].phase.Answered?
    ensures OutputInv(q)
  {
    forall i | 0 <= i < |q.tasks| && q.tasks[i].phase.Answered? ensures Sent(q, i) {
      assert Sent(w, i);
      var p :| 0 <= p < |w.output| && w.output[p].0 == i;
      assert q.output[p].0 == i;
    }
  }

  /** Steps that leave the write queue and the responding tasks alone. */
  lemma QueueKept(w: World, q: World)
    requires QueueInv(w) && q.writeQueue == w.writeQueue && |q.tasks| == |w.tasks|
    requires forall i | 0 <= i < |w.tasks| :: w.tasks[i].phase.Responding? == q.tasks[i].phase.Responding?
    ensures QueueInv(q)
  {
  }

  /** Steps that move one task out of a wait, or leave it waiting, and keep the controllers. */
  lemma ControllersKept(w: World, q: World)
    requires ControllersInv(w) && |q.tasks| == |w.tasks|
    requires q.active == w.active && q.controllers == w.controllers && q.closed == w.closed
    requires forall i | 0 <= i < |w.tasks| ::
               && q.tasks[i].key == w.tasks[i].key && q.tasks[i].slot == w.tasks[i].slot
               && Holds(q.tasks[i]) == Holds(w.tasks[i])
               && (Waits(q.tasks[i]) ==>
                     && Waits(w.tasks[i])
                     && (w.tasks[i].aborted ==> q.tasks[i].aborted))
    ensures ControllersInv(q)
  {
  }

  lemma QueueGrows(w: World, q: World, i: nat)
    requires QueueInv(w) && i < |q.tasks| && |w.tasks| <= |q.tasks| <= |w.tasks| + 1
    requires |w.tasks| < |q.tasks| ==> i == |w.tasks|
    requires i < |w.tasks| ==> !w.tasks[i].phase.Responding?
    requires q.writeQueue == w.writeQueue + [i] && q.tasks[i].phase.Responding?
    requires forall j | 0 <= j < |w.tasks| && j != i :: q.tasks[j].phase.Responding? == w.tasks[j].phase.Responding?
    ensures QueueInv(q)
  {
    assert forall p | 0 <= p < |w.writeQueue| :: w.writeQueue[p] != i;
    assert q.writeQueue[|w.writeQueue|] == i;
    forall j | 0 <= j < |q.tasks| && q.tasks[j].phase.Responding? ensures j in q.writeQueue {
      if j != i {
        assert j in w.writeQueue;
      }
    }
  }

  lemma QueueKeepsSlots(w: World, i: nat, response: Response)
    requires SlotsInv(w) && i < |w.tasks| && Waits(w.tasks[i])
    ensures SlotsInv(Queue(w, i, response))
  {
    SlotsKept(w, Queue(w, i, response));
  }

  lemma QueueKeepsControllers(w: World, i: nat, response: Response)
    requires ControllersInv(w) && i < |w.tasks| && Waits(w.tasks[i])
    ensures ControllersInv(Queue(w, i, response))
  {
    ControllersKept(w, Queue(w, i, response));
  }

  lemma QueueKeepsQueue(w: World, i: nat, response: Response)
    requires QueueInv(w) && i < |w.tasks| && Waits(w.tasks[i])
    ensures QueueInv(Queue(w, i, response))
  {
    QueueGrows(w, Queue(w, i, response), i);
  }

  lemma QueueKeepsOutput(w: World, i: nat, response: Response)
    requires OutputInv(w) && i < |w.tasks| && Waits(w.tasks[i])
    ensures OutputInv(Queue(w, i, response))
  {
    OutputKept(w, Queue(w, i, response));
  }

  lemma QueueKeepsInv(w: World, i: nat, response: Response)
    requires Inv(w) && i < |w.tasks| && Waits(w.tasks[i])
    ensures Inv(Queue(w, i, response))
  {
    QueueKeepsSlots(w, i, response);
    QueueKeepsControllers(w, i, response);
    QueueKeepsQueue(w, i, response);
    QueueKeepsOutput(w, i, response);
  }

  lemma HandledKeepsControllers(w: World, i: nat)
    requires ControllersInv(w) && i < |w.tasks| && w.tasks[i].phase.Authorizing?
    ensures ControllersInv(Handled(w, i))
  {
    ControllersKept(w, Handled(w, i));
  }

  lemma HandledKeepsQueues(w: World, i: nat)
    requires QueueInv(w) && OutputInv(w) && i < |w.tasks| && w.tasks[i].phase.Authorizing?
    ensures QueueInv(Handled(w, i)) && OutputInv(Handled(w, i))
  {
    QueueKept(w, Handled(w, i));
    OutputKept(w, Handled(w, i));
  }

  lemma HandlingKeepsInv(w: World, i: nat)
    requires Inv(w) && i < |w.tasks| && w.tasks[i].phase.Authorizing?
    ensures Inv(Handled(w, i))
  {
    SlotsKept(w, Handled(w, i));
    HandledKeepsControllers(w, i);
    HandledKeepsQueues(w, i);
  }

  /** Any raising of abort flags, with or without the end of stdin. */
  lemma AbortsKeepInv(w: World, q: World)
    requires Inv(w) && |q.tasks| == |w.tasks|
    requires q == w.(tasks := q.tasks, closed := q.closed)
    requires forall i | 0 <= i < |w.tasks| ::
               q.tasks[i] == w.tasks[i].(aborted := q.tasks[i].aborted) && (w.tasks[i].aborted ==> q.tasks[i].aborted)
    requires q.closed != w.closed ==>
               forall i | 0 <= i < |w.tasks| && Waits(w.tasks[i]) :: q.tasks[i].aborted
    ensures Inv(q)
  {
    SlotsKept(w, q);
    QueueKept(w, q);
    OutputKept(w, q);
  }

  ghost predicate OneAdded(w: World, q: World) {
    && |q.tasks| == |w.tasks| + 1 && (forall i | 0 <= i < |w.tasks| :: q.tasks[i] == w.tasks[i])
    && q.maximum == w.maximum && q.closed == w.closed && q.output == w.output
    && !q.tasks[|w.tasks|].phase.Answered? && !q.tasks[|w.tasks|].phase.Handling?
    && q.writeQueue == w.writeQueue + if q.tasks[|w.tasks|].phase.Responding? then [|w.tasks|] else []
  }

  /** The new task takes a free slot for an unused id, or none. */
  ghost predicate SlotTaken(w: World, q: World)
    requires OneAdded(w, q)
  {
    var task := q.tasks[|w.tasks|];
    if task.slot then
      && task.key !in w.active && q.active == w.active + {task.key}
      && q.inFlight == w.inFlight + 1 <= w.maximum
    else q.active == w.active && q.inFlight == w.inFlight
  }

  /** The new task registers a controller exactly if it waits for a port. */
  ghost predicate ControllerTaken(w: World, q: World)
    requires OneAdded(w, q)
  {
    var task := q.tasks[|w.tasks|];
    if task.phase.Authorizing? then task.slot && q.controllers == w.controllers[task.key := |w.tasks|]
    else q.controllers == w.controllers
  }

  lemma AddKeepsHolders(w: World, q: World)
    requires SlotsInv(w) && OneAdded(w, q) && SlotTaken(w, q)
    ensures forall k | k in q.active :: HeldBy(q, k)
  {
    forall k | k in q.active ensures HeldBy(q, k) {
      if k in w.active {
        HeldByKept(w, q, k);
      } else {
        assert Holds(q.tasks[|w.tasks|]) && q.tasks[|w.tasks|].key == k;
      }
    }
  }

  lemma AddKeepsSlots(w: World, q: World)
    requires SlotsInv(w) && OneAdded(w, q) && SlotTaken(w, q)
    ensures SlotsInv(q)
  {
    AddKeepsHolders(w, q);
    AddKeepsDistinct(w, q);
  }

  lemma AddKeepsDistinct(w: World, q: World)
    requires SlotsInv(w) && OneAdded(w, q) && SlotTaken(w, q)
    ensures forall i, j | 0 <= i < j < |q.tasks| && Holds(q.tasks[i]) && Holds(q.tasks[j]) ::
              q.tasks[i].key != q.tasks[j].key
  {
    var task := q.tasks[|w.tasks|];
    assert Holds(task) ==> task.key !in w.active;
    forall i, j | 0 <= i < j < |q.tasks| && Holds(q.tasks[i]) && Holds(q.tasks[j])
      ensures q.tasks[i].key != q.tasks[j].key
    {
      assert w.tasks[i] == q.tasks[i];
    }
  }

  lemma AddKeepsControllers(w: World, q: World)
    requires ControllersInv(w) && !w.closed && OneAdded(w, q) && SlotTaken(w, q) && ControllerTaken(w, q)
    ensures ControllersInv(q)
  {
  }

  /** Whatever the answer to a request, one task is added, and it is queued unless it waits for a port. */
  lemma AdmittedShape(w: World, key: Key, kind: Method)
    ensures var q := AdmitStep(w, key, kind);
            OneAdded(w, q) && SlotTaken(w, q) && ControllerTaken(w, q)
  {
  }

  lemma AddKeepsQueue(w: World, q: World)
    requires QueueInv(w) && OneAdded(w, q)
    ensures QueueInv(q)
  {
    if q.tasks[|w.tasks|].phase.Responding? {
      QueueGrows(w, q, |w.tasks|);
    } else {
      assert q.writeQueue == w.writeQueue;
      forall j | 0 <= j < |q.tasks| && q.tasks[j].phase.Responding? ensures j in q.writeQueue {
        assert w.tasks[j].phase.Responding?;
      }
    }
  }

  lemma AddKeepsOutput(w: World, q: World)
    requires OutputInv(w) && OneAdded(w, q)
    ensures OutputInv(q)
  {
    OutputKept(w, q);
  }

  lemma AddKeepsInv(w: World, q: World)
    requires Inv(w) && !w.closed && OneAdded(w, q) && SlotTaken(w, q) && ControllerTaken(w, q)
    ensures Inv(q)
  {
    AddKeepsSlots(w, q);
    AddKeepsControllers(w, q);
    AddKeepsQueue(w, q);
    AddKeepsOutput(w, q);
  }

  lemma AdmitKeepsInv(w: World, key: Key, kind: Method)
    requires Inv(w) && !w.closed
    ensures Inv(AdmitStep(w, key, kind))
  {
    AdmittedShape(w, key, kind);
    AddKeepsInv(w, AdmitStep(w, key, kind));
  }

  lemma WriteKeepsSlots(w: World)
    requires Inv(w) && w.writeQueue != []
    ensures SlotsInv(WriteStep(w))
  {
    var q := WriteStep(w);
    var i := w.writeQueue[0];
    if !w.tasks[i].slot {
      SlotsKept(w, q);
    } else {
      forall k | k in q.active ensures HeldBy(q, k) {
        HeldByKept(w, q, k);
      }
    }
  }

  lemma WriteKeepsControllers(w: World)
    requires Inv(w) && w.writeQueue != []
    ensures ControllersInv(WriteStep(w))
  {
    var q := WriteStep(w);
    var i := w.writeQueue[0];
    if !w.tasks[i].slot {
      ControllersKept(w, q);
    } else {
      ReleasedControllers(w, q, i);
    }
  }

  /** The answered task leaves with its id and its controller; no other task had that id. */
  lemma ReleasedControllers(w: World, q: World, i: nat)
    requires SlotsInv(w) && ControllersInv(w) && i < |w.tasks| && Holds(w.tasks[i]) && w.tasks[i].phase.Responding?
    requires |q.tasks| == |w.tasks| && q.closed == w.closed && q.tasks[i].phase.Answered?
    requires forall j | 0 <= j < |w.tasks| && j != i :: q.tasks[j] == w.tasks[j]
    requires q.active == w.active - {w.tasks[i].key} && q.controllers == w.controllers - {w.tasks[i].key}
    ensures ControllersInv(q)
  {
    forall k | k in q.controllers ensures q.controllers[k] != i {
      assert k in w.controllers && w.tasks[w.controllers[k]].key == k;
    }
  }

  lemma WriteKeepsOutput(w: World)
    requires Inv(w) && w.writeQueue != []
    ensures OutputInv(WriteStep(w))
  {
    var q := WriteStep(w);
    var i := w.writeQueue[0];
    forall j | 0 <= j < |q.tasks| && q.tasks[j].phase.Answered? ensures Sent(q, j) {
      if j == i {
        assert q.output[|w.output|].0 == j;
      } else {
        assert Sent(w, j);
        var p :| 0 <= p < |w.output| && w.output[p].0 == j;
        assert q.output[p].0 == j;
      }
    }
  }

  lemma WriteKeepsQueue(w: World)
    requires Inv(w) && w.writeQueue != []
    ensures QueueInv(WriteStep(w))
  {
    var q := WriteStep(w);
    forall j | 0 <= j < |q.tasks| && q.tasks[j].phase.Responding? ensures j in q.writeQueue {
      assert j in w.writeQueue;
      var p :| 0 <= p < |w.writeQueue| && w.writeQueue[p] == j;
      assert q.writeQueue[p - 1] == j;
    }
  }

  lemma WriteKeepsInv(w: World)
    requires Inv(w) && w.writeQueue != []
    ensures Inv(WriteStep(w))
  {
    WriteKeepsSlots(w);
    WriteKeepsControllers(w);
    WriteKeepsOutput(w);
    WriteKeepsQueue(w);
  }

  lemma CloseKeepsInv(w: World)
    requires Inv(w)
    ensures Inv(Step(w, StdinCloses))
  {
    if !w.closed {
      AbortsKeepInv(w, Step(w, StdinCloses));
    }
  }

  lemma ReceiveKeepsInv(w: World, r: Request)
    requires Inv(w) && !w.closed
    ensures Inv(ReceiveStep(w, r))
  {
    if r.kind.Cancel? {
      AbortsKeepInv(w, ReceiveStep(w, r));
    } else if Owed(r) {
      AdmitKeepsInv(w, r.id.value, r.kind);
    }
  }

  lemma StepKeepsInv(w: World, a: Action)
    requires Inv(w)
    ensures Inv(Step(w, a))
  {
    if Enabled(w, a) {
      match a
      case Receive(r) => ReceiveKeepsInv(w, r);
      case AuthoritySettles(i, ok) =>
        if ok && !w.tasks[i].aborted {
          HandlingKeepsInv(w, i);
        } else {
          QueueKeepsInv(w, i, Failure(w.tasks[i]));
        }
      case HandlerSettles(i, ok) => QueueKeepsInv(w, i, if ok then Result else Failure(w.tasks[i]));
      case AbortDelivered(i) => QueueKeepsInv(w, i, Cancelled);
      case WriteCompletes => WriteKeepsInv(w);
      case StdinCloses => CloseKeepsInv(w);
    }
  }

  lemma {:induction false} RunKeepsInv(w: World, schedule: seq<Action>)
    requires Inv(w)
    ensures Inv(Run(w, schedule))
    decreases |schedule|
  {
    if schedule != [] {
      StepKeepsInv(w, schedule[0]);
      RunKeepsInv(Step(w, schedule[0]), schedule[1..]);
    }
  }

  /** In every interleaving the count of calls in flight is the number of active ids and never exceeds
      the maximum, controllers belong to active ids, and a request has one response exactly once it is
      answered: no position of the output repeats a task. */
  lemma EveryScheduleIsOrderly(maximum: nat, schedule: seq<Action>)
    ensures var w := Run(Start(maximum), schedule);
            && w.inFlight == |w.active| <= maximum
            && (forall k | k in w.controllers :: k in w.active)
            && (forall i | 0 <= i < |w.tasks| :: Sent(w, i) <==> w.tasks[i].phase.Answered?)
            && (forall p, q | 0 <= p < q < |w.output| :: w.output[p].0 != w.output[q].0)
  {
    RunKeepsInv(Start(maximum), schedule);
    MaximumIsFixed(Start(maximum), schedule);
  }

  lemma {:induction false} MaximumIsFixed(w: World, schedule: seq<Action>)
    ensures Run(w, schedule).maximum == w.maximum
    decreases |schedule|
  {
    if schedule != [] {
      MaximumIsFixed(Step(w, schedule[0]), schedule[1..]);
    }
  }

  /** The ids of the requests in a schedule that are owed a response, up to the end of stdin. */
  function OwedIds(schedule: seq<Action>, closed: bool): seq<Key> {
    if schedule == [] || closed then []
    else
      (if schedule[0].Receive? && Owed(schedule[0].request) then [schedule[0].request.id.value] else [])
      + OwedIds(schedule[1..], schedule[0].StdinCloses?)
  }

  function Keys(tasks: seq<Task>): seq<Key> {
    seq(|tasks|, i requires 0 <= i < |tasks| => tasks[i].key)
  }

  lemma StepAddsOwed(w: World, a: Action)
    ensures Keys(Step(w, a).tasks)
         == Keys(w.tasks) + if !w.closed && a.Receive? && Owed(a.request) then [a.request.id.value] else []
    ensures Step(w, a).closed == (w.closed || a.StdinCloses?)
  {
    if Enabled(w, a) && a.Receive? && Owed(a.request) {
      AdmittedShape(w, a.request.id.value, a.request.kind);
    }
  }

  /** The tasks are exactly the requests owed a response, in the order of their arrival. */
  lemma {:induction false} TasksAreTheOwedRequests(w: World, schedule: seq<Action>)
    ensures Keys(Run(w, schedule).tasks) == Keys(w.tasks) + OwedIds(schedule, w.closed)
    decreases |schedule|
  {
    if schedule != [] {
      var next := Step(w, schedule[0]);
      StepAddsOwed(w, schedule[0]);
      TasksAreTheOwedRequests(next, schedule[1..]);
      if w.closed {
        ClosedOwesNothing(schedule[1..]);
      }
    }
  }

  lemma ClosedOwesNothing(schedule: seq<Action>)
    ensures OwedIds(schedule, true) == []
  {
  }

  /** How many steps the tasks can still take. */
  function Pending(tasks: seq<Task>): nat {
    if tasks == [] then 0 else Pending(tasks[..|tasks| - 1]) + Weight(tasks[|tasks| - 1].phase)
  }

  function Weight(phase: Phase): nat {
    match phase
    case Authorizing => 3
    case Handling => 2
    case Responding(_) => 1
    case Answered(_) => 0
  }

  lemma {:induction false} PendingUpdate(tasks: seq<Task>, i: nat, next: Task)
    requires i < |tasks|
    ensures Pending(tasks[i := next]) == Pending(tasks) - Weight(tasks[i].phase) + Weight(next.phase)
  {
    var front := tasks[..|tasks| - 1];
    if i < |front| {
      PendingUpdate(front, i, next);
      assert tasks[i := next][..|tasks| - 1] == front[i := next];
    } else {
      assert tasks[i := next][..|tasks| - 1] == front;
    }
  }

  ghost predicate AllAnswered(w: World) {
    forall i | 0 <= i < |w.tasks| :: w.tasks[i].phase.Answered?
  }

  /** Steps that need neither a port to settle nor a client to write. */
  predicate Internal(a: Action) {
    a.AbortDelivered? || a.WriteCompletes?
  }

  /** The task that a step of the closed adapter moves on. */
  function TaskOf(w: World, a: Action): nat
    requires w.closed && Enabled(w, a)
  {
    match a
    case WriteCompletes => w.writeQueue[0]
    case AuthoritySettles(i, _) => i
    case HandlerSettles(i, _) => i
    case AbortDelivered(i) => i
  }

  lemma OneTaskMovesOn(w: World, a: Action)
    requires w.closed && Enabled(w, a)
    ensures var i := TaskOf(w, a);
            && Step(w, a).closed && i < |w.tasks| && |Step(w, a).tasks| == |w.tasks|
            && Step(w, a).tasks == w.tasks[i := Step(w, a).tasks[i]]
            && Weight(Step(w, a).tasks[i].phase) < Weight(w.tasks[i].phase)
  {
  }

  /** Once stdin is closed every step uses up pending work. */
  lemma ClosedStepsUsePendingWork(w: World, a: Action)
    requires w.closed && Enabled(w, a)
    ensures Step(w, a).closed && |Step(w, a).tasks| == |w.tasks| && Pending(Step(w, a).tasks) < Pending(w.tasks)
  {
    OneTaskMovesOn(w, a);
    PendingUpdate(w.tasks, TaskOf(w, a), Step(w, a).tasks[TaskOf(w, a)]);
  }

  /** While a call is unanswered the closed adapter can go on by itself: handlers that never settle do
      not hold it up. */
  lemma ClosedAdapterProgresses(w: World) returns (b: Action)
    requires Inv(w) && w.closed && !AllAnswered(w)
    ensures Internal(b) && Enabled(w, b)
  {
    var i :| 0 <= i < |w.tasks| && !w.tasks[i].phase.Answered?;
    if w.tasks[i].phase.Responding? {
      assert i in w.writeQueue;
      b := WriteCompletes;
    } else {
      b := AbortDelivered(i);
    }
  }

  lemma RunCons(w: World, b: Action, rest: seq<Action>)
    ensures Run(w, [b] + rest) == Run(Step(w, b), rest)
  {
    assert ([b] + rest)[1..] == rest;
  }

  /** From any moment after stdin closes, abort deliveries and writes alone answer everything. */
  lemma {:induction false} ClosedAdapterAnswersAll(w: World) returns (schedule: seq<Action>)
    requires Inv(w) && w.closed
    ensures forall a | a in schedule :: Internal(a)
    ensures AllAnswered(Run(w, schedule)) && |Run(w, schedule).tasks| == |w.tasks|
    decreases Pending(w.tasks)
  {
    schedule := [];
    if !AllAnswered(w) {
      var b := ClosedAdapterProgresses(w);
      ClosedStepsUsePendingWork(w, b);
      StepKeepsInv(w, b);
      var rest := ClosedAdapterAnswersAll(Step(w, b));
      RunCons(w, b, rest);
      schedule := [b] + rest;
    }
  }
}
