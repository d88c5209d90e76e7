/** The bounded replay log of invalidations: what it keeps of the published history, and what it
    tells a reader who asks for everything after a revision. */
module InvalidationLog {
  import opened LineSplitting
  import opened Utf8
  import opened Wrappers

  datatype Kind =
    | CapabilityUpdated | SessionUpdated | StageUpdated | JobUpdated
    | ConfigurationUpdated | AlertUpdated | ResyncRequired

  /** `json` stands for `JSON.stringify(event)`, which escapes line breaks. */
  type JsonText = s: string | '\n' !in s && '\r' !in s witness ""

  datatype Event = Event(revision: nat, kind: Kind, json: JsonText)

  datatype Limits = Limits(maximumEvents: nat, maximumBytes: nat)

  predicate ValidLimits(l: Limits) {
    1 <= l.maximumEvents <= 4_096 && 1_024 <= l.maximumBytes <= 1_048_576
  }

  function Digit(n: nat): char
    requires n < 10
  {
    ['0', '1', '2', '3', '4', '5', '6', '7', '8', '9'][n]
  }

  /** A number written in decimal. */
  function Decimal(n: nat): (s: string)
    ensures s != []
  {
    if n < 10 then [Digit(n)] else Decimal(n / 10) + [Digit(n % 10)]
  }

  function KindName(k: Kind): string {
    match k
    case CapabilityUpdated => "capability.updated"
    case SessionUpdated => "session.updated"
    case StageUpdated => "stage.updated"
    case JobUpdated => "job.updated"
    case ConfigurationUpdated => "configuration.updated"
    case AlertUpdated => "alert.updated"
    case ResyncRequired => "resync.required"
  }

  function FrameLines(e: Event): seq<string> {
    ["id: " + Decimal(e.revision), "event: " + KindName(e.kind), "data: " + e.json, ""]
  }

  /** The event stream frame of an event: its lines, each ended by a newline. */
  function EncodeFrame(e: Event): string {
    Join(FrameLines(e), "", '\n')
  }

  function Size(e: Event): nat {
    ByteLength(EncodeFrame(e))
  }

  function TotalSize(events: seq<Event>): nat {
    if events == [] then 0 else Size(events[0]) + TotalSize(events[1..])
  }

  predicate Fits(events: seq<Event>, l: Limits) {
    |events| <= l.maximumEvents && TotalSize(events) <= l.maximumBytes
  }

  /** Where the longest suffix that fits begins. */
  function FirstKept(history: seq<Event>, l: Limits): (first: nat)
    ensures first <= |history|
  {
    FirstFit(history, l, 0)
  }

  function FirstFit(history: seq<Event>, l: Limits, from: nat): (first: nat)
    requires from <= |history|
    ensures from <= first <= |history|
    decreases |history| - from
  {
    if from == |history| || Fits(history[from..], l) then from else FirstFit(history, l, from + 1)
  }

  lemma {:induction false} FirstFitFits(history: seq<Event>, l: Limits, from: nat)
    requires from <= |history|
    ensures Fits(history[FirstFit(history, l, from)..], l)
    ensures forall k | from <= k < FirstFit(history, l, from) :: !Fits(history[k..], l)
    decreases |history| - from
  {
    if from < |history| && !Fits(history[from..], l) {
      FirstFitFits(history, l, from + 1);
    }
  }

  /** The suffix from `FirstKept` fits, and no longer one does; nothing else is like that. */
  lemma LongestFits(history: seq<Event>, l: Limits, first: nat)
    requires first <= |history|
    ensures first == FirstKept(history, l)
            <==> Fits(history[first..], l) && forall k | 0 <= k < first :: !Fits(history[k..], l)
  {
    FirstFitFits(history, l, 0);
  }

  lemma {:induction false} TotalAppend(events: seq<Event>, e: Event)
    ensures TotalSize(events + [e]) == TotalSize(events) + Size(e)
  {
    if events != [] {
      assert (events + [e])[1..] == events[1..] + [e];
      TotalAppend(events[1..], e);
    }
  }

  /** Publishing never brings an evicted event back. */
  lemma EvictedStaysEvicted(history: seq<Event>, e: Event, l: Limits)
    ensures FirstKept(history, l) <= FirstKept(history + [e], l)
  {
    var first := FirstKept(history + [e], l);
    LongestFits(history + [e], l, first);
    LongestFits(history, l, FirstKept(history, l));
    if first < FirstKept(history, l) {
      assert (history + [e])[first..] == history[first..] + [e];
      TotalAppend(history[first..], e);
    }
  }

  ghost predicate Increasing(history: seq<Event>) {
    && (forall i | 0 <= i < |history| :: 1 <= history[i].revision <= MAX_SAFE)
    && (forall i, j | 0 <= i < j < |history| :: history[i].revision < history[j].revision)
  }

  lemma IncreasingAppends(history: seq<Event>, e: Event)
    requires Increasing(history) && Latest(history) < e.revision <= MAX_SAFE
    ensures Increasing(history + [e])
  {
  }

  function Latest(history: seq<Event>): nat {
    if history == [] then 0 else history[|history| - 1].revision
  }

  /** How many events have a revision up to `revision`. */
  function Position(history: seq<Event>, revision: nat): (p: nat)
    ensures p <= |history|
  {
    if history == [] || history[|history| - 1].revision <= revision then |history|
    else Position(history[..|history| - 1], revision)
  }

  /** Where a reader's revision cuts the history. */
  lemma {:induction false} PositionCuts(history: seq<Event>, revision: nat)
    requires Increasing(history)
    ensures var p := Position(history, revision);
            && (forall i | 0 <= i < p :: history[i].revision <= revision)
            && (forall i | p <= i < |history| :: history[i].revision > revision)
  {
    if history != [] && history[|history| - 1].revision > revision {
      var front, p := history[..|history| - 1], Position(history, revision);
      PositionCuts(front, revision);
      forall i | 0 <= i < |history| ensures if i < p then history[i].revision <= revision
                                            else history[i].revision > revision {
        assert i < |front| ==> front[i] == history[i];
      }
    }
  }

  lemma PositionIs(history: seq<Event>, revision: nat, p: nat)
    requires Increasing(history) && p <= |history|
    requires p > 0 ==> history[p - 1].revision <= revision
    requires p < |history| ==> history[p].revision > revision
    ensures Position(history, revision) == p
  {
    PositionCuts(history, revision);
  }

  datatype Snapshot = Snapshot(currentRevision: nat, oldestRetainedRevision: nat, requestedAfterRevision: nat,
                               nextRevision: nat, resyncRequired: bool, hasMore: bool, events: seq<Event>)

  /** The revision before which the log can no longer answer. */
  function Oldest(history: seq<Event>, first: nat): nat {
    if first < |history| then history[first].revision else Latest(history)
  }

  predicate Stale(history: seq<Event>, first: nat, after: nat) {
    after > Latest(history) || (first < |history| && after < Oldest(history, first) - 1)
  }

  /** Where a reader of `n` events goes on from. */
  function NextRevision(history: seq<Event>, after: nat, p: nat, n: nat): nat
    requires p + n <= |history|
  {
    if n == 0 then after else history[p + n - 1].revision
  }

  /** What a reader is told: to resync, or the next events of the history after its revision. */
  ghost predicate Answers(r: Snapshot, history: seq<Event>, first: nat, after: nat, limit: nat) {
    && r.currentRevision == Latest(history) && r.oldestRetainedRevision == Oldest(history, first)
    && r.requestedAfterRevision == after
    && r.resyncRequired == Stale(history, first, after)
    && if r.resyncRequired then r.events == [] && !r.hasMore && r.nextRevision == Latest(history)
       else
         var p := Position(history, after);
         && |r.events| == Min(limit, |history| - p) && r.events == history[p..p + |r.events|]
         && r.hasMore == (p + |r.events| < |history|)
         && r.nextRevision == NextRevision(history, after, p, |r.events|)
         && r.nextRevision <= Latest(history) && Position(history, r.nextRevision) == p + |r.events|
  }

  /** A reader who is behind an evicted event is always told to resync. It is told so without having
      missed one exactly if it is ahead of the log, or if numbers are missing right before the oldest
      retained event. */
  lemma StaleExactly(history: seq<Event>, first: nat, after: nat)
    requires Increasing(history) && first <= |history| && (history != [] ==> first < |history|)
    ensures var p := Position(history, after);
            && (p < first ==> Stale(history, first, after))
            && (p >= first ==> (Stale(history, first, after) <==>
                  || after > Latest(history)
                  || (p == first < |history| && after + 1 < history[first].revision)))
  {
    PositionCuts(history, after);
    var p := Position(history, after);
    if p < first {
      assert after < history[p].revision < history[first].revision;
    }
  }

  /** While every revision is one more than the last, a resync is only asked of readers who need it. */
  lemma StaleWithoutGaps(history: seq<Event>, first: nat, after: nat)
    requires forall i | 0 <= i < |history| :: history[i].revision == i + 1 <= MAX_SAFE
    requires first <= |history| && (history != [] ==> first < |history|)
    ensures Stale(history, first, after) <==> after > Latest(history) || Position(history, after) < first
  {
    StaleExactly(history, first, after);
    PositionCuts(history, after);
  }

  /** With gaps it can be asked of one who has missed nothing: the first event has revision 5. */
  lemma GapAsksForResync()
    ensures var history := [Event(5, JobUpdated, "")];
            Increasing(history) && Position(history, 0) == 0 && Stale(history, 0, 0)
  {
  }

  datatype Stored = Stored(event: Event, frame: string, bytes: nat)

  function Store(e: Event): Stored {
    Stored(e, EncodeFrame(e), Size(e))
  }

  /** `retained` holds the history from `first` on, and `bytes` is its size. */
  ghost predicate Kept(retained: seq<Stored>, bytes: int, history: seq<Event>, first: nat) {
    && first <= |history| && |retained| == |history| - first
    && (forall i {:trigger retained[i]} | 0 <= i < |retained| :: retained[i] == Store(history[first + i]))
    && bytes == TotalSize(history[first..])
  }

  lemma KeptAppends(retained: seq<Stored>, bytes: nat, history: seq<Event>, first: nat, e: Event)
    requires Kept(retained, bytes, history, first)
    ensures Kept(retained + [Store(e)], bytes + Size(e), history + [e], first)
  {
    assert (history + [e])[first..] == history[first..] + [e];
    TotalAppend(history[first..], e);
  }

  /** Shifting the first one off. */
  lemma KeptShifts(retained: seq<Stored>, bytes: nat, history: seq<Event>, first: nat)
    requires Kept(retained, bytes, history, first) && retained != []
    ensures retained[0].bytes <= bytes
    ensures Kept(retained[1..], bytes - retained[0].bytes, history, first + 1)
  {
    assert history[first..][1..] == history[first + 1..];
    assert retained[0] == Store(history[first]);
  }

  /** The bounds hold of what is kept exactly if it fits; so the loop stops at the longest fitting suffix. */
  lemma KeptFits(retained: seq<Stored>, bytes: nat, history: seq<Event>, first: nat, l: Limits)
    requires Kept(retained, bytes, history, first) && first <= FirstKept(history, l)
    ensures |retained| <= l.maximumEvents && bytes <= l.maximumBytes <==> first == FirstKept(history, l)
  {
    assert |history[first..]| == |retained|;
    LongestFits(history, l, FirstKept(history, l));
  }

  function Bytes(stored: seq<Stored>): nat {
    if stored == [] then 0 else stored[0].bytes + Bytes(stored[1..])
  }

  predicate Within(stored: seq<Stored>, l: Limits) {
    |stored| <= l.maximumEvents && Bytes(stored) <= l.maximumBytes
  }

  /** What shifting off from the front leaves. */
  function Evicted(stored: seq<Stored>, l: Limits): seq<Stored> {
    if stored == [] || Within(stored, l) then stored else Evicted(stored[1..], l)
  }

  /** It is the longest end of the list within both bounds. */
  lemma {:induction false} EvictedIsLongest(stored: seq<Stored>, l: Limits)
    ensures var kept := Evicted(stored, l);
            && |kept| <= |stored| && kept == stored[|stored| - |kept|..]
            && |kept| <= l.maximumEvents && Bytes(kept) <= l.maximumBytes
            && (|kept| < |stored| ==>
                  || |kept| == l.maximumEvents
                  || stored[|stored| - |kept| - 1].bytes + Bytes(kept) > l.maximumBytes)
  {
    if stored != [] && !Within(stored, l) {
      EvictedIsLongest(stored[1..], l);
      var kept := Evicted(stored[1..], l);
      if |kept| == |stored| - 1 {
        assert kept == stored[1..];
      }
    }
  }

  lemma {:induction false} KeptBytes(retained: seq<Stored>, bytes: nat, history: seq<Event>, first: nat)
    requires Kept(retained, bytes, history, first)
    ensures bytes == Bytes(retained)
    decreases |retained|
  {
    if retained != [] {
      KeptShifts(retained, bytes, history, first);
      KeptBytes(retained[1..], bytes - retained[0].bytes, history, first + 1);
    }
  }

  /** Evicting what is kept of a history leaves what should be kept of it. */
  lemma {:induction false} EvictedIsKept(retained: seq<Stored>, bytes: nat, history: seq<Event>, first: nat, l: Limits)
    requires Kept(retained, bytes, history, first) && first <= FirstKept(history, l)
    ensures Kept(Evicted(retained, l), Bytes(Evicted(retained, l)), history, FirstKept(history, l))
    decreases |retained|
  {
    KeptBytes(retained, bytes, history, first);
    KeptFits(retained, bytes, history, first, l);
    if retained != [] && !Within(retained, l) {
      KeptShifts(retained, bytes, history, first);
      EvictedIsKept(retained[1..], bytes - retained[0].bytes, history, first + 1, l);
    }
  }

  lemma SomethingFits(history: seq<Event>, e: Event, l: Limits)
    requires ValidLimits(l) && Size(e) <= l.maximumBytes
    ensures FirstKept(history + [e], l) <= |history|
  {
    var all := history + [e];
    assert all[|history|..] == [e];
    TotalAppend([], e);
    assert [] + [e] == [e];
    assert Fits(all[|history|..], l);
    LongestFits(all, l, FirstKept(all, l));
  }

  /** The log keeps the longest suffix of the history that fits, and something once anything was published. */
  ghost predicate LogState(l: Limits, retained: seq<Stored>, bytes: nat, latest: nat, history: seq<Event>) {
    && Increasing(history) && latest == Latest(history)
    && (history != [] ==> FirstKept(history, l) < |history|)
    && Kept(retained, bytes, history, FirstKept(history, l))
  }

  lemma ReadyToEvict(l: Limits, retained: seq<Stored>, bytes: nat, latest: nat, history: seq<Event>, e: Event)
    requires ValidLimits(l) && LogState(l, retained, bytes, latest, history)
    requires latest < e.revision <= MAX_SAFE && Size(e) <= l.maximumBytes
    ensures Increasing(history + [e]) && Latest(history + [e]) == e.revision
    ensures Kept(retained + [Store(e)], bytes + Size(e), history + [e], FirstKept(history, l))
    ensures FirstKept(history, l) <= FirstKept(history + [e], l) < |history + [e]|
  {
    KeptAppends(retained, bytes, history, FirstKept(history, l), e);
    EvictedStaysEvicted(history, e, l);
    SomethingFits(history, e, l);
    IncreasingAppends(history, e);
  }

  /** What the log keeps is within both bounds, and one event more would not be: the fewest are forgotten. */
  lemma KeepsWhatFits(l: Limits, retained: seq<Stored>, bytes: nat, latest: nat, history: seq<Event>)
    requires LogState(l, retained, bytes, latest, history)
    ensures |retained| <= l.maximumEvents && bytes <= l.maximumBytes && |retained| <= |history|
    ensures forall i | 0 <= i < |retained| ::
              && retained[i].event == history[|history| - |retained| + i]
              && retained[i].frame == EncodeFrame(retained[i].event)
              && retained[i].bytes == ByteLength(retained[i].frame)
    ensures |retained| < |history| ==>
              || |retained| == l.maximumEvents
              || bytes + ByteLength(EncodeFrame(history[|history| - |retained| - 1])) > l.maximumBytes
  {
    var first := FirstKept(history, l);
    LongestFits(history, l, first);
    if first > 0 {
      assert history[first - 1..][1..] == history[first..];
      assert !Fits(history[first - 1..], l);
    }
  }

  /** Different kinds of events have different names. */
  lemma KindNamesDiffer(a: Kind, b: Kind)
    ensures KindName(a) == KindName(b) <==> a == b
  {
  }

  datatype LogError = NotAnInvalidation | RevisionNotGreater | TooLarge | OutOfRange

  /** What publishing answers: the event, or why it is refused. */
  function Verdict(value: Option<Event>, latest: nat, l: Limits): Result<Event, LogError> {
    if value.None? then Err(NotAnInvalidation)
    else if !(latest < value.value.revision <= MAX_SAFE) then Err(RevisionNotGreater)
    else if Size(value.value) > l.maximumBytes then Err(TooLarge)
    else Ok(value.value)
  }

  class BoundedInvalidationLog {
    const limits: Limits
    var retained: seq<Stored>
    var retainedBytes: nat
    var latestRevision: nat
    /** For each listener, the events it has been called with. */
    var listeners: map<nat, seq<Event>>
    ghost var history: seq<Event>

    ghost predicate Valid()
      reads this
    {
      ValidLimits(limits) && LogState(limits, retained, retainedBytes, latestRevision, history)
    }

    constructor (limits: Limits)
      requires ValidLimits(limits)
      ensures Valid() && this.limits == limits && history == [] && listeners == map[]
    {
      this.limits := limits;
      retained, retainedBytes, latestRevision, listeners, history := [], 0, 0, map[], [];
    }

    /** Out of bounds options are refused. */
    static method Create(maximumEvents: int, maximumBytes: int) returns (r: Result<BoundedInvalidationLog, LogError>)
      ensures r.Ok? <==> 1 <= maximumEvents <= 4_096 && 1_024 <= maximumBytes <= 1_048_576
      ensures r.Ok? ==> fresh(r.value) && r.value.Valid() && r.value.history == []
                        && r.value.limits == Limits(maximumEvents, maximumBytes)
    {
      if !(1 <= maximumEvents <= 4_096 && 1_024 <= maximumBytes <= 1_048_576) { return Err(OutOfRange); }
      var log := new BoundedInvalidationLog(Limits(maximumEvents, maximumBytes));
      return Ok(log);
    }

    function OldestRetainedRevision(): (r: nat)
      requires Valid()
      reads this
      ensures r == Oldest(history, FirstKept(history, limits))
    {
      if retained != [] then retained[0].event.revision else latestRevision
    }

    /** `None` is a value that does not match the schema. */
    method Check(value: Option<Event>) returns (r: Result<Stored, LogError>)
      requires Valid()
      ensures match Verdict(value, Latest(history), limits)
              case Ok(e) => r == Ok(Store(e))
              case Err(error) => r == Err(error)
    {
      if value.None? { return Err(NotAnInvalidation); }
      var event := value.value;
      if event.revision > MAX_SAFE || event.revision <= latestRevision { return Err(RevisionNotGreater); }
      var frame := EncodeFrame(event);
      var bytes := ByteLength(frame);
      if bytes > limits.maximumBytes { return Err(TooLarge); }
      return Ok(Stored(event, frame, bytes));
    }

    /** Publish an event: append it, evict from the front, and call the listeners. Those that throw are
        removed. */
    method Publish(value: Option<Event>, throwing: set<nat>) returns (r: Result<Event, LogError>)
      requires Valid()
      modifies this
      ensures Valid()
      ensures r == Verdict(value, Latest(old(history)), limits)
      ensures history == if r.Ok? then old(history) + [r.value] else old(history)
      ensures listeners == if r.Ok? then Delivered(old(listeners), r.value, throwing) else old(listeners)
      ensures r.Ok? <==>
                && value.Some? && old(latestRevision) < value.value.revision <= MAX_SAFE
                && ByteLength(EncodeFrame(value.value)) <= limits.maximumBytes
      ensures r.Ok? ==> r.value == value.value && latestRevision == value.value.revision
      ensures r.Err? ==> retained == old(retained) && latestRevision == old(latestRevision)
      ensures |retained| <= limits.maximumEvents && retainedBytes <= limits.maximumBytes
    {
      var checked := Check(value);
      if checked.Err? {
        KeepsWhatFits(limits, retained, retainedBytes, latestRevision, history);
        return Err(checked.error);
      }
      Keep(checked.value, throwing);
      return Ok(checked.value.event);
    }

    method Keep(stored: Stored, throwing: set<nat>)
      requires Valid() && stored == Store(stored.event)
      requires latestRevision < stored.event.revision <= MAX_SAFE && stored.bytes <= limits.maximumBytes
      modifies this
      ensures Valid() && history == old(history) + [stored.event] && latestRevision == stored.event.revision
      ensures listeners == Delivered(old(listeners), stored.event, throwing)
      ensures |retained| <= limits.maximumEvents && retainedBytes <= limits.maximumBytes
    {
      Append(stored);
      Fanout(stored.event, throwing);
    }

    method Append(stored: Stored)
      requires Valid() && stored == Store(stored.event)
      requires latestRevision < stored.event.revision <= MAX_SAFE && stored.bytes <= limits.maximumBytes
      modifies this`retained, this`retainedBytes, this`latestRevision, this`history
      ensures Valid() && history == old(history) + [stored.event] && latestRevision == stored.event.revision
      ensures |retained| <= limits.maximumEvents && retainedBytes <= limits.maximumBytes
    {
      ghost var first := FirstKept(history, limits);
      ReadyToEvict(limits, retained, retainedBytes, latestRevision, history, stored.event);
      latestRevision := stored.event.revision;
      retained := retained + [stored];
      retainedBytes := retainedBytes + stored.bytes;
      history := history + [stored.event];
      KeptBytes(retained, retainedBytes, history, first);
      EvictedIsKept(retained, retainedBytes, history, first, limits);
      EvictedIsLongest(retained, limits);
      Evict();
    }

    method Evict()
      requires retainedBytes == Bytes(retained)
      modifies this`retained, this`retainedBytes
      ensures retained == Evicted(old(retained), limits) && retainedBytes == Bytes(retained)
    {
      while |retained| > limits.maximumEvents || retainedBytes > limits.maximumBytes
        invariant retainedBytes == Bytes(retained)
        invariant Evicted(retained, limits) == Evicted(old(retained), limits)
        decreases |retained|
      {
        var removed := retained[0];
        retained := retained[1..];
        retainedBytes := retainedBytes - removed.bytes;
      }
    }

    method Fanout(event: Event, throwing: set<nat>)
      modifies this`listeners
      ensures listeners == Delivered(old(listeners), event, throwing)
    {
      var rest := listeners.Keys;
      while rest != {}
        invariant rest <= old(listeners).Keys
        invariant listeners.Keys == old(listeners).Keys - (throwing - rest)
        invariant forall id | id in listeners ::
                    listeners[id] == if id in rest then old(listeners)[id] else old(listeners)[id] + [event]
        decreases rest
      {
        var id :| id in rest;
        if id in throwing {
          listeners := listeners - {id};
        } else {
          listeners := listeners[id := listeners[id] + [event]];
        }
        rest := rest - {id};
      }
      DeliveredIs(old(listeners), listeners, event, throwing);
    }

    /** The events after a revision, or the order to resync. */
    method TakeSnapshot(afterRevision: int, limit: int) returns (r: Result<Snapshot, LogError>)
      requires Valid()
      ensures r.Err? <==> !(0 <= afterRevision <= MAX_SAFE && 1 <= limit <= limits.maximumEvents)
      ensures r.Ok? ==> Answers(r.value, history, FirstKept(history, limits), afterRevision, limit)
    {
      if !(0 <= afterRevision <= MAX_SAFE) || !(1 <= limit <= limits.maximumEvents) { return Err(OutOfRange); }
      var oldest := OldestRetainedRevision();
      if afterRevision > latestRevision || (|retained| > 0 && afterRevision < oldest - 1) {
        return Ok(Snapshot(latestRevision, oldest, afterRevision, latestRevision, true, false, []));
      }
      var page := Page(afterRevision, limit, oldest);
      return Ok(page);
    }

    method Page(after: nat, limit: nat, oldest: nat) returns (page: Snapshot)
      requires Valid() && 1 <= limit && oldest == Oldest(history, FirstKept(history, limits))
      requires !Stale(history, FirstKept(history, limits), after)
      ensures Answers(page, history, FirstKept(history, limits), after, limit)
    {
      FreshAnswers(retained, retainedBytes, history, FirstKept(history, limits), after, limit);
      var candidates := Filter(retained, after);
      var selected := FirstN(candidates, limit);
      var next := if selected == [] then after else selected[|selected| - 1].revision;
      page := Snapshot(latestRevision, oldest, after, next, false, |candidates| > |selected|, selected);
      assert page == PageAfter(candidates, history, FirstKept(history, limits), after, limit);
    }
  }

  ghost predicate SameEvents(retained: seq<Stored>, history: seq<Event>, first: nat) {
    && first <= |history| && |retained| == |history| - first
    && forall i {:trigger retained[i]} | 0 <= i < |retained| :: retained[i].event == history[first + i]
  }

  lemma FilterSkips(retained: seq<Stored>, history: seq<Event>, first: nat, p: nat, after: nat)
    requires SameEvents(retained, history, first) && first <= p <= |history|
    requires forall i | 0 <= i < p :: history[i].revision <= after
    requires forall i | p <= i < |history| :: history[i].revision > after
    ensures Filter(retained, after) == history[p..]
  {
    FilterIsSuffix(retained, after, p - first);
    forall i | 0 <= i < |history| - p ensures Filter(retained, after)[i] == history[p..][i] {
      assert retained[p - first + i].event == history[p + i];
    }
  }

  /** What is retained after a revision is the rest of the history, if no resync is required. */
  lemma CandidatesAreTheRest(retained: seq<Stored>, bytes: nat, history: seq<Event>, first: nat, after: nat)
    requires Increasing(history) && Kept(retained, bytes, history, first) && (history != [] ==> first < |history|)
    requires !Stale(history, first, after)
    ensures Filter(retained, after) == history[Position(history, after)..]
  {
    StaleExactly(history, first, after);
    PositionCuts(history, after);
    assert SameEvents(retained, history, first);
    FilterSkips(retained, history, first, Position(history, after), after);
  }

  function PageAfter(candidates: seq<Event>, history: seq<Event>, first: nat, after: nat, limit: nat): Snapshot {
    var selected := FirstN(candidates, limit);
    Snapshot(Latest(history), Oldest(history, first), after,
             if selected == [] then after else selected[|selected| - 1].revision,
             false, |candidates| > |selected|, selected)
  }

  lemma FreshAnswers(retained: seq<Stored>, bytes: nat, history: seq<Event>, first: nat, after: nat, limit: nat)
    requires Increasing(history) && Kept(retained, bytes, history, first) && (history != [] ==> first < |history|)
    requires !Stale(history, first, after) && limit >= 1
    ensures Answers(PageAfter(Filter(retained, after), history, first, after, limit), history, first, after, limit)
  {
    CandidatesAreTheRest(retained, bytes, history, first, after);
    PageAnswers(history, first, after, limit);
  }

  lemma SelectedPage(history: seq<Event>, p: nat, limit: nat)
    requires p <= |history| && limit >= 1
    ensures var selected := FirstN(history[p..], limit);
            && |selected| == Min(limit, |history| - p) && selected == history[p..p + |selected|]
            && (selected != [] ==> selected[|selected| - 1] == history[p + |selected| - 1])
  {
  }

  /** A page leaves the reader right behind its last event. */
  lemma NextPosition(history: seq<Event>, after: nat, p: nat, n: nat, next: nat)
    requires Increasing(history) && after <= Latest(history) && p == Position(history, after) && p + n <= |history|
    requires next == NextRevision(history, after, p, n)
    ensures next <= Latest(history) && Position(history, next) == p + n
  {
    if n > 0 {
      PositionIs(history, history[p + n - 1].revision, p + n);
    }
  }

  lemma PageAnswers(history: seq<Event>, first: nat, after: nat, limit: nat)
    requires Increasing(history) && !Stale(history, first, after) && limit >= 1
    ensures var page := PageAfter(history[Position(history, after)..], history, first, after, limit);
            Answers(page, history, first, after, limit)
  {
    var p := Position(history, after);
    var n := Min(limit, |history| - p);
    NextPosition(history, after, p, n, NextRevision(history, after, p, n));
    PageFits(history, first, after, limit, p, n, NextRevision(history, after, p, n));
  }

  lemma PageFits(history: seq<Event>, first: nat, after: nat, limit: nat, p: nat, n: nat, next: nat)
    requires !Stale(history, first, after) && p == Position(history, after) && limit >= 1
             && n == Min(limit, |history| - p)
    requires next == NextRevision(history, after, p, n) && next <= Latest(history) && Position(history, next) == p + n
    ensures Answers(PageAfter(history[p..], history, first, after, limit), history, first, after, limit)
  {
    SelectedPage(history, p, limit);
  }

  /** Every listener gets the event once; those that throw are gone. */
  ghost function Delivered(listeners: map<nat, seq<Event>>, event: Event, throwing: set<nat>): map<nat, seq<Event>> {
    map id | id in listeners && id !in throwing :: listeners[id] + [event]
  }

  /** A listener that throws is gone; every other has been called once, with this event. */
  lemma DeliveredExactly(listeners: map<nat, seq<Event>>, event: Event, throwing: set<nat>, id: nat)
    ensures var after := Delivered(listeners, event, throwing);
            && (id in after <==> id in listeners && id !in throwing)
            && (id in after ==> after[id] == listeners[id] + [event])
  {
  }

  lemma DeliveredIs(before: map<nat, seq<Event>>, after: map<nat, seq<Event>>, event: Event, throwing: set<nat>)
    requires after.Keys == before.Keys - throwing
    requires forall id | id in after :: after[id] == before[id] + [event]
    ensures after == Delivered(before, event, throwing)
  {
  }

  function Filter(stored: seq<Stored>, after: nat): seq<Event> {
    if stored == [] then []
    else (if stored[0].event.revision > after then [stored[0].event] else []) + Filter(stored[1..], after)
  }

  /** The first `k` are up to `after`, and the others beyond. */
  ghost predicate CutAt(stored: seq<Stored>, after: nat, k: nat) {
    && k <= |stored|
    && (forall i | 0 <= i < k :: stored[i].event.revision <= after)
    && (forall i | k <= i < |stored| :: stored[i].event.revision > after)
  }

  lemma CutOfRest(stored: seq<Stored>, after: nat, k: nat)
    requires CutAt(stored, after, k) && stored != []
    ensures CutAt(stored[1..], after, if k > 0 then k - 1 else k)
    ensures Filter(stored, after) == (if k > 0 then [] else [stored[0].event]) + Filter(stored[1..], after)
  {
  }

  lemma {:induction false} FilterLength(stored: seq<Stored>, after: nat, k: nat)
    requires CutAt(stored, after, k)
    ensures |Filter(stored, after)| == |stored| - k
  {
    if stored != [] {
      CutOfRest(stored, after, k);
      FilterLength(stored[1..], after, if k > 0 then k - 1 else k);
    }
  }

  lemma {:induction false} FilterAt(stored: seq<Stored>, after: nat, k: nat, i: nat)
    requires CutAt(stored, after, k) && i < |stored| - k
    ensures |Filter(stored, after)| == |stored| - k && Filter(stored, after)[i] == stored[k + i].event
  {
    FilterLength(stored, after, k);
    CutOfRest(stored, after, k);
    if k > 0 {
      FilterAt(stored[1..], after, k - 1, i);
    } else if i > 0 {
      FilterAt(stored[1..], after, k, i - 1);
    }
  }

  lemma FilterIsSuffix(stored: seq<Stored>, after: nat, k: nat)
    requires CutAt(stored, after, k)
    ensures |Filter(stored, after)| == |stored| - k
    ensures forall i | 0 <= i < |stored| - k :: Filter(stored, after)[i] == stored[k + i].event
  {
    FilterLength(stored, after, k);
    forall i | 0 <= i < |stored| - k ensures Filter(stored, after)[i] == stored[k + i].event {
      FilterAt(stored, after, k, i);
    }
  }
}
