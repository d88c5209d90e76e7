/** The gateway's fixed-window rate limiter, and how many calls it can let through in any interval. */
module RateLimiter {
  import opened Wrappers

  datatype RateRecord = RateRecord(count: nat, startedAt: int)

  datatype Call = Call(key: string, now: int)

  predicate ValidLimits(maximum: int, windowMs: int) {
    1 <= maximum <= 100_000 && 100 <= windowMs <= 3_600_000
  }

  /** The record of a key after a call at `now`. The call is allowed if the count fits. */
  function Next(current: Option<RateRecord>, now: int, windowMs: int): RateRecord {
    if current.None? || now - current.value.startedAt >= windowMs then RateRecord(1, now)
    else RateRecord(current.value.count + 1, current.value.startedAt)
  }

  class FixedWindowRateLimiter {
    const maximum: nat
    const windowMs: nat
    var records: map<string, RateRecord>

    ghost predicate Valid() {
      ValidLimits(maximum, windowMs)
    }

    constructor (maximum: nat, windowMs: nat)
      requires ValidLimits(maximum, windowMs)
      ensures Valid() && this.maximum == maximum && this.windowMs == windowMs && records == map[]
    {
      this.maximum, this.windowMs, records := maximum, windowMs, map[];
    }

    static method Create(maximum: int, windowMs: int) returns (r: Option<FixedWindowRateLimiter>)
      ensures r.Some? <==> 1 <= maximum <= 100_000 && 100 <= windowMs <= 3_600_000
      ensures r.Some? ==> fresh(r.value) && r.value.Valid() && r.value.records == map[]
                          && r.value.maximum == maximum && r.value.windowMs == windowMs
    {
      if !ValidLimits(maximum, windowMs) { return None; }
      var limiter := new FixedWindowRateLimiter(maximum, windowMs);
      return Some(limiter);
    }

    method Allow(key: string, now: int) returns (allowed: bool)
      requires Valid()
      modifies this
      ensures records == Step(old(records), Call(key, now), windowMs)
      ensures allowed <==> records[key].count <= maximum
    {
      if key !in records || now - records[key].startedAt >= windowMs {
        records := records[key := RateRecord(1, now)];
        return true;
      }
      var current := records[key];
      records := records[key := current.(count := current.count + 1)];
      return records[key].count <= maximum;
    }
  }

  function Lookup(records: map<string, RateRecord>, key: string): Option<RateRecord> {
    if key in records then Some(records[key]) else None
  }

  function Step(records: map<string, RateRecord>, call: Call, windowMs: int): (next: map<string, RateRecord>)
    ensures call.key in next
  {
    records[call.key := Next(Lookup(records, call.key), call.now, windowMs)]
  }

  /** The records after a trace of calls. */
  function After(calls: seq<Call>, windowMs: int): map<string, RateRecord> {
    if calls == [] then map[] else Step(After(calls[..|calls| - 1], windowMs), calls[|calls| - 1], windowMs)
  }

  /** Whether the last call of a nonempty trace is allowed. */
  predicate LastAllowed(calls: seq<Call>, maximum: int, windowMs: int)
    requires calls != []
  {
    After(calls, windowMs)[calls[|calls| - 1].key].count <= maximum
  }

  /** How many calls of `key` with a clock in [from, until) the trace allows. */
  function AllowedIn(calls: seq<Call>, key: string, from: int, until: int, maximum: int, windowMs: int): nat {
    if calls == [] then 0
    else
      var last := calls[|calls| - 1];
      AllowedIn(calls[..|calls| - 1], key, from, until, maximum, windowMs)
      + if last.key == key && from <= last.now < until && LastAllowed(calls, maximum, windowMs) then 1 else 0
  }

  ghost predicate NonDecreasing(calls: seq<Call>) {
    forall i, j | 0 <= i <= j < |calls| :: calls[i].now <= calls[j].now
  }

  /** Where the current window of `key` began: the position of its opening call. */
  function Opening(calls: seq<Call>, key: string, windowMs: int): (r: Option<nat>)
    ensures r.Some? ==> r.value < |calls| && calls[r.value].key == key
  {
    if calls == [] then None
    else
      var last := calls[|calls| - 1];
      var before := Opening(calls[..|calls| - 1], key, windowMs);
      if last.key == key && (before.None? || last.now - calls[before.value].now >= windowMs)
      then Some(|calls| - 1) else before
  }

  function CallsOf(calls: seq<Call>, key: string): nat {
    if calls == [] then 0
    else CallsOf(calls[..|calls| - 1], key) + if calls[|calls| - 1].key == key then 1 else 0
  }

  /** The stored record says exactly when the window begun and how many calls it has had since. */
  lemma {:induction false} RecordDescribesWindow(calls: seq<Call>, key: string, windowMs: int)
    ensures var opening := Opening(calls, key, windowMs);
            var record := Lookup(After(calls, windowMs), key);
            && (opening.None? <==> record.None?)
            && (opening.Some? ==>
                  && record.value.startedAt == calls[opening.value].now
                  && record.value.count == CallsOf(calls[opening.value..], key))
  {
    if calls != [] {
      var front := calls[..|calls| - 1];
      RecordDescribesWindow(front, key, windowMs);
      var opening := Opening(calls, key, windowMs);
      if opening.Some? {
        var tail := calls[opening.value..];
        if opening.value < |calls| - 1 {
          assert tail[..|tail| - 1] == front[opening.value..];
        } else {
          assert tail[..|tail| - 1] == [];
        }
      }
    }
  }

  /** The first `maximum` calls of a window are allowed and all later ones refused. */
  lemma AllowedIffAmongFirst(calls: seq<Call>, maximum: int, windowMs: int)
    requires calls != []
    ensures var key := calls[|calls| - 1].key;
            var opening := Opening(calls, key, windowMs);
            && opening.Some?
            && (LastAllowed(calls, maximum, windowMs) <==> CallsOf(calls[opening.value..], key) <= maximum)
  {
    RecordDescribesWindow(calls, calls[|calls| - 1].key, windowMs);
  }

  /** What the record says about the calls counted so far in [from, from + windowMs). */
  ghost predicate CountFits(record: Option<RateRecord>, counted: nat, from: int, maximum: int, windowMs: int) {
    match record
    case None => counted == 0
    case Some(RateRecord(count, startedAt)) =>
      && count >= 1
      && (startedAt < from ==> counted <= Min(count, maximum) - 1)
      && (from <= startedAt < from + windowMs ==> counted <= maximum - 1 + Min(count, maximum))
      && counted <= 2 * maximum - 1
  }

  lemma {:induction false} CountsFit(calls: seq<Call>, key: string, from: int, maximum: int, windowMs: int)
    requires NonDecreasing(calls) && maximum >= 1 && windowMs >= 1
    ensures var counted := AllowedIn(calls, key, from, from + windowMs, maximum, windowMs);
            && CountFits(Lookup(After(calls, windowMs), key), counted, from, maximum, windowMs)
            && (calls != [] && calls[|calls| - 1].now < from ==> counted == 0)
            && (key in After(calls, windowMs) ==>
                  calls != [] && After(calls, windowMs)[key].startedAt <= calls[|calls| - 1].now)
  {
    if calls != [] {
      CountsFit(calls[..|calls| - 1], key, from, maximum, windowMs);
    }
  }

  /** In any half-open interval of one window length at most 2 * maximum - 1 calls of a key pass. */
  lemma IntervalBound(calls: seq<Call>, key: string, from: int, maximum: int, windowMs: int)
    requires NonDecreasing(calls) && ValidLimits(maximum, windowMs)
    ensures AllowedIn(calls, key, from, from + windowMs, maximum, windowMs) <= 2 * maximum - 1
  {
    CountsFit(calls, key, from, maximum, windowMs);
  }

  /** `n` calls at the same moment after a prefix. */
  function Repeated(prefix: seq<Call>, call: Call, n: nat): (calls: seq<Call>)
    ensures |calls| == |prefix| + n
  {
    if n == 0 then prefix else Repeated(prefix, call, n - 1) + [call]
  }

  /** After `calls` the key has this record, and so many of its calls in the interval passed. */
  ghost predicate Stands(calls: seq<Call>, key: string, from: int, maximum: nat, windowMs: int,
                         record: RateRecord, passed: nat)
  {
    && Lookup(After(calls, windowMs), key) == Some(record)
    && AllowedIn(calls, key, from, from + windowMs, maximum, windowMs) == passed
  }

  /** One more call in an open window that still has room is allowed and counted. */
  lemma CallWithRoom(prefix: seq<Call>, call: Call, from: int, maximum: nat, windowMs: int, record: RateRecord,
                     passed: nat)
    requires from <= call.now < from + windowMs
    requires Stands(prefix, call.key, from, maximum, windowMs, record, passed)
    requires call.now - record.startedAt < windowMs && record.count < maximum
    ensures Stands(prefix + [call], call.key, from, maximum, windowMs, record.(count := record.count + 1), passed + 1)
  {
    var calls := prefix + [call];
    assert calls[..|calls| - 1] == prefix;
  }

  lemma {:induction false} RepeatedCalls(prefix: seq<Call>, call: Call, n: nat, from: int, maximum: nat, windowMs: int,
                                         record: RateRecord, passed: nat)
    requires from <= call.now < from + windowMs
    requires Stands(prefix, call.key, from, maximum, windowMs, record, passed)
    requires call.now - record.startedAt < windowMs && record.count + n <= maximum
    ensures Stands(Repeated(prefix, call, n), call.key, from, maximum, windowMs, record.(count := record.count + n),
                   passed + n)
  {
    if n > 0 {
      RepeatedCalls(prefix, call, n - 1, from, maximum, windowMs, record, passed);
      CallWithRoom(Repeated(prefix, call, n - 1), call, from, maximum, windowMs,
                   record.(count := record.count + n - 1), passed + n - 1);
    }
  }

  lemma {:induction false} RepeatedNonDecreasing(prefix: seq<Call>, call: Call, n: nat)
    requires NonDecreasing(prefix) && forall i | 0 <= i < |prefix| :: prefix[i].now <= call.now
    ensures NonDecreasing(Repeated(prefix, call, n))
    ensures forall i | 0 <= i < |Repeated(prefix, call, n)| :: Repeated(prefix, call, n)[i].now <= call.now
  {
    if n > 0 {
      RepeatedNonDecreasing(prefix, call, n - 1);
    }
  }

  /** A call that opens a window is allowed. */
  lemma CallThatOpens(prefix: seq<Call>, call: Call, from: int, maximum: nat, windowMs: int)
    requires maximum >= 1 && call.now < from + windowMs
    requires call.key in After(prefix, windowMs) ==> call.now - After(prefix, windowMs)[call.key].startedAt >= windowMs
    ensures Stands(prefix + [call], call.key, from, maximum, windowMs, RateRecord(1, call.now),
                   AllowedIn(prefix, call.key, from, from + windowMs, maximum, windowMs)
                   + if from <= call.now then 1 else 0)
  {
    var calls := prefix + [call];
    assert calls[..|calls| - 1] == prefix;
  }

  /** A window with one call is filled by repeating another. */
  lemma FillsWindow(prefix: seq<Call>, call: Call, from: int, maximum: nat, windowMs: int, startedAt: int, passed: nat)
    returns (calls: seq<Call>)
    requires maximum >= 1 && from <= call.now < from + windowMs && call.now - startedAt < windowMs
    requires Stands(prefix, call.key, from, maximum, windowMs, RateRecord(1, startedAt), passed)
    requires NonDecreasing(prefix) && forall i | 0 <= i < |prefix| :: prefix[i].now <= call.now
    ensures Stands(calls, call.key, from, maximum, windowMs, RateRecord(maximum, startedAt), passed + maximum - 1)
    ensures NonDecreasing(calls) && forall i | 0 <= i < |calls| :: calls[i].now <= call.now
  {
    RepeatedCalls(prefix, call, maximum - 1, from, maximum, windowMs, RateRecord(1, startedAt), passed);
    RepeatedNonDecreasing(prefix, call, maximum - 1);
    calls := Repeated(prefix, call, maximum - 1);
  }

  /** A window opened by a call at 0 and filled by calls just before it ends. */
  lemma FirstWindow(key: string, maximum: nat, windowMs: nat) returns (calls: seq<Call>)
    requires ValidLimits(maximum, windowMs)
    ensures Stands(calls, key, 1, maximum, windowMs, RateRecord(maximum, 0), maximum - 1)
    ensures NonDecreasing(calls) && forall i | 0 <= i < |calls| :: calls[i].now <= windowMs - 1
  {
    var one := [] + [Call(key, 0)];
    CallThatOpens([], Call(key, 0), 1, maximum, windowMs);
    calls := FillsWindow(one, Call(key, windowMs - 1), 1, maximum, windowMs, 0, 0);
  }

  /** A full window right after it. */
  lemma SecondWindow(first: seq<Call>, key: string, maximum: nat, windowMs: nat) returns (calls: seq<Call>)
    requires ValidLimits(maximum, windowMs)
    requires Stands(first, key, 1, maximum, windowMs, RateRecord(maximum, 0), maximum - 1)
    requires NonDecreasing(first) && forall i | 0 <= i < |first| :: first[i].now <= windowMs - 1
    ensures Stands(calls, key, 1, maximum, windowMs, RateRecord(maximum, windowMs), 2 * maximum - 1)
    ensures NonDecreasing(calls)
  {
    var call := Call(key, windowMs);
    CallThatOpens(first, call, 1, maximum, windowMs);
    calls := FillsWindow(first + [call], call, 1, maximum, windowMs, windowMs, maximum);
  }

  /** The bound is reached for every maximum and every window length: one call at 0, the rest of its
      window just before it ends, and a full window right after. */
  lemma IntervalBoundIsTight(key: string, maximum: nat, windowMs: nat) returns (calls: seq<Call>)
    requires ValidLimits(maximum, windowMs)
    ensures NonDecreasing(calls) && AllowedIn(calls, key, 1, 1 + windowMs, maximum, windowMs) == 2 * maximum - 1
  {
    var first := FirstWindow(key, maximum, windowMs);
    calls := SecondWindow(first, key, maximum, windowMs);
  }
}
