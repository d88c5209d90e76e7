/** Automatic ingestion: one run of the service over the checkpoint store. It scans the catalog,
    captures what is due, and recovers what is due. Runs do not overlap. */
module IngestionService {
  import opened Wrappers
  import opened IngestionCheckpoints

  datatype Position = Position(lastActivityAt: Time, sessionId: SessionId)

  /** One answer of the catalog. Nothing is assumed of it: it may be oversized or point back. */
  datatype Page = Page(items: seq<Entry>, next: Option<Position>)

  /** The state of the page loop. `positions` are the cursors accepted so far, each of which is where
      the next page is fetched from; `done` says that the loop has been left. */
  datatype PageScan = PageScan(entries: map<SessionId, Entry>, positions: seq<Position>, pages: nat, complete: bool,
                               done: bool)

  /** What the ports answer for a session: the catalog, the capture and the recovery port. */
  datatype Ports = Ports(
    get: SessionId -> Option<Entry>,
    capture: SessionId -> CaptureOutcome,
    recover: SessionId -> RecoveryOutcome)

  function Lookup(values: map<SessionId, Checkpoint>, id: SessionId): Option<Checkpoint> {
    if id in values then Some(values[id]) else None
  }

  ghost predicate AllShaped(values: map<SessionId, Checkpoint>) {
    forall id | id in values :: Shape(values[id]) && values[id].sessionId == id
  }

  /** The stored checkpoint after observing an entry. */
  function Seen(values: map<SessionId, Checkpoint>, e: Entry, at: Time, config: Configuration): Checkpoint {
    var next := Observe(Lookup(values, e.sessionId), e, at, config);
    if next.Some? then next.value else values[e.sessionId]
  }

  /** Exactly the sessions with an entry are observed, once each. */
  ghost predicate Scanned(before: map<SessionId, Checkpoint>, after: map<SessionId, Checkpoint>,
                          entries: map<SessionId, Entry>, at: Time, config: Configuration)
  {
    && (forall id {:trigger id in after} :: id in after <==> id in before || id in entries)
    && (forall id {:trigger after[id]} | id in entries ::
          entries[id].sessionId == id && after[id] == Seen(before, entries[id], at, config))
    && (forall id {:trigger after[id]} | id in before && id !in entries :: after[id] == before[id])
  }

  /** The session is missing or unavailable, or the capture port's answer counts. */
  function OutcomeOf(entries: map<SessionId, Entry>, ports: Ports, id: SessionId): CaptureOutcome {
    var entry := if id in entries then Some(entries[id]) else ports.get(id);
    if entry.None? || !entry.value.available then Missing else ports.capture(id)
  }

  /** The sessions of `ids` have made their capture attempt; nothing else has changed. */
  ghost predicate Attempted(before: map<SessionId, Checkpoint>, after: map<SessionId, Checkpoint>, ids: seq<SessionId>,
                            entries: map<SessionId, Entry>, ports: Ports, at: Time, config: Configuration)
  {
    && after.Keys == before.Keys
    && (forall id | id in before ::
          after[id] == if id in ids then Capture(before[id], OutcomeOf(entries, ports, id), at, config) else before[id])
  }

  /** One capture pass: the earliest due sessions make one attempt each, nothing else changes. */
  ghost predicate CapturePass(before: map<SessionId, Checkpoint>, after: map<SessionId, Checkpoint>,
                              batch: seq<SessionId>,
                              entries: map<SessionId, Entry>, ports: Ports, at: Time, config: Configuration)
  {
    FirstDue(before, at, config.maxCapturesPerRun, false, batch)
      && Attempted(before, after, batch, entries, ports, at, config)
  }

  predicate Recoverable(c: Checkpoint, entries: map<SessionId, Entry>, ports: Ports) {
    && c.lastDiagnostic.Some? && c.lastDiagnostic.value.SourceMutation?
    && (c.sessionId in entries || ports.get(c.sessionId).Some?)
  }

  /** The sessions of `ids` have made their recovery attempt; nothing else has changed. */
  ghost predicate Tried(before: map<SessionId, Checkpoint>, after: map<SessionId, Checkpoint>, ids: seq<SessionId>,
                        entries: map<SessionId, Entry>, ports: Ports, at: Time, config: Configuration)
  {
    && after.Keys == before.Keys
    && (forall id | id in before ::
          after[id] == if id in ids && Recoverable(before[id], entries, ports)
                       then Recover(before[id], ports.recover(id), at, config) else before[id])
  }

  /** One recovery pass: the earliest due recoveries make one attempt each if their session exists. */
  ghost predicate RecoveryPass(before: map<SessionId, Checkpoint>, after: map<SessionId, Checkpoint>,
                               batch: seq<SessionId>,
                               entries: map<SessionId, Entry>, ports: Ports, at: Time, config: Configuration)
  {
    FirstDue(before, at, config.maxRecoveriesPerRun, true, batch)
      && Tried(before, after, batch, entries, ports, at, config)
  }

  /** One run as it went: what was scanned, what the ports answered, which sessions made their attempts,
      and the checkpoints after the scan (`seen`) and after the captures (`tried`). */
  datatype Run = Run(at: Time, entries: map<SessionId, Entry>, ports: Ports, recovery: bool, captures: seq<SessionId>,
                     recoveries: seq<SessionId>, seen: map<SessionId, Checkpoint>, tried: map<SessionId, Checkpoint>)

  /** A scan, then a capture pass, then a recovery pass if a recovery port is configured. */
  ghost predicate Ran(before: map<SessionId, Checkpoint>, after: map<SessionId, Checkpoint>, run: Run,
                      config: Configuration) {
    && Scanned(before, run.seen, run.entries, run.at, config)
    && CapturePass(run.seen, run.tried, run.captures, run.entries, run.ports, run.at, config)
    && (if run.recovery then RecoveryPass(run.tried, after, run.recoveries, run.entries, run.ports, run.at, config)
        else after == run.tried)
  }

  lemma LookupSame(before: map<SessionId, Checkpoint>, now: map<SessionId, Checkpoint>,
                   taken: map<SessionId, Entry>, id: SessionId, at: Time, config: Configuration)
    requires Scanned(before, now, taken, at, config) && id !in taken
    ensures Lookup(now, id) == Lookup(before, id)
  {
    assert id in now <==> id in before;
    assert id in before ==> now[id] == before[id];
  }

  /** Observing one more entry. */
  lemma ScannedAdds(before: map<SessionId, Checkpoint>, now: map<SessionId, Checkpoint>,
                    next: map<SessionId, Checkpoint>,
                    taken: map<SessionId, Entry>, entry: Entry, at: Time, config: Configuration)
    requires Scanned(before, now, taken, at, config) && entry.sessionId !in taken
    requires var observed := Observe(Lookup(now, entry.sessionId), entry, at, config);
             next == if observed.Some? then now[entry.sessionId := observed.value] else now
    ensures Scanned(before, next, taken[entry.sessionId := entry], at, config)
  {
    var id := entry.sessionId;
    LookupSame(before, now, taken, id, at, config);
    var all := taken[id := entry];
    assert id in next && next[id] == Seen(before, entry, at, config);
    forall other ensures other in next <==> other in before || other in all {
      assert other in now <==> other in before || other in taken;
    }
    forall other | other in all
      ensures all[other].sessionId == other && next[other] == Seen(before, all[other], at, config)
    {
      assert other != id ==> other in now && next[other] == now[other];
    }
    forall other | other in before && other !in all ensures next[other] == before[other] {
      assert other in now && next[other] == now[other];
    }
  }

  lemma ScannedKeepsShape(before: map<SessionId, Checkpoint>, after: map<SessionId, Checkpoint>,
                          entries: map<SessionId, Entry>, at: Time, config: Configuration)
    requires AllShaped(before) && Scanned(before, after, entries, at, config)
    ensures AllShaped(after)
  {
    forall id | id in after ensures Shape(after[id]) && after[id].sessionId == id {
      if id in entries {
        ObserveKeepsShape(Lookup(before, id), entries[id], at, config);
      }
    }
  }

  lemma CapturedShape(c: Checkpoint, values: map<SessionId, Checkpoint>, outcome: CaptureOutcome, at: Time,
                      config: Configuration)
    requires c.sessionId in DueSet(values, at, false) && c == values[c.sessionId] && Shape(c)
    ensures Shape(Capture(c, outcome, at, config)) && Capture(c, outcome, at, config).sessionId == c.sessionId
  {
    CaptureKeepsShape(c, outcome, at, config);
  }

  lemma CapturePassKeepsShape(before: map<SessionId, Checkpoint>, after: map<SessionId, Checkpoint>,
                              batch: seq<SessionId>,
                              entries: map<SessionId, Entry>, ports: Ports, at: Time, config: Configuration)
    requires AllShaped(before) && CapturePass(before, after, batch, entries, ports, at, config)
    ensures AllShaped(after)
  {
    forall id | id in after ensures Shape(after[id]) && after[id].sessionId == id {
      if id in batch {
        CapturedShape(before[id], before, OutcomeOf(entries, ports, id), at, config);
      }
    }
  }

  lemma RecoveryPassKeepsShape(before: map<SessionId, Checkpoint>, after: map<SessionId, Checkpoint>,
                               batch: seq<SessionId>,
                               entries: map<SessionId, Entry>, ports: Ports, at: Time, config: Configuration)
    requires AllShaped(before) && RecoveryPass(before, after, batch, entries, ports, at, config)
    ensures AllShaped(after)
  {
    forall id | id in after ensures Shape(after[id]) && after[id].sessionId == id {
      if id in batch && Recoverable(before[id], entries, ports) {
        assert id in DueSet(before, at, true);
        RecoverKeepsShape(before[id], ports.recover(id), at, config);
      }
    }
  }

  /** How an update ends: nothing to change, committed, or given up after the last attempt. */
  datatype Ending = Unneeded | Committed | Conflict

  datatype Contested = Contested(stored: Option<Checkpoint>, ending: Ending)

  function VersionOf(c: Option<Checkpoint>): Option<nat> {
    if c.Some? then Some(c.value.version) else None
  }

  function Rest<T>(s: seq<T>, n: nat): seq<T> {
    if n <= |s| then s[n..] else []
  }

  /** What is stored when an attempt swaps: what another writer has stored meanwhile, or what was loaded. */
  function Met(current: Option<Checkpoint>, rivals: seq<Option<Checkpoint>>): Option<Checkpoint> {
    if rivals != [] && rivals[0].Some? then rivals[0] else current
  }

  /** An update against other writers, attempt by attempt. */
  function Contest(current: Option<Checkpoint>, mutate: Option<Checkpoint> -> Option<Checkpoint>,
                   rivals: seq<Option<Checkpoint>>, attempts: nat): Contested
    decreases attempts
  {
    if attempts == 0 then Contested(current, Conflict)
    else if mutate(current).None? then Contested(current, Unneeded)
    else if VersionOf(Met(current, rivals)) == VersionOf(current) then Contested(mutate(current), Committed)
    else Contest(Met(current, rivals), mutate, Rest(rivals, 1), attempts - 1)
  }

  /** What attempt `k` loads if all attempts before it were beaten. */
  function Loaded(current: Option<Checkpoint>, rivals: seq<Option<Checkpoint>>, k: nat): Option<Checkpoint>
    decreases k
  {
    if k == 0 then current else Loaded(Met(current, rivals), Rest(rivals, 1), k - 1)
  }

  /** Attempt `k` has something to write, and another writer is faster. */
  predicate Beaten(current: Option<Checkpoint>, mutate: Option<Checkpoint> -> Option<Checkpoint>,
                   rivals: seq<Option<Checkpoint>>, k: nat)
    decreases k
  {
    if k == 0 then mutate(current).Some? && VersionOf(Met(current, rivals)) != VersionOf(current)
    else Beaten(Met(current, rivals), mutate, Rest(rivals, 1), k - 1)
  }

  /** Other writers commit by compare-and-swap too: each raises the version of what it replaces. */
  predicate Rising(current: Option<Checkpoint>, rivals: seq<Option<Checkpoint>>)
    decreases |rivals|
  {
    rivals != [] ==>
      && (rivals[0].Some? && current.Some? ==> rivals[0].value.version > current.value.version)
      && Rising(Met(current, rivals), rivals[1..])
  }

  /** With rising versions, the stored version tells whether anything was written since attempt `k` loaded. */
  lemma {:induction false} SameVersionIsUntouched(current: Option<Checkpoint>, rivals: seq<Option<Checkpoint>>, k: nat)
    requires Rising(current, rivals)
    ensures var loaded, rest := Loaded(current, rivals, k), Rest(rivals, k);
            VersionOf(Met(loaded, rest)) == VersionOf(loaded) ==> Met(loaded, rest) == loaded
    decreases k
  {
    if k > 0 {
      SameVersionIsUntouched(Met(current, rivals), Rest(rivals, 1), k - 1);
      assert Rest(Rest(rivals, 1), k - 1) == Rest(rivals, k);
    }
  }

  lemma {:induction false} BeatenExactly(current: Option<Checkpoint>, mutate: Option<Checkpoint> -> Option<Checkpoint>,
                                         rivals: seq<Option<Checkpoint>>, k: nat)
    ensures var loaded := Loaded(current, rivals, k);
            Beaten(current, mutate, rivals, k)
            <==> mutate(loaded).Some? && VersionOf(Met(loaded, Rest(rivals, k))) != VersionOf(loaded)
    decreases k
  {
    if k > 0 {
      BeatenExactly(Met(current, rivals), mutate, Rest(rivals, 1), k - 1);
      assert Rest(Rest(rivals, 1), k - 1) == Rest(rivals, k);
    }
  }

  /** Against writers that raise the version, an update that commits overwrites nothing that it has not
      seen: what it replaces is exactly what its last attempt loaded, and changed. */
  lemma CommitsOverWhatItLoaded(current: Option<Checkpoint>, mutate: Option<Checkpoint> -> Option<Checkpoint>,
                                rivals: seq<Option<Checkpoint>>, attempts: nat) returns (k: nat)
    requires Rising(current, rivals) && Contest(current, mutate, rivals, attempts).ending.Committed?
    ensures k < attempts && (forall j | 0 <= j < k :: Beaten(current, mutate, rivals, j))
    ensures var loaded := Loaded(current, rivals, k);
            Met(loaded, Rest(rivals, k)) == loaded
            && Contest(current, mutate, rivals, attempts).stored == mutate(loaded)
  {
    k := FirstUnbeatenCommits(current, mutate, rivals, attempts);
    BeatenExactly(current, mutate, rivals, k);
    SameVersionIsUntouched(current, rivals, k);
  }

  /** A writer that repeated the version would be overwritten unseen. */
  lemma RepeatedVersionIsOverwritten(current: Checkpoint, rival: Checkpoint,
                                     mutate: Option<Checkpoint> -> Option<Checkpoint>, attempts: nat)
    requires rival.version == current.version && mutate(Some(current)).Some? && attempts >= 1
    ensures Contest(Some(current), mutate, [Some(rival)], attempts) == Contested(mutate(Some(current)), Committed)
  {
  }

  /** An update gives up exactly if it is beaten in every attempt; otherwise its first attempt that is not
      beaten decides: it changes what it has loaded, if there is anything to change. */
  lemma {:induction false} FirstUnbeatenCommits(current: Option<Checkpoint>,
                                                mutate: Option<Checkpoint> -> Option<Checkpoint>,
                                                rivals: seq<Option<Checkpoint>>, attempts: nat) returns (k: nat)
    ensures k <= attempts && (forall j | 0 <= j < k :: Beaten(current, mutate, rivals, j))
    ensures k < attempts ==> !Beaten(current, mutate, rivals, k)
    ensures var last := Loaded(current, rivals, k);
            Contest(current, mutate, rivals, attempts)
            == if k == attempts then Contested(last, Conflict)
               else if mutate(last).None? then Contested(last, Unneeded) else Contested(mutate(last), Committed)
    decreases attempts
  {
    if attempts == 0 || !Beaten(current, mutate, rivals, 0) {
      k := 0;
    } else {
      var met, rest := Met(current, rivals), Rest(rivals, 1);
      var later := FirstUnbeatenCommits(met, mutate, rest, attempts - 1);
      k := later + 1;
      forall j | 0 <= j < k ensures Beaten(current, mutate, rivals, j) {
        assert j > 0 ==> Beaten(met, mutate, rest, j - 1);
      }
    }
  }

  function Stored(values: map<SessionId, Checkpoint>, id: SessionId, c: Option<Checkpoint>)
    : map<SessionId, Checkpoint>
  {
    if c.Some? then values[id := c.value] else values
  }

  /** The mutation of `c` keeps the session and raises the version by one. */
  predicate Follows(id: SessionId, mutate: Option<Checkpoint> -> Option<Checkpoint>, c: Option<Checkpoint>) {
    mutate(c).Some? ==>
      && mutate(c).value.sessionId == id
      && mutate(c).value.version == (if c.Some? then c.value.version else 0) + 1
  }

  predicate FollowsAll(id: SessionId, mutate: Option<Checkpoint> -> Option<Checkpoint>,
                       rivals: seq<Option<Checkpoint>>) {
    forall k | 0 <= k < |rivals| && rivals[k].Some? :: Follows(id, mutate, rivals[k])
  }

  class AutomaticIngestionService {
    const config: Configuration
    const store: CheckpointStore
    const conflictRetries: nat

    constructor (config: Configuration, conflictRetries: nat, store: CheckpointStore)
      ensures this.config == config && this.store == store && this.conflictRetries == conflictRetries
    {
      this.config, this.store, this.conflictRetries := config, store, conflictRetries;
    }

    ghost predicate Valid() {
      ValidConfiguration(config) && 1 <= conflictRetries <= 10
    }

    /** The swap of one attempt, after what another writer may have stored since it loaded. */
    method Swap(id: SessionId, current: Option<Checkpoint>, next: Checkpoint, rivals: seq<Option<Checkpoint>>)
      returns (committed: bool)
      requires current == Lookup(store.values, id)
      requires next.sessionId == id && next.version == (if current.Some? then current.value.version else 0) + 1
      modifies store
      ensures committed <==> VersionOf(Met(current, rivals)) == VersionOf(current)
      ensures store.values == Stored(old(store.values), id, if committed then Some(next) else Met(current, rivals))
    {
      if rivals != [] && rivals[0].Some? {
        store.values := store.values[id := rivals[0].value];
      }
      committed := store.CompareAndSwap(id, VersionOf(current), next);
    }

    /** Load, compute the next checkpoint, and compare-and-swap, a bounded number of times. `rivals` are
        what other writers store between the load and the swap of each attempt. */
    method Update(id: SessionId, mutate: Option<Checkpoint> -> Option<Checkpoint>, rivals: seq<Option<Checkpoint>>)
      returns (ending: Ending)
      requires Valid() && Follows(id, mutate, Lookup(store.values, id)) && FollowsAll(id, mutate, rivals)
      modifies store
      ensures var contest := Contest(Lookup(old(store.values), id), mutate, rivals, conflictRetries);
              && ending == contest.ending
              && store.values == Stored(old(store.values), id, contest.stored)
    {
      var attempt := 0;
      ghost var before := store.values;
      while attempt < conflictRetries
        invariant attempt <= conflictRetries
        invariant Follows(id, mutate, Lookup(store.values, id))
        invariant store.values == Stored(before, id, Lookup(store.values, id))
        invariant Contest(Lookup(before, id), mutate, rivals, conflictRetries)
               == Contest(Lookup(store.values, id), mutate, Rest(rivals, attempt), conflictRetries - attempt)
      {
        var current := store.Load(id);
        var next := mutate(current);
        if next.None? { return Unneeded; }
        var committed := Swap(id, current, next.value, Rest(rivals, attempt));
        if committed { return Committed; }
        attempt := attempt + 1;
      }
      return Conflict;
    }

    method ObserveSession(entry: Entry, ghost taken: map<SessionId, Entry>, ghost before: map<SessionId, Checkpoint>,
                          at: Time)
      requires Valid() && entry.sessionId !in taken
      requires Scanned(before, store.values, taken, at, config)
      modifies store
      ensures Scanned(before, store.values, taken[entry.sessionId := entry], at, config)
    {
      ghost var now := store.values;
      LookupSame(before, now, taken, entry.sessionId, at, config);
      var configuration := config;
      var observe := (current: Option<Checkpoint>) => Observe(current, entry, at, configuration);
      assert observe(Lookup(now, entry.sessionId)) == Observe(Lookup(now, entry.sessionId), entry, at, config);
      var _ := Update(entry.sessionId, observe, []);
      ScannedAdds(before, now, store.values, taken, entry, at, config);
    }

    /** Take one entry of a page: it counts if it is valid and its session is new. */
    method TakeEntry(entry: Entry, entries: map<SessionId, Entry>, ghost before: map<SessionId, Checkpoint>, at: Time)
      returns (taken: map<SessionId, Entry>)
      requires Valid() && Scanned(before, store.values, entries, at, config)
      modifies store
      ensures Scanned(before, store.values, taken, at, config)
      ensures taken == if entry.valid && entry.sessionId !in entries then entries[entry.sessionId := entry] else entries
    {
      taken := entries;
      if entry.valid && entry.sessionId !in entries {
        ObserveSession(entry, entries, before, at);
        taken := taken[entry.sessionId := entry];
      }
    }

    /** Put the entries of one page into the scan, observing each new session. */
    method TakePage(items: seq<Entry>, entries: map<SessionId, Entry>, ghost before: map<SessionId, Checkpoint>,
                    at: Time)
      returns (taken: map<SessionId, Entry>)
      requires Valid() && |entries| < config.maxSessionsPerScan
      requires Scanned(before, store.values, entries, at, config)
      modifies store
      ensures Scanned(before, store.values, taken, at, config)
      ensures PageTaken(entries, taken, items, config)
    {
      taken := entries;
      var i := 0;
      while i < |items|
        invariant 0 <= i <= |items|
        invariant Scanned(before, store.values, taken, at, config)
        invariant |taken| <= config.maxSessionsPerScan && |taken| <= |entries| + i
        invariant Extends(entries, taken, items[..i])
        invariant Holds(items[..i], taken)
      {
        if |taken| >= config.maxSessionsPerScan {
          ExtendsFurther(entries, taken, items[..i], items);
          return;
        }
        var next := TakeEntry(items[i], taken, before, at);
        OneMoreTaken(entries, taken, next, items, i);
        taken := next;
        i := i + 1;
      }
      assert items[..i] == items;
    }

    /** Take the next page, and decide whether its cursor may be followed. */
    method TakeNext(catalog: seq<Page>, scan: PageScan, ghost before: map<SessionId, Checkpoint>, at: Time)
      returns (next: PageScan)
      requires Valid() && |catalog| == config.maxScanPages
      requires !scan.done && scan.pages < config.maxScanPages && |scan.entries| < config.maxSessionsPerScan
      requires Scanned(before, store.values, scan.entries, at, config)
      requires Progress(catalog, config, scan)
      modifies store
      ensures Scanned(before, store.values, next.entries, at, config)
      ensures Progress(catalog, config, next) && next.pages == scan.pages + 1
    {
      var page := catalog[scan.pages];
      var taken := TakePage(page.items, scan.entries, before, at);
      next := NextScan(page, scan, taken, config);
      NextScanCounts(catalog, config, scan, taken);
      NextScanGathers(catalog, config, scan, taken);
    }

    /** Follow the catalog's pages until they end, repeat a position, or reach a bound. */
    method ScanCatalog(at: Time, catalog: seq<Page>) returns (r: PageScan)
      requires Valid() && |catalog| == config.maxScanPages
      modifies store
      ensures Scanned(old(store.values), store.values, r.entries, at, config)
      ensures ScanReport(catalog, config, r)
    {
      r := PageScan(map[], [], 0, true, false);
      while !r.done && r.pages < config.maxScanPages && |r.entries| < config.maxSessionsPerScan
        invariant Scanned(old(store.values), store.values, r.entries, at, config)
        invariant Progress(catalog, config, r)
        decreases config.maxScanPages - r.pages
      {
        r := TakeNext(catalog, r, old(store.values), at);
      }
      ProgressEnds(catalog, config, r);
    }

    /** One attempt for a due session: missing or unavailable, or whatever the capture port answers. */
    method CaptureOne(id: SessionId, entries: map<SessionId, Entry>, ports: Ports, at: Time) returns (succeeded: bool)
      requires Valid() && id in store.values && store.values[id].sessionId == id
      modifies store
      ensures store.values
           == old(store.values)[id := Capture(old(store.values)[id], OutcomeOf(entries, ports, id), at, config)]
      ensures succeeded == OutcomeOf(entries, ports, id).Success?
    {
      var entry := if id in entries then Some(entries[id]) else ports.get(id);
      var outcome := Missing;
      if entry.Some? && entry.value.available {
        outcome := ports.capture(id);
      }
      var configuration := config;
      var _ := Update(id, (current: Option<Checkpoint>) =>
                        if current.None? then None else Some(Capture(current.value, outcome, at, configuration)), []);
      succeeded := outcome.Success?;
    }

    method CaptureNext(batch: seq<SessionId>, i: nat, ghost before: map<SessionId, Checkpoint>,
                       entries: map<SessionId, Entry>, ports: Ports, at: Time) returns (succeeded: bool)
      requires Valid() && i < |batch| && AllShaped(before)
      requires FirstDue(before, at, config.maxCapturesPerRun, false, batch)
      requires Attempted(before, store.values, batch[..i], entries, ports, at, config)
      modifies store
      ensures Attempted(before, store.values, batch[..i + 1], entries, ports, at, config)
      ensures Successes(batch[..i + 1], entries, ports)
           == Successes(batch[..i], entries, ports) + if succeeded then 1 else 0
    {
      ghost var now := store.values;
      NextInBatch(before, now, batch, i, at, config.maxCapturesPerRun, false);
      succeeded := CaptureOne(batch[i], entries, ports, at);
      AttemptedNext(before, now, store.values, batch, i, entries, ports, at, config);
    }

    method CaptureEligible(at: Time, entries: map<SessionId, Entry>, ports: Ports)
      returns (captured: nat, ghost batch: seq<SessionId>)
      requires Valid() && AllShaped(store.values)
      modifies store
      ensures CapturePass(old(store.values), store.values, batch, entries, ports, at, config)
      ensures captured == Successes(batch, entries, ports)
      ensures AllShaped(store.values)
    {
      var eligible := store.ListEligible(at, config.maxCapturesPerRun, false);
      batch := eligible;
      ghost var before := store.values;
      captured := 0;
      var i := 0;
      while i < |eligible|
        invariant 0 <= i <= |eligible|
        invariant captured == Successes(eligible[..i], entries, ports)
        invariant Attempted(before, store.values, eligible[..i], entries, ports, at, config)
      {
        var succeeded := CaptureNext(eligible, i, before, entries, ports, at);
        if succeeded { captured := captured + 1; }
        i := i + 1;
      }
      assert eligible[..i] == eligible;
      CapturePassKeepsShape(before, store.values, batch, entries, ports, at, config);
    }

    method RecoverOne(id: SessionId, entries: map<SessionId, Entry>, ports: Ports, at: Time) returns (completed: bool)
      requires Valid() && id in store.values && store.values[id].sessionId == id
      modifies store
      ensures var c := old(store.values)[id];
              store.values == if Recoverable(c, entries, ports)
                              then old(store.values)[id := Recover(c, ports.recover(id), at, config)]
                              else old(store.values)
      ensures completed == (Recoverable(old(store.values)[id], entries, ports) && ports.recover(id).Rebased?)
    {
      var checkpoint := store.values[id];
      var entry := if id in entries then Some(entries[id]) else ports.get(id);
      if entry.None? || checkpoint.lastDiagnostic.None? || !checkpoint.lastDiagnostic.value.SourceMutation? {
        return false;
      }
      var outcome := ports.recover(id);
      var next := Recover(checkpoint, outcome, at, config);
      var _ := Update(id, (current: Option<Checkpoint>) => if current.None? then None else Some(next), []);
      completed := outcome.Rebased?;
    }

    method RecoverNext(batch: seq<SessionId>, i: nat, ghost before: map<SessionId, Checkpoint>,
                       entries: map<SessionId, Entry>, ports: Ports, at: Time) returns (completed: bool)
      requires Valid() && i < |batch| && AllShaped(before)
      requires FirstDue(before, at, config.maxRecoveriesPerRun, true, batch)
      requires Tried(before, store.values, batch[..i], entries, ports, at, config)
      modifies store
      ensures Tried(before, store.values, batch[..i + 1], entries, ports, at, config)
      ensures Completions(batch[..i + 1], before, entries, ports)
              == Completions(batch[..i], before, entries, ports) + if completed then 1 else 0
    {
      ghost var now := store.values;
      NextInBatch(before, now, batch, i, at, config.maxRecoveriesPerRun, true);
      completed := RecoverOne(batch[i], entries, ports, at);
      TriedNext(before, now, store.values, batch, i, entries, ports, at, config);
    }

    method RecoverEligible(at: Time, entries: map<SessionId, Entry>, ports: Ports)
      returns (recovered: nat, ghost batch: seq<SessionId>)
      requires Valid() && AllShaped(store.values)
      modifies store
      ensures RecoveryPass(old(store.values), store.values, batch, entries, ports, at, config)
      ensures recovered == Completions(batch, old(store.values), entries, ports)
      ensures AllShaped(store.values)
    {
      var eligible := store.ListEligible(at, config.maxRecoveriesPerRun, true);
      batch := eligible;
      ghost var before := store.values;
      recovered := 0;
      var i := 0;
      while i < |eligible|
        invariant 0 <= i <= |eligible|
        invariant recovered == Completions(eligible[..i], before, entries, ports)
        invariant Tried(before, store.values, eligible[..i], entries, ports, at, config)
      {
        var completed := RecoverNext(eligible, i, before, entries, ports, at);
        if completed { recovered := recovered + 1; }
        i := i + 1;
      }
      assert eligible[..i] == eligible;
      RecoveryPassKeepsShape(before, store.values, batch, entries, ports, at, config);
    }

    /** One run: scan, then capture, then recover if a recovery port is configured. */
    method RunOnce(at: Time, catalog: seq<Page>, ports: Ports, recovery: bool)
      returns (scan: PageScan, captured: nat, recovered: nat, ghost run: Run)
      requires Valid() && |catalog| == config.maxScanPages && AllShaped(store.values)
      modifies store
      ensures Ran(old(store.values), store.values, run, config) && ScanReport(catalog, config, scan)
      ensures run.at == at && run.entries == scan.entries && run.ports == ports && run.recovery == recovery
      ensures captured == Successes(run.captures, scan.entries, ports)
      ensures recovered == if recovery then Completions(run.recoveries, run.tried, scan.entries, ports) else 0
      ensures AllShaped(store.values)
    {
      scan := ScanCatalog(at, catalog);
      ghost var seen := store.values;
      ScannedKeepsShape(old(store.values), seen, scan.entries, at, config);
      ghost var captures: seq<SessionId>, recoveries: seq<SessionId> := [], [];
      captured, captures := CaptureEligible(at, scan.entries, ports);
      ghost var tried := store.values;
      recovered := 0;
      if recovery {
        recovered, recoveries := RecoverEligible(at, scan.entries, ports);
      }
      run := Run(at, scan.entries, ports, recovery, captures, recoveries, seen, tried);
    }
  }

  lemma NextInBatch(before: map<SessionId, Checkpoint>, now: map<SessionId, Checkpoint>, batch: seq<SessionId>, i: nat,
                    at: Time, limit: nat, recovery: bool)
    requires FirstDue(before, at, limit, recovery, batch) && i < |batch| && now.Keys == before.Keys && AllShaped(before)
    requires forall id | id in before && id !in batch[..i] :: now[id] == before[id]
    ensures batch[i] !in batch[..i] && batch[i] in now && now[batch[i]] == before[batch[i]]
            && now[batch[i]].sessionId == batch[i]
  {
    OrderedAreDistinct(before, batch);
    assert batch[i] in batch;
  }

  lemma FirstsAppend(batch: seq<SessionId>, i: nat)
    requires i < |batch|
    ensures batch[..i + 1] == batch[..i] + [batch[i]] && batch[..i + 1][..i] == batch[..i]
  {
  }

  lemma AttemptedNext(before: map<SessionId, Checkpoint>, now: map<SessionId, Checkpoint>,
                      next: map<SessionId, Checkpoint>, batch: seq<SessionId>, i: nat, entries: map<SessionId, Entry>,
                      ports: Ports, at: Time, config: Configuration)
    requires i < |batch| && batch[i] !in batch[..i] && batch[i] in now
    requires Attempted(before, now, batch[..i], entries, ports, at, config)
    requires next == now[batch[i] := Capture(now[batch[i]], OutcomeOf(entries, ports, batch[i]), at, config)]
    ensures Attempted(before, next, batch[..i + 1], entries, ports, at, config)
    ensures Successes(batch[..i + 1], entries, ports)
            == Successes(batch[..i], entries, ports) + if OutcomeOf(entries, ports, batch[i]).Success? then 1 else 0
  {
    FirstsAppend(batch, i);
    forall id | id in before
      ensures next[id] == if id in batch[..i + 1] then Capture(before[id], OutcomeOf(entries, ports, id), at, config)
                          else before[id]
    {
      assert id in batch[..i + 1] <==> id in batch[..i] || id == batch[i];
    }
  }

  lemma TriedNext(before: map<SessionId, Checkpoint>, now: map<SessionId, Checkpoint>, next: map<SessionId, Checkpoint>,
                  batch: seq<SessionId>, i: nat, entries: map<SessionId, Entry>, ports: Ports, at: Time,
                    config: Configuration)
    requires i < |batch| && batch[i] !in batch[..i] && batch[i] in now
    requires Tried(before, now, batch[..i], entries, ports, at, config)
    requires next == if Recoverable(now[batch[i]], entries, ports)
                     then now[batch[i] := Recover(now[batch[i]], ports.recover(batch[i]), at, config)] else now
    ensures Tried(before, next, batch[..i + 1], entries, ports, at, config)
    ensures Completions(batch[..i + 1], before, entries, ports)
            == Completions(batch[..i], before, entries, ports)
               + if Recoverable(now[batch[i]], entries, ports) && ports.recover(batch[i]).Rebased? then 1 else 0
  {
    FirstsAppend(batch, i);
    forall id | id in before
      ensures next[id] == if id in batch[..i + 1] && Recoverable(before[id], entries, ports)
                          then Recover(before[id], ports.recover(id), at, config) else before[id]
    {
      assert id in batch[..i + 1] <==> id in batch[..i] || id == batch[i];
    }
  }

  function Successes(ids: seq<SessionId>, entries: map<SessionId, Entry>, ports: Ports): nat {
    if ids == [] then 0
    else
      Successes(ids[..|ids| - 1], entries, ports)
      + if OutcomeOf(entries, ports, ids[|ids| - 1]).Success? then 1 else 0
  }

  function Completions(ids: seq<SessionId>, values: map<SessionId, Checkpoint>, entries: map<SessionId, Entry>,
                       ports: Ports): nat {
    if ids == [] then 0
    else
      var id := ids[|ids| - 1];
      Completions(ids[..|ids| - 1], values, entries, ports)
      + if id in values && Recoverable(values[id], entries, ports) && ports.recover(id).Rebased? then 1 else 0
  }

  /** A pass removes exactly its batch from the sessions that are due at its time. */
  lemma PassRemovesBatch(before: map<SessionId, Checkpoint>, after: map<SessionId, Checkpoint>, batch: seq<SessionId>,
                         entries: map<SessionId, Entry>, ports: Ports, at: Time, config: Configuration)
    requires ValidConfiguration(config) && CapturePass(before, after, batch, entries, ports, at, config)
    ensures DueSet(after, at, false) == DueSet(before, at, false) - IdSet(batch)
    ensures var due := |DueSet(before, at, false)|;
            |DueSet(after, at, false)| == due - Min(config.maxCapturesPerRun, due)
  {
    forall id ensures id in DueSet(after, at, false) <==> id in DueSet(before, at, false) - IdSet(batch) {
      if id in before {
        assert id in batch ==> !IsDue(after, at, false, id);
      }
    }
    OrderedAreDistinct(before, batch);
    assert IdSet(batch) <= DueSet(before, at, false);
  }

  datatype Pass = Pass(batch: seq<SessionId>, entries: map<SessionId, Entry>, ports: Ports)

  /** Capture passes at one time, one after another, with any answers of the ports. */
  ghost predicate Passes(states: seq<map<SessionId, Checkpoint>>, passes: seq<Pass>, at: Time, config: Configuration) {
    && |states| == |passes| + 1
    && (forall k | 0 <= k < |passes| ::
          CapturePass(states[k], states[k + 1], passes[k].batch, passes[k].entries, passes[k].ports, at, config))
  }

  /** Each pass takes `max` sessions off the due set, until none is left. */
  lemma {:induction false} PassesDrain(states: seq<map<SessionId, Checkpoint>>, passes: seq<Pass>, at: Time,
                                       config: Configuration, k: nat)
    requires ValidConfiguration(config) && Passes(states, passes, at, config) && k <= |passes|
    ensures DueSet(states[k], at, false) <= DueSet(states[0], at, false)
    ensures var n, taken := |DueSet(states[0], at, false)|, k * config.maxCapturesPerRun;
            |DueSet(states[k], at, false)| == if n <= taken then 0 else n - taken
  {
    if k > 0 {
      PassesDrain(states, passes, at, config, k - 1);
      var pass := passes[k - 1];
      PassRemovesBatch(states[k - 1], states[k], pass.batch, pass.entries, pass.ports, at, config);
      assert k * config.maxCapturesPerRun == (k - 1) * config.maxCapturesPerRun + config.maxCapturesPerRun;
    }
  }

  lemma PassTakesDue(states: seq<map<SessionId, Checkpoint>>, passes: seq<Pass>, at: Time, config: Configuration,
                     j: nat, id: SessionId)
    requires Passes(states, passes, at, config) && j < |passes| && id in passes[j].batch
    ensures id in DueSet(states[j], at, false)
  {
    assert CapturePass(states[j], states[j + 1], passes[j].batch, passes[j].entries, passes[j].ports, at, config);
  }

  /** A session captured in one pass is not due in any later state, and so is in no later batch. */
  lemma {:induction false} CapturedAtMostOnce(states: seq<map<SessionId, Checkpoint>>, passes: seq<Pass>, at: Time,
                                              config: Configuration, i: nat, j: nat, id: SessionId)
    requires ValidConfiguration(config) && Passes(states, passes, at, config)
    requires i < j <= |passes| && id in passes[i].batch
    ensures id !in DueSet(states[j], at, false)
    ensures j < |passes| ==> id !in passes[j].batch
    decreases j
  {
    var pass := passes[j - 1];
    PassRemovesBatch(states[j - 1], states[j], pass.batch, pass.entries, pass.ports, at, config);
    if i < j - 1 {
      CapturedAtMostOnce(states, passes, at, config, i, j - 1, id);
    } else {
      assert id in IdSet(pass.batch);
    }
    if j < |passes| && id in passes[j].batch {
      PassTakesDue(states, passes, at, config, j, id);
    }
  }

  /** The number of passes rounded up drains the queue, and fewer passes do not. */
  lemma CeilingDrains(states: seq<map<SessionId, Checkpoint>>, passes: seq<Pass>, at: Time, config: Configuration)
    requires ValidConfiguration(config) && Passes(states, passes, at, config)
    ensures var n, max := |DueSet(states[0], at, false)|, config.maxCapturesPerRun;
            DueSet(states[|passes|], at, false) == {} <==> |passes| >= (n + max - 1) / max
  {
    var n, max, k := |DueSet(states[0], at, false)|, config.maxCapturesPerRun, |passes|;
    PassesDrain(states, passes, at, config, k);
    CeilingIsLeast(n, max, k);
  }

  lemma CeilingIsLeast(n: nat, max: nat, k: nat)
    requires max >= 1
    ensures n <= k * max <==> k >= (n + max - 1) / max
  {
    var q := (n + max - 1) / max;
    assert q * max <= n + max - 1 < q * max + max;
    if k >= q {
      assert k * max >= q * max;
    } else {
      assert k * max <= (q - 1) * max == q * max - max;
    }
  }

  /** The page loop's next state: flag an oversized page, then end, refuse a repeated position, or go on. */
  function NextScan(page: Page, scan: PageScan, taken: map<SessionId, Entry>, config: Configuration): PageScan {
    var fits := scan.complete && |page.items| <= config.maxSessionsPerScan - |scan.entries|;
    var pages := scan.pages + 1;
    var follow := page.next.Some? && page.next.value !in scan.positions;
    PageScan(taken, if follow then scan.positions + [page.next.value] else scan.positions, pages,
             fits && if follow then pages < config.maxScanPages && |taken| < config.maxSessionsPerScan
                     else page.next.None?,
             !follow)
  }

  /** What the page loop knows at its top. */
  ghost predicate Progress(catalog: seq<Page>, config: Configuration, scan: PageScan)
    requires |catalog| == config.maxScanPages
  {
    Counted(catalog, config, scan) && Gathered(catalog, config, scan)
  }

  ghost predicate Gathered(catalog: seq<Page>, config: Configuration, scan: PageScan) {
    && scan.pages <= |catalog|
    && Followed(catalog, scan.positions)
    && FromPages(catalog, scan.pages, scan.entries)
    && (scan.complete || |scan.entries| < config.maxSessionsPerScan ==> PagesHeld(catalog, scan.pages, scan.entries))
  }

  /** The page is the last one, or points back to a page that was fetched. */
  predicate NothingToFollow(page: Page, positions: seq<Position>) {
    page.next.None? || page.next.value in positions
  }

  ghost predicate Counted(catalog: seq<Page>, config: Configuration, scan: PageScan)
    requires |catalog| == config.maxScanPages
  {
    && |scan.entries| <= config.maxSessionsPerScan && scan.pages <= config.maxScanPages
    && (if scan.pages == 0 then scan == PageScan(map[], [], 0, true, false)
        else |scan.positions| == if scan.done then scan.pages - 1 else scan.pages)
    && (scan.complete && scan.done ==> scan.pages >= 1 && catalog[scan.pages - 1].next.None?)
    && (scan.complete && !scan.done && scan.pages > 0 ==>
          scan.pages < config.maxScanPages && |scan.entries| < config.maxSessionsPerScan)
    && |scan.entries| <= TotalItems(catalog, scan.pages)
    && (scan.done ==> scan.pages >= 1 && NothingToFollow(catalog[scan.pages - 1], scan.positions))
    && (!scan.complete ==>
          || TotalItems(catalog, scan.pages) > config.maxSessionsPerScan
          || (scan.pages >= 1 && catalog[scan.pages - 1].next.Some?
              && (scan.done || scan.pages == config.maxScanPages || |scan.entries| == config.maxSessionsPerScan)))
  }

  lemma NextScanCounts(catalog: seq<Page>, config: Configuration, scan: PageScan, taken: map<SessionId, Entry>)
    requires |catalog| == config.maxScanPages && Counted(catalog, config, scan) && !scan.done
             && scan.pages < config.maxScanPages
    requires |scan.entries| < config.maxSessionsPerScan
    requires |taken| <= config.maxSessionsPerScan && |taken| <= |scan.entries| + |catalog[scan.pages].items|
    ensures Counted(catalog, config, NextScan(catalog[scan.pages], scan, taken, config))
  {
  }

  lemma NextScanGathers(catalog: seq<Page>, config: Configuration, scan: PageScan, taken: map<SessionId, Entry>)
    requires Gathered(catalog, config, scan) && scan.pages < |catalog| && |scan.positions| == scan.pages
    requires |scan.entries| < config.maxSessionsPerScan
    requires PageTaken(scan.entries, taken, catalog[scan.pages].items, config)
    ensures Gathered(catalog, config, NextScan(catalog[scan.pages], scan, taken, config))
  {
    var page := catalog[scan.pages];
    PageAdded(catalog, scan.pages, scan.entries, taken);
    if page.next.Some? && page.next.value !in scan.positions {
      NotYetFollowed(catalog, scan.positions, page.next.value);
    }
  }

  function TotalItems(catalog: seq<Page>, pages: nat): nat
    requires pages <= |catalog|
  {
    if pages == 0 then 0 else TotalItems(catalog, pages - 1) + |catalog[pages - 1].items|
  }

  /** What the page loop has established when it is left: the pages fetched are distinct positions of
      one chain, entries are valid items of them and bounded, and the loop has stopped only at a bound, at
      the end of the chain, or where it turns back. Below the session bound every valid item of every page
      was taken; COMPLETE means that, and that the chain ended. A chain that ends within the session bound
      is COMPLETE. */
  ghost predicate ScanReport(catalog: seq<Page>, config: Configuration, scan: PageScan) {
    && |scan.entries| <= config.maxSessionsPerScan
    && 1 <= scan.pages <= |catalog| == config.maxScanPages && scan.pages <= |scan.positions| + 1
    && Followed(catalog, scan.positions)
    && FromPages(catalog, scan.pages, scan.entries)
    && (|| scan.pages == config.maxScanPages || |scan.entries| == config.maxSessionsPerScan
        || NothingToFollow(catalog[scan.pages - 1], scan.positions))
    && (|scan.entries| < config.maxSessionsPerScan ==> PagesHeld(catalog, scan.pages, scan.entries))
    && (scan.complete ==> catalog[scan.pages - 1].next.None? && PagesHeld(catalog, scan.pages, scan.entries))
    && (catalog[scan.pages - 1].next.None? && TotalItems(catalog, scan.pages) <= config.maxSessionsPerScan
        ==> scan.complete)
  }

  lemma ProgressEnds(catalog: seq<Page>, config: Configuration, scan: PageScan)
    requires |catalog| == config.maxScanPages && Progress(catalog, config, scan)
    requires scan.done || scan.pages >= config.maxScanPages || |scan.entries| >= config.maxSessionsPerScan
    requires 1 <= config.maxScanPages && 1 <= config.maxSessionsPerScan
    ensures ScanReport(catalog, config, scan)
  {
  }

  lemma NotYetFollowed(catalog: seq<Page>, positions: seq<Position>, next: Position)
    requires Followed(catalog, positions) && next !in positions && |positions| < |catalog|
             && catalog[|positions|].next == Some(next)
    ensures Followed(catalog, positions + [next])
  {
  }

  /** `taken` keeps `entries`; what it adds are valid items. */
  ghost predicate Extends(entries: map<SessionId, Entry>, taken: map<SessionId, Entry>, items: seq<Entry>) {
    && (forall id {:trigger id in taken} | id in entries :: id in taken)
    && (forall id {:trigger taken[id]} | id in entries :: taken[id] == entries[id])
    && (forall id {:trigger taken[id]} | id in taken && id !in entries :: taken[id] in items && taken[id].valid)
  }

  /** What the scan holds after a page: as much of the page as the session bound allows, all of it if it fits. */
  ghost predicate PageTaken(entries: map<SessionId, Entry>, taken: map<SessionId, Entry>, items: seq<Entry>,
                            config: Configuration) {
    && |taken| <= config.maxSessionsPerScan && |taken| <= |entries| + |items|
    && Extends(entries, taken, items)
    && (|items| <= config.maxSessionsPerScan - |entries| || |taken| < config.maxSessionsPerScan ==> Holds(items, taken))
  }

  /** Every valid item has its session in `taken`. */
  ghost predicate Holds(items: seq<Entry>, taken: map<SessionId, Entry>) {
    forall e | e in items && e.valid :: e.sessionId in taken
  }

  lemma ExtendsFurther(entries: map<SessionId, Entry>, taken: map<SessionId, Entry>, items: seq<Entry>,
                       more: seq<Entry>)
    requires Extends(entries, taken, items) && items <= more
    ensures Extends(entries, taken, more)
  {
    forall e | e in items ensures e in more {
      var i :| 0 <= i < |items| && items[i] == e;
      assert more[i] == e;
    }
  }

  lemma OneMoreTaken(entries: map<SessionId, Entry>, taken: map<SessionId, Entry>, next: map<SessionId, Entry>,
                     items: seq<Entry>, i: nat)
    requires i < |items| && Extends(entries, taken, items[..i]) && Holds(items[..i], taken)
    requires next == if items[i].valid && items[i].sessionId !in taken then taken[items[i].sessionId := items[i]]
             else taken
    ensures Extends(entries, next, items[..i + 1]) && Holds(items[..i + 1], next)
  {
    assert items[..i + 1] == items[..i] + [items[i]];
  }

  /** Each position comes from the page before it, and no position is followed twice. */
  ghost predicate Followed(catalog: seq<Page>, positions: seq<Position>) {
    && |positions| <= |catalog|
    && (forall k | 0 <= k < |positions| :: catalog[k].next == Some(positions[k]))
    && (forall i, j | 0 <= i < j < |positions| :: positions[i] != positions[j])
  }

  /** Every entry is a valid item of a fetched page. */
  ghost predicate FromPages(catalog: seq<Page>, pages: nat, entries: map<SessionId, Entry>)
    requires pages <= |catalog|
  {
    forall id {:trigger entries[id]} | id in entries ::
      entries[id].valid && exists k :: 0 <= k < pages && entries[id] in catalog[k].items
  }

  /** Every valid item of every fetched page has its session in `entries`. */
  ghost predicate PagesHeld(catalog: seq<Page>, pages: nat, entries: map<SessionId, Entry>)
    requires pages <= |catalog|
  {
    forall k {:trigger Holds(catalog[k].items, entries)} | 0 <= k < pages :: Holds(catalog[k].items, entries)
  }

  lemma PageAdded(catalog: seq<Page>, pages: nat, entries: map<SessionId, Entry>, taken: map<SessionId, Entry>)
    requires pages < |catalog| && Extends(entries, taken, catalog[pages].items) && FromPages(catalog, pages, entries)
    ensures FromPages(catalog, pages + 1, taken)
    ensures PagesHeld(catalog, pages, entries) && Holds(catalog[pages].items, taken)
            ==> PagesHeld(catalog, pages + 1, taken)
  {
    if PagesHeld(catalog, pages, entries) && Holds(catalog[pages].items, taken) {
      forall k | 0 <= k < pages + 1 ensures Holds(catalog[k].items, taken) {
        assert k < pages ==> Holds(catalog[k].items, entries);
      }
    }
    forall id | id in taken ensures taken[id].valid && exists k :: 0 <= k < pages + 1 && taken[id] in catalog[k].items {
      if id in entries {
        var k :| 0 <= k < pages && entries[id] in catalog[k].items;
        assert taken[id] in catalog[k].items;
      } else {
        assert taken[id] in catalog[pages].items;
      }
    }
  }
}
