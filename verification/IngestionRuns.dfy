/** Runs of the ingestion service, one after another from an empty store: to each session they are a life
    of its checkpoint, and so its recovery attempts carry one key. */
module IngestionRuns {
  import opened Wrappers
  import opened IngestionCheckpoints
  import opened IngestionService

  /** A run makes a recovery attempt for the session. */
  predicate Attempts(run: Run, id: SessionId) {
    run.recovery && id in run.recoveries && id in run.tried && Recoverable(run.tried[id], run.entries, run.ports)
  }

  /** What happens to a session in the three parts of a run. */
  function Observation(run: Run, id: SessionId): Option<Event> {
    if id in run.entries then Some(Observed(run.entries[id], run.at)) else None
  }

  function CaptureOf(run: Run, id: SessionId): Option<Event> {
    if id in run.captures then Some(CaptureAttempt(OutcomeOf(run.entries, run.ports, id), run.at)) else None
  }

  function RecoveryOf(run: Run, id: SessionId): Option<Event> {
    if Attempts(run, id) then Some(RecoveryAttempt(run.ports.recover(id), run.at)) else None
  }

  function Add(life: seq<Event>, e: Option<Event>): seq<Event> {
    if e.Some? then life + [e.value] else life
  }

  /** A life with what a run does to the session before it recovers anything. */
  function BeforeRecovery(life: seq<Event>, run: Run, id: SessionId): seq<Event> {
    Add(Add(life, Observation(run, id)), CaptureOf(run, id))
  }

  /** What the first `n` runs do to a session. */
  function LifeOf(runs: seq<Run>, id: SessionId, n: nat): seq<Event>
    requires n <= |runs|
  {
    if n == 0 then [] else Add(BeforeRecovery(LifeOf(runs, id, n - 1), runs[n - 1], id), RecoveryOf(runs[n - 1], id))
  }

  ghost predicate Serial(states: seq<map<SessionId, Checkpoint>>, runs: seq<Run>, config: Configuration) {
    && |states| == |runs| + 1 && states[0] == map[]
    && (forall k, next | 0 <= k < |runs| && next == k + 1 :: Ran(states[k], states[next], runs[k], config))
  }

  ghost predicate Lives(before: Option<Checkpoint>, e: Option<Event>, after: Option<Checkpoint>,
                        config: Configuration) {
    if e.None? then after == before else Happens(before, e.value) && after == After(before, e.value, config)
  }

  /** One session in one run: it is observed if it was scanned, and an attempt is made only when it is due. */
  ghost predicate Lived(before: Option<Checkpoint>, after: Option<Checkpoint>, run: Run, id: SessionId,
                        config: Configuration) {
    var seen, tried := Lookup(run.seen, id), Lookup(run.tried, id);
    && Lives(before, Observation(run, id), seen, config)
    && Lives(seen, CaptureOf(run, id), tried, config)
    && Lives(tried, RecoveryOf(run, id), after, config)
  }

  lemma ScanIsLived(before: map<SessionId, Checkpoint>, run: Run, id: SessionId, config: Configuration)
    requires Scanned(before, run.seen, run.entries, run.at, config)
    ensures Lives(Lookup(before, id), Observation(run, id), Lookup(run.seen, id), config)
  {
    assert id in run.seen <==> id in before || id in run.entries;
    if id in run.entries {
      assert run.seen[id] == Seen(before, run.entries[id], run.at, config);
    }
  }

  lemma CaptureIsLived(run: Run, id: SessionId, config: Configuration)
    requires CapturePass(run.seen, run.tried, run.captures, run.entries, run.ports, run.at, config)
    ensures Lives(Lookup(run.seen, id), CaptureOf(run, id), Lookup(run.tried, id), config)
  {
    assert id in run.seen.Keys <==> id in run.tried.Keys;
    if id in run.captures {
      assert id in DueSet(run.seen, run.at, false);
    }
  }

  lemma RecoveryIsLived(after: map<SessionId, Checkpoint>, run: Run, id: SessionId, config: Configuration)
    requires if run.recovery then RecoveryPass(run.tried, after, run.recoveries, run.entries, run.ports, run.at, config)
             else after == run.tried
    ensures Lives(Lookup(run.tried, id), RecoveryOf(run, id), Lookup(after, id), config)
  {
    assert id in run.tried.Keys <==> id in after.Keys;
    if Attempts(run, id) {
      assert id in DueSet(run.tried, run.at, true);
    }
  }

  lemma RunIsLived(before: map<SessionId, Checkpoint>, after: map<SessionId, Checkpoint>, run: Run, id: SessionId,
                   config: Configuration)
    requires Ran(before, after, run, config)
    ensures Lived(Lookup(before, id), Lookup(after, id), run, id, config)
  {
    ScanIsLived(before, run, id, config);
    CaptureIsLived(run, id, config);
    RecoveryIsLived(after, run, id, config);
  }

  lemma LivesOn(life: seq<Event>, e: Option<Event>, after: Option<Checkpoint>, config: Configuration)
    requires Lives(Life(life, config), e, after, config)
    ensures Life(Add(life, e), config) == after
  {
    if e.Some? {
      assert Add(life, e)[..|life|] == life;
    }
  }

  /** What one session lives through in a run is the next part of its life. */
  lemma LivedIsALife(before: Option<Checkpoint>, after: Option<Checkpoint>, run: Run, id: SessionId,
                     life: seq<Event>, config: Configuration)
    requires Lived(before, after, run, id, config) && before == Life(life, config)
    ensures Lookup(run.tried, id) == Life(BeforeRecovery(life, run, id), config)
    ensures after == Life(Add(BeforeRecovery(life, run, id), RecoveryOf(run, id)), config)
  {
    LivesOn(life, Observation(run, id), Lookup(run.seen, id), config);
    LivesOn(Add(life, Observation(run, id)), CaptureOf(run, id), Lookup(run.tried, id), config);
    LivesOn(BeforeRecovery(life, run, id), RecoveryOf(run, id), after, config);
  }

  /** One session in each of the runs. */
  ghost predicate LivedThrough(states: seq<map<SessionId, Checkpoint>>, runs: seq<Run>, id: SessionId,
                               config: Configuration) {
    && |states| == |runs| + 1 && Lookup(states[0], id).None?
    && (forall k, next | 0 <= k < |runs| && next == k + 1 ::
          Lived(Lookup(states[k], id), Lookup(states[next], id), runs[k], id, config))
  }

  lemma SerialIsLivedThrough(states: seq<map<SessionId, Checkpoint>>, runs: seq<Run>, id: SessionId,
                             config: Configuration)
    requires Serial(states, runs, config)
    ensures LivedThrough(states, runs, id, config)
  {
    forall k, next | 0 <= k < |runs| && next == k + 1
      ensures Lived(Lookup(states[k], id), Lookup(states[next], id), runs[k], id, config)
    {
      RunIsLived(states[k], states[next], runs[k], id, config);
    }
  }

  lemma {:induction false} LivesSoFar(states: seq<map<SessionId, Checkpoint>>, runs: seq<Run>, id: SessionId, n: nat,
                                      config: Configuration)
    requires LivedThrough(states, runs, id, config) && n <= |runs|
    ensures Lookup(states[n], id) == Life(LifeOf(runs, id, n), config)
  {
    if n > 0 {
      var before, after := Lookup(states[n - 1], id), Lookup(states[n], id);
      LivesSoFar(states, runs, id, n - 1, config);
      assert Lived(before, after, runs[n - 1], id, config);
      LivedIsALife(before, after, runs[n - 1], id, LifeOf(runs, id, n - 1), config);
    }
  }

  /** Whatever the runs, the stored checkpoint of a session is what its life says. */
  lemma RunsAreLives(states: seq<map<SessionId, Checkpoint>>, runs: seq<Run>, id: SessionId, config: Configuration)
    requires Serial(states, runs, config)
    ensures Lookup(states[|runs|], id) == Life(LifeOf(runs, id, |runs|), config)
  {
    SerialIsLivedThrough(states, runs, id, config);
    LivesSoFar(states, runs, id, |runs|, config);
  }

  /** The life of a session up to the recoveries of run `n`. */
  function UpToRecovery(runs: seq<Run>, id: SessionId, n: nat): seq<Event>
    requires n < |runs|
  {
    BeforeRecovery(LifeOf(runs, id, n), runs[n], id)
  }

  lemma RecoveryIsAnEvent(states: seq<map<SessionId, Checkpoint>>, runs: seq<Run>, id: SessionId, n: nat,
                          config: Configuration)
    requires LivedThrough(states, runs, id, config) && n < |runs| && Attempts(runs[n], id)
    ensures var e := RecoveryAttempt(runs[n].ports.recover(id), runs[n].at);
            && LifeOf(runs, id, n + 1) == UpToRecovery(runs, id, n) + [e]
            && Life(UpToRecovery(runs, id, n), config) == Some(runs[n].tried[id])
            && Happens(Some(runs[n].tried[id]), e)
  {
    LivesSoFar(states, runs, id, n, config);
    LivedIsALife(Lookup(states[n], id), Lookup(states[n + 1], id), runs[n], id, LifeOf(runs, id, n), config);
    assert Lived(Lookup(states[n], id), Lookup(states[n + 1], id), runs[n], id, config);
  }

  /** From position `p` on, no recovery completes. */
  ghost predicate NoneCompletes(life: seq<Event>, p: nat) {
    forall k | p <= k < |life| && life[k].RecoveryAttempt? :: !life[k].ending.Rebased?
  }

  lemma AddCompletesNone(life: seq<Event>, p: nat, e: Option<Event>)
    requires NoneCompletes(life, p) && (e.Some? && e.value.RecoveryAttempt? ==> !e.value.ending.Rebased?)
    ensures NoneCompletes(Add(life, e), p) && life <= Add(life, e)
  {
  }

  lemma BeforeRecoveryCompletesNone(life: seq<Event>, p: nat, run: Run, id: SessionId)
    requires NoneCompletes(life, p)
    ensures NoneCompletes(BeforeRecovery(life, run, id), p) && life <= BeforeRecovery(life, run, id)
  {
    AddCompletesNone(life, p, Observation(run, id));
    AddCompletesNone(Add(life, Observation(run, id)), p, CaptureOf(run, id));
  }

  /** Without a completed recovery in the runs from `m` to `n`, the life after run `m` holds none. */
  lemma {:induction false} NoneCompleted(runs: seq<Run>, id: SessionId, m: nat, n: nat)
    requires m <= n <= |runs|
    requires forall k | m <= k < n && Attempts(runs[k], id) :: !runs[k].ports.recover(id).Rebased?
    ensures LifeOf(runs, id, m) <= LifeOf(runs, id, n) && NoneCompletes(LifeOf(runs, id, n), |LifeOf(runs, id, m)|)
    decreases n
  {
    if m < n {
      var p := |LifeOf(runs, id, m)|;
      NoneCompleted(runs, id, m, n - 1);
      BeforeRecoveryCompletesNone(LifeOf(runs, id, n - 1), p, runs[n - 1], id);
      AddCompletesNone(UpToRecovery(runs, id, n - 1), p, RecoveryOf(runs[n - 1], id));
    }
  }

  /** Two attempts in one life, and none completed from the first one up to the second. */
  lemma KeysAgree(life: seq<Event>, p: nat, q: nat, config: Configuration)
    requires p < q < |life| && Recovers(life, p, config) && Recovers(life, q, config)
    requires NoneCompletes(life[..q], p)
    ensures KeyAt(life, p, config) == KeyAt(life, q, config)
  {
    forall k | p <= k < q && Recovers(life, k, config) ensures !life[k].ending.Rebased? {
      assert life[..q][k] == life[k];
    }
    RecoveryKeyIsStable(life, p, q, config);
  }

  lemma FirstOfTwo(life: seq<Event>, longer: seq<Event>, p: nat, config: Configuration)
    requires life <= longer && p < |life| && Recovers(life, p, config)
    ensures Recovers(longer, p, config) && KeyAt(longer, p, config) == KeyAt(life, p, config)
  {
    assert longer[..p] == life[..p];
  }

  lemma AttemptIsLast(life: seq<Event>, e: Event, c: Checkpoint, config: Configuration)
    requires e.RecoveryAttempt? && Life(life, config) == Some(c) && Happens(Some(c), e)
    ensures Recovers(life + [e], |life|, config) && KeyAt(life + [e], |life|, config) == RecoveryKey(c)
  {
    assert (life + [e])[..|life|] == life;
  }

  /** Over any runs, the recovery attempts of a session carry the same key until one of them completes. */
  lemma RecoveryAttemptsShareTheirKey(states: seq<map<SessionId, Checkpoint>>, runs: seq<Run>, id: SessionId, m: nat,
                                      n: nat, config: Configuration)
    requires Serial(states, runs, config) && m <= n < |runs| && Attempts(runs[m], id) && Attempts(runs[n], id)
    requires forall k | m <= k < n && Attempts(runs[k], id) :: !runs[k].ports.recover(id).Rebased?
    ensures RecoveryKey(runs[m].tried[id]) == RecoveryKey(runs[n].tried[id])
  {
    if m < n {
      SerialIsLivedThrough(states, runs, id, config);
      AttemptsAgree(states, runs, id, m, n, config);
    }
  }

  lemma AttemptsAgree(states: seq<map<SessionId, Checkpoint>>, runs: seq<Run>, id: SessionId, m: nat, n: nat,
                      config: Configuration)
    requires LivedThrough(states, runs, id, config) && m < n < |runs| && Attempts(runs[m], id) && Attempts(runs[n], id)
    requires forall k | m <= k < n && Attempts(runs[k], id) :: !runs[k].ports.recover(id).Rebased?
    ensures RecoveryKey(runs[m].tried[id]) == RecoveryKey(runs[n].tried[id])
  {
    RecoveryIsAnEvent(states, runs, id, m, config);
    RecoveryIsAnEvent(states, runs, id, n, config);
    NoneCompleted(runs, id, m + 1, n);
    BeforeRecoveryCompletesNone(LifeOf(runs, id, n), |LifeOf(runs, id, m + 1)|, runs[n], id);
    var first, second := RecoveryAttempt(runs[m].ports.recover(id), runs[m].at),
        RecoveryAttempt(runs[n].ports.recover(id), runs[n].at);
    AttemptsInOneLife(UpToRecovery(runs, id, m), first, runs[m].tried[id], UpToRecovery(runs, id, n), second,
                      runs[n].tried[id], config);
  }

  lemma AttemptsInOneLife(life: seq<Event>, first: Event, c: Checkpoint, longer: seq<Event>, second: Event,
                          d: Checkpoint, config: Configuration)
    requires first.RecoveryAttempt? && Life(life, config) == Some(c) && Happens(Some(c), first)
    requires second.RecoveryAttempt? && Life(longer, config) == Some(d) && Happens(Some(d), second)
    requires life + [first] <= longer && !first.ending.Rebased? && NoneCompletes(longer, |life| + 1)
    ensures RecoveryKey(c) == RecoveryKey(d)
  {
    var whole := longer + [second];
    AttemptIsLast(life, first, c, config);
    AttemptIsLast(longer, second, d, config);
    FirstOfTwo(life + [first], whole, |life|, config);
    assert longer[|life|] == first;
    assert whole[..|longer|] == longer;
    KeysAgree(whole, |life|, |longer|, config);
  }
}
