/**
 * The monitor loop: each cycle it takes a snapshot of the media sessions,
 * classifies it, makes the requests the policy calls for, and then carries
 * the browser and Spotify states into the next cycle. The stop signal is
 * read at the top of every cycle.
 */
module Monitor {
  import opened Wrappers
  import opened Classifier
  import opened Policy
  import opened Executor

  /**
   * What the outside world shows one cycle: whether the stop signal is set
   * when the cycle is about to start, and the sessions the platform lists.
   */
  datatype Tick = Tick(stopSet: bool, sessions: seq<Session>)

  /**
   * What one cycle observed and which requests it made, in order. Every
   * request of a cycle goes to the Spotify session it picked (or to none).
   */
  datatype CycleRecord = CycleRecord(
    browserPlaying: bool,
    spotifyPlaying: Option<bool>,
    target: Option<Session>,
    actions: seq<Action>)

  /** One cycle over a snapshot, given the browser state carried from the previous cycle. */
  function Cycle(last: Option<bool>, ss: seq<Session>): CycleRecord
  {
    var browserPlaying := AnyBrowserVideoPlaying(ss);
    var spotifySession := PickSpotifySession(ss);
    var spotifyPlaying := GetSpotifyPlaying(spotifySession);
    CycleRecord(browserPlaying, spotifyPlaying, spotifySession, CycleActions(last, browserPlaying, spotifyPlaying))
  }

  /** A way of doing one cycle: from the carried browser state and a snapshot to its record. */
  type Step = (Option<bool>, seq<Session>) -> CycleRecord

  /** The browser state a cycle records is the one it classified from its snapshot. */
  lemma CycleBrowserPlaying(last: Option<bool>, ss: seq<Session>)
    ensures Cycle(last, ss).browserPlaying == AnyBrowserVideoPlaying(ss)
  {
  }

  /** A cycle that carries in its own browser state is steady: see `SteadyCycle`. */
  lemma SteadyCycleRecord(last: Option<bool>, ss: seq<Session>)
    requires last == Some(Cycle(last, ss).browserPlaying)
    ensures Cycle(last, ss).actions ==
              if Cycle(last, ss).spotifyPlaying == Some(Cycle(last, ss).browserPlaying) then [Target(Cycle(last, ss).browserPlaying)] else []
  {
    var r := Cycle(last, ss);
    SteadyCycle(r.browserPlaying, r.spotifyPlaying);
  }

  /** A cycle that carries in no or another browser state is an edge: see `EdgeCycle`. */
  lemma EdgeCycleRecord(last: Option<bool>, ss: seq<Session>)
    requires last != Some(Cycle(last, ss).browserPlaying)
    ensures Cycle(last, ss).actions ==
              var b, sp := Cycle(last, ss).browserPlaying, Cycle(last, ss).spotifyPlaying;
              if sp == Some(!b) then [] else if sp.None? then [Target(b)] else [Target(b), Target(b)]
  {
    var r := Cycle(last, ss);
    EdgeCycle(last, r.browserPlaying, r.spotifyPlaying);
  }

  /**
   * Every cycle requests at most two actions, all towards the browser's
   * state, each on the Spotify session picked from its snapshot, and a
   * Spotify known to conflict with the browser is always acted upon.
   */
  lemma CycleRequests(last: Option<bool>, ss: seq<Session>)
    ensures Cycle(last, ss).target == PickSpotifySession(ss)
    ensures |Cycle(last, ss).actions| <= 2
    ensures forall a :: a in Cycle(last, ss).actions ==> a == Target(Cycle(last, ss).browserPlaying)
    ensures Cycle(last, ss).spotifyPlaying == Some(Cycle(last, ss).browserPlaying) ==>
              Target(Cycle(last, ss).browserPlaying) in Cycle(last, ss).actions
  {
    var r := Cycle(last, ss);
    AtMostTwoActions(last, r.browserPlaying, r.spotifyPlaying);
    CycleDirection(last, r.browserPlaying, r.spotifyPlaying);
    if r.spotifyPlaying == Some(r.browserPlaying) {
      KnownConflictIsAlwaysActedOn(last, r.browserPlaying);
    }
  }

  /**
   * The cycles the loop runs from `ticks` on, doing each with `step` and
   * carrying in browser state `last`: none once the stop signal is seen at
   * the top of a cycle (or the ticks run out), otherwise this cycle and then
   * the rest with this cycle's browser state carried over.
   */
  function RunWith(step: Step, last: Option<bool>, ticks: seq<Tick>): seq<CycleRecord>
    decreases |ticks|
  {
    if ticks == [] || ticks[0].stopSet then []
    else
      var record := step(last, ticks[0].sessions);
      [record] + RunWith(step, Some(record.browserPlaying), ticks[1..])
  }

  /** What `monitor_loop` does: cycles as `Cycle` says, starting with the browser state unknown. */
  function Run(ticks: seq<Tick>): seq<CycleRecord>
  {
    RunWith(Cycle, None, ticks)
  }

  /** The browser state carried into cycle `k` of a run. */
  function CarriedWith(step: Step, last: Option<bool>, ticks: seq<Tick>, k: nat): Option<bool>
    requires k <= |RunWith(step, last, ticks)|
  {
    if k == 0 then last else Some(RunWith(step, last, ticks)[k - 1].browserPlaying)
  }

  /**
   * The loop stops exactly at the first tick whose stop signal is set: every
   * cycle run saw the signal clear, and the one after the last did not run
   * because the signal was set (or no tick was left).
   */
  lemma {:induction false} RunStopsAtSignal(step: Step, last: Option<bool>, ticks: seq<Tick>)
    ensures |RunWith(step, last, ticks)| <= |ticks|
    ensures forall k :: 0 <= k < |RunWith(step, last, ticks)| ==> !ticks[k].stopSet
    ensures |RunWith(step, last, ticks)| < |ticks| ==> ticks[|RunWith(step, last, ticks)|].stopSet
    decreases |ticks|
  {
    if ticks != [] && !ticks[0].stopSet {
      var record := step(last, ticks[0].sessions);
      RunStopsAtSignal(step, Some(record.browserPlaying), ticks[1..]);
      forall k | 0 < k < |RunWith(step, last, ticks)| ensures !ticks[k].stopSet {
        assert ticks[k] == ticks[1..][k - 1];
      }
    }
  }

  /** Cycle `k` of a run is the step applied to the state carried into it and to tick `k`'s snapshot. */
  lemma {:induction false} RunCycleAt(step: Step, last: Option<bool>, ticks: seq<Tick>, k: nat)
    requires k < |RunWith(step, last, ticks)|
    ensures k < |ticks|
    ensures RunWith(step, last, ticks)[k] == step(CarriedWith(step, last, ticks, k), ticks[k].sessions)
    decreases k
  {
    RunStopsAtSignal(step, last, ticks);
    if k > 0 {
      var record := step(last, ticks[0].sessions);
      RunCycleAt(step, Some(record.browserPlaying), ticks[1..], k - 1);
      assert ticks[1..][k - 1] == ticks[k];
    }
  }

  /**
   * For a step that records the browser state it classified, cycle `k`
   * carries in the browser state of snapshot `k - 1`.
   */
  lemma RunCycleAtClassified(step: Step, last: Option<bool>, ticks: seq<Tick>, k: nat)
    requires forall l, ss :: step(l, ss).browserPlaying == AnyBrowserVideoPlaying(ss)
    requires k < |RunWith(step, last, ticks)|
    ensures k < |ticks| && !ticks[k].stopSet
    ensures RunWith(step, last, ticks)[k] ==
              step(if k == 0 then last else Some(AnyBrowserVideoPlaying(ticks[k - 1].sessions)), ticks[k].sessions)
  {
    RunStopsAtSignal(step, last, ticks);
    RunCycleAt(step, last, ticks, k);
    if k > 0 {
      RunCycleAt(step, last, ticks, k - 1);
    }
  }

  /**
   * In `monitor_loop`, cycle `k` does what `Cycle` says from the browser
   * state of the snapshot before it (unknown for the first cycle).
   */
  lemma MonitorCycleAt(ticks: seq<Tick>, k: nat)
    requires k < |Run(ticks)|
    ensures k < |ticks| && !ticks[k].stopSet
    ensures Run(ticks)[k] ==
              Cycle(if k == 0 then None else Some(AnyBrowserVideoPlaying(ticks[k - 1].sessions)), ticks[k].sessions)
  {
    forall l, ss ensures Cycle(l, ss).browserPlaying == AnyBrowserVideoPlaying(ss) {
      CycleBrowserPlaying(l, ss);
    }
    RunCycleAtClassified(Cycle, None, ticks, k);
  }

  /**
   * A cycle whose browser state is the same as the previous cycle's requests
   * something only when Spotify's state is known and conflicts with the
   * browser's, and then exactly one action; an unknown or already-aligned
   * Spotify gets nothing.
   */
  lemma RunSteadyCycle(ticks: seq<Tick>, k: nat)
    requires 0 < k < |Run(ticks)|
    requires Run(ticks)[k - 1].browserPlaying == Run(ticks)[k].browserPlaying
    ensures Run(ticks)[k].actions ==
              if Run(ticks)[k].spotifyPlaying == Some(Run(ticks)[k].browserPlaying) then [Target(Run(ticks)[k].browserPlaying)] else []
  {
    RunCycleAt(Cycle, None, ticks, k);
    SteadyCycleRecord(CarriedWith(Cycle, None, ticks, k), ticks[k].sessions);
  }

  /**
   * The first cycle, and a cycle whose browser state differs from the
   * previous cycle's, requests nothing when Spotify is already aligned, one
   * action when Spotify's state is unknown and two when it is known to
   * conflict.
   */
  lemma RunEdgeCycle(ticks: seq<Tick>, k: nat)
    requires k < |Run(ticks)|
    requires k == 0 || Run(ticks)[k - 1].browserPlaying != Run(ticks)[k].browserPlaying
    ensures Run(ticks)[k].actions ==
              var b, sp := Run(ticks)[k].browserPlaying, Run(ticks)[k].spotifyPlaying;
              if sp == Some(!b) then [] else if sp.None? then [Target(b)] else [Target(b), Target(b)]
  {
    RunCycleAt(Cycle, None, ticks, k);
    EdgeCycleRecord(CarriedWith(Cycle, None, ticks, k), ticks[k].sessions);
  }

  /**
   * Every cycle of the run requests at most two actions, all towards the
   * browser's state, each of them on the Spotify session picked from that
   * cycle's snapshot, and a Spotify known to conflict with the browser is
   * always acted upon.
   */
  lemma RunCycleRequests(ticks: seq<Tick>, k: nat)
    requires k < |Run(ticks)|
    ensures k < |ticks| && Run(ticks)[k].target == PickSpotifySession(ticks[k].sessions)
    ensures |Run(ticks)[k].actions| <= 2
    ensures forall a :: a in Run(ticks)[k].actions ==> a == Target(Run(ticks)[k].browserPlaying)
    ensures Run(ticks)[k].spotifyPlaying == Some(Run(ticks)[k].browserPlaying) ==>
              Target(Run(ticks)[k].browserPlaying) in Run(ticks)[k].actions
  {
    RunCycleAt(Cycle, None, ticks, k);
    CycleRequests(CarriedWith(Cycle, None, ticks, k), ticks[k].sessions);
  }

  /** One step of a run, spelled out. */
  lemma RunUnfold(step: Step, last: Option<bool>, ticks: seq<Tick>)
    ensures ticks == [] || ticks[0].stopSet ==> RunWith(step, last, ticks) == []
    ensures ticks != [] && !ticks[0].stopSet ==>
              RunWith(step, last, ticks) ==
                [step(last, ticks[0].sessions)] + RunWith(step, Some(step(last, ticks[0].sessions).browserPlaying), ticks[1..])
  {
  }

  /** Doing the first pending cycle moves it from the cycles still to run to the cycles done. */
  lemma RunAdvance(step: Step, ticks: seq<Tick>, pending: seq<Tick>, done: seq<CycleRecord>, last: Option<bool>, record: CycleRecord)
    requires pending != [] && !pending[0].stopSet
    requires done + RunWith(step, last, pending) == RunWith(step, None, ticks)
    requires record == step(last, pending[0].sessions)
    ensures (done + [record]) + RunWith(step, Some(record.browserPlaying), pending[1..]) == RunWith(step, None, ticks)
  {
    RunUnfold(step, last, pending);
  }

  /** Once the stop signal is seen (or the ticks run out), the cycles done are the whole run. */
  lemma RunFinish(step: Step, ticks: seq<Tick>, pending: seq<Tick>, done: seq<CycleRecord>, last: Option<bool>)
    requires pending == [] || pending[0].stopSet
    requires done + RunWith(step, last, pending) == RunWith(step, None, ticks)
    ensures done == RunWith(step, None, ticks)
  {
    RunUnfold(step, last, pending);
  }

  /**
   * Makes one request of the Spotify session (or of its absence) and adds it,
   * with the platform calls it took, to those made so far this cycle.
   */
  method Issue(a: Action, target: Option<Session>, actions: seq<Action>, calls: seq<nat>)
    returns (actions': seq<Action>, calls': seq<nat>)
    requires |calls| == |actions| && AllCallsFit(target, calls)
    ensures actions' == actions + [a]
    ensures |calls'| == |actions'| && AllCallsFit(target, calls')
  {
    var ok, c := TrySpotify(a, target);
    actions', calls' := actions + [a], calls + [c];
  }

  /**
   * The body of one `monitor_loop` cycle: classify the snapshot, make the
   * change-branch request and then the reconcile request, as `Cycle` says;
   * `calls` counts the platform invocations each request took.
   */
  method MonitorCycle(lastBrowser: Option<bool>, sessions: seq<Session>) returns (record: CycleRecord, calls: seq<nat>)
    ensures record == Cycle(lastBrowser, sessions)
    ensures |calls| == |record.actions| && AllCallsFit(record.target, calls)
  {
    var browserPlaying := AnyBrowserVideoPlaying(sessions);
    var spotifySession := PickSpotifySession(sessions);
    var spotifyPlaying := GetSpotifyPlaying(spotifySession);
    var actions: seq<Action> := [];
    calls := [];

    if lastBrowser.None? || browserPlaying != lastBrowser.value {
      if browserPlaying {
        if spotifyPlaying != Some(false) {
          actions, calls := Issue(Pause, spotifySession, actions, calls);
        }
      } else {
        if spotifyPlaying != Some(true) {
          actions, calls := Issue(Play, spotifySession, actions, calls);
        }
      }
    }
    assert actions == EdgeActions(lastBrowser, browserPlaying, spotifyPlaying);

    if browserPlaying && spotifyPlaying == Some(true) {
      actions, calls := Issue(Pause, spotifySession, actions, calls);
    } else if !browserPlaying && spotifyPlaying == Some(false) {
      actions, calls := Issue(Play, spotifySession, actions, calls);
    }

    record := CycleRecord(browserPlaying, spotifyPlaying, spotifySession, actions);
  }

  /** `calls[k]` holds the platform-call counts of the requests of cycle `k`. */
  predicate CallsLog(log: seq<CycleRecord>, calls: seq<seq<nat>>)
  {
    |calls| == |log| && forall k :: 0 <= k < |log| ==> |calls[k]| == |log[k].actions| && AllCallsFit(log[k].target, calls[k])
  }

  /** Logging one more cycle with counts that fit its requests keeps the call log in line. */
  lemma CallsLogAppend(log: seq<CycleRecord>, calls: seq<seq<nat>>, record: CycleRecord, c: seq<nat>)
    requires CallsLog(log, calls) && |c| == |record.actions| && AllCallsFit(record.target, c)
    ensures CallsLog(log + [record], calls + [c])
  {
  }

  /**
   * One iteration of `monitor_loop` on the first pending tick: the cycle is
   * run, so that it is the first of the cycles still to run, and it is
   * logged with its platform-call counts.
   */
  method LoopIteration(ghost ticks: seq<Tick>, pending: seq<Tick>, log: seq<CycleRecord>, calls: seq<seq<nat>>, lastBrowser: Option<bool>)
    returns (record: CycleRecord, cycleCalls: seq<nat>)
    requires pending != [] && !pending[0].stopSet
    requires log + RunWith(Cycle, lastBrowser, pending) == Run(ticks)
    requires CallsLog(log, calls)
    ensures (log + [record]) + RunWith(Cycle, Some(record.browserPlaying), pending[1..]) == Run(ticks)
    ensures CallsLog(log + [record], calls + [cycleCalls])
  {
    record, cycleCalls := MonitorCycle(lastBrowser, pending[0].sessions);
    RunAdvance(Cycle, ticks, pending, log, lastBrowser, record);
    CallsLogAppend(log, calls, record, cycleCalls);
  }

  /** A cycle without a Spotify session makes no platform call, whatever it requests. */
  lemma NoSessionNoCalls(log: seq<CycleRecord>, calls: seq<seq<nat>>, k: nat)
    requires CallsLog(log, calls) && k < |log| && log[k].target.None?
    ensures forall i :: 0 <= i < |calls[k]| ==> calls[k][i] == 0
  {
  }

  /**
   * `monitor_loop` over the ticks the environment supplies, starting with
   * both carried states unknown. It runs the cycles `Run` describes, `calls`
   * holds each cycle's platform-call counts, and at the end the carried
   * states are those of the last cycle run.
   */
  method MonitorLoop(ticks: seq<Tick>)
    returns (log: seq<CycleRecord>, calls: seq<seq<nat>>, lastBrowser: Option<bool>, lastSpotify: Option<bool>)
    ensures log == Run(ticks)
    ensures CallsLog(log, calls)
    ensures lastBrowser == if log == [] then None else Some(log[|log| - 1].browserPlaying)
    ensures lastSpotify == if log == [] then None else log[|log| - 1].spotifyPlaying
  {
    log, calls := [], [];
    lastBrowser, lastSpotify := None, None;
    var pending := ticks;
    while pending != [] && !pending[0].stopSet
      invariant log + RunWith(Cycle, lastBrowser, pending) == Run(ticks)
      invariant CallsLog(log, calls)
      invariant lastBrowser == if log == [] then None else Some(log[|log| - 1].browserPlaying)
      invariant lastSpotify == if log == [] then None else log[|log| - 1].spotifyPlaying
      decreases |pending|
    {
      var record, cycleCalls := LoopIteration(ticks, pending, log, calls, lastBrowser);
      log, calls := log + [record], calls + [cycleCalls];
      lastBrowser, lastSpotify := Some(record.browserPlaying), record.spotifyPlaying;
      pending := pending[1..];
    }
    RunFinish(Cycle, ticks, pending, log, lastBrowser);
  }
}
