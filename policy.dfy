/**
 * The decision one monitor cycle takes, from the browser state carried over
 * from the previous cycle and the freshly classified browser and Spotify
 * states. A cycle can request up to two actions: one from the branch that
 * reacts to a change of the browser state, one from the branch that
 * reconciles Spotify with the browser on every cycle.
 */
module Policy {
  import opened Wrappers

  datatype Action = Pause | Play

  /** The action that brings Spotify in line with the browser: pause it while browser media plays. */
  function Target(browserPlaying: bool): Action
  {
    if browserPlaying then Pause else Play
  }

  /** The change branch runs on the first cycle and whenever the browser state differs from the last one. */
  predicate IsEdge(last: Option<bool>, browserPlaying: bool)
  {
    last.None? || browserPlaying != last.value
  }

  /**
   * The change branch: pause unless Spotify is known paused, play unless it
   * is known playing; an unknown Spotify state is acted upon.
   */
  function EdgeActions(last: Option<bool>, browserPlaying: bool, spotifyPlaying: Option<bool>): (r: seq<Action>)
    ensures !IsEdge(last, browserPlaying) ==> r == []
    ensures IsEdge(last, browserPlaying) ==> (r == [] <==> spotifyPlaying == Some(!browserPlaying))
    ensures forall a :: a in r ==> a == Target(browserPlaying)
  {
    if IsEdge(last, browserPlaying) then
      if browserPlaying then
        (if spotifyPlaying != Some(false) then [Pause] else [])
      else
        (if spotifyPlaying != Some(true) then [Play] else [])
    else []
  }

  /**
   * The reconcile branch: acts only when Spotify's state is known and
   * conflicts with the browser's. An unknown state is falsy on both tests.
   */
  function ReconcileActions(browserPlaying: bool, spotifyPlaying: Option<bool>): (r: seq<Action>)
    ensures r != [] <==> spotifyPlaying == Some(browserPlaying)
    ensures forall a :: a in r ==> a == Target(browserPlaying)
  {
    if browserPlaying && spotifyPlaying == Some(true) then [Pause]
    else if !browserPlaying && spotifyPlaying == Some(false) then [Play]
    else []
  }

  /** All actions of one cycle, in the order they are requested. */
  function CycleActions(last: Option<bool>, browserPlaying: bool, spotifyPlaying: Option<bool>): seq<Action>
  {
    EdgeActions(last, browserPlaying, spotifyPlaying) + ReconcileActions(browserPlaying, spotifyPlaying)
  }

  /**
   * Every action of a cycle points the same way: pause while browser media
   * plays, play otherwise. A known-paused Spotify is never paused and a
   * known-playing Spotify is never played.
   */
  lemma CycleDirection(last: Option<bool>, b: bool, sp: Option<bool>)
    ensures forall a :: a in CycleActions(last, b, sp) ==> a == Target(b)
    ensures sp == Some(false) ==> Pause !in CycleActions(last, b, sp)
    ensures sp == Some(true) ==> Play !in CycleActions(last, b, sp)
  {
  }

  /**
   * On a cycle where the browser state did not change, an action is requested
   * exactly when Spotify's state is known and conflicts with the browser's;
   * an unknown or already-aligned Spotify gets nothing.
   */
  lemma SteadyCycle(b: bool, sp: Option<bool>)
    ensures CycleActions(Some(b), b, sp) == if sp == Some(b) then [Target(b)] else []
  {
  }

  /**
   * On the first cycle or a change of the browser state: nothing when Spotify
   * is already aligned, one request when its state is unknown, and two (one
   * per branch) when it is known to conflict.
   */
  lemma EdgeCycle(last: Option<bool>, b: bool, sp: Option<bool>)
    requires IsEdge(last, b)
    ensures CycleActions(last, b, sp) ==
              if sp == Some(!b) then []
              else if sp.None? then [Target(b)]
              else [Target(b), Target(b)]
  {
    if sp.None? {
      assert ReconcileActions(b, sp) == [];
    } else if sp == Some(b) {
      assert EdgeActions(last, b, sp) == [Target(b)];
    } else {
      assert sp.value == !b;
      assert sp == Some(!b);
      assert EdgeActions(last, b, sp) == [] && ReconcileActions(b, sp) == [];
    }
  }

  /** A cycle requests at most two actions, and two only on an edge with a known conflict. */
  lemma AtMostTwoActions(last: Option<bool>, b: bool, sp: Option<bool>)
    ensures |CycleActions(last, b, sp)| <= 2
    ensures |CycleActions(last, b, sp)| == 2 <==> IsEdge(last, b) && sp == Some(b)
  {
  }

  /**
   * Enforcement is level-triggered for known conflicts: whatever was carried
   * over, a Spotify known to disagree with the browser is acted upon.
   */
  lemma KnownConflictIsAlwaysActedOn(last: Option<bool>, b: bool)
    ensures Target(b) in CycleActions(last, b, Some(b))
  {
  }

  /**
   * Once a cycle has recorded the browser state and Spotify has reached the
   * target state, a further cycle with the same browser state is silent.
   */
  lemma SettledCycleIsSilent(b: bool)
    ensures CycleActions(Some(b), b, Some(!b)) == []
  {
  }
}
