/**
 * The two requests the switcher makes of the Spotify session,
 * `try_spotify_pause` and `try_spotify_play`. Both share one shape: no
 * session means no platform call and a `false` result; otherwise the
 * session's method is invoked (a second time when the first call raised)
 * and the reported success is the platform's business.
 */
module Executor {
  import opened Wrappers
  import opened Classifier
  import opened Policy

  /**
   * How many times a request's method was invoked on the media session
   * `target`: never without a session, once when the awaited call goes
   * through, twice when it raised and the fallback calls it again without
   * awaiting.
   */
  predicate CallsFit(target: Option<Session>, calls: nat)
  {
    if target.None? then calls == 0 else 1 <= calls <= 2
  }

  /** `calls[i]` is the number of platform invocations made for the `i`-th request on `target`. */
  predicate AllCallsFit(target: Option<Session>, calls: seq<nat>)
  {
    forall i :: 0 <= i < |calls| ==> CallsFit(target, calls[i])
  }

  /**
   * `try_spotify_pause` (`action == Pause`) and `try_spotify_play`
   * (`action == Play`). Without a session: `false` and no call. With one:
   * the awaited call is made; if it goes through the result is `true`,
   * otherwise the method is called once more and the result says whether
   * that second call went through. Whether a platform call raises is the
   * platform's business, so it is left open.
   */
  method TrySpotify(action: Action, s: Option<Session>) returns (ok: bool, calls: nat)
    ensures s.None? ==> !ok
    ensures CallsFit(s, calls)
    ensures calls == 1 ==> ok
  {
    if s.None? {
      return false, 0;
    }
    var firstRaised: bool := *;
    if !firstRaised {
      return true, 1;
    }
    var secondRaised: bool := *;
    ok, calls := !secondRaised, 2;
  }
}
