/**
 * Whole cycles on concrete snapshots: a browser session and a Spotify
 * session with given statuses, and the empty snapshot.
 */
module Scenarios {
  import opened Wrappers
  import opened Classifier
  import opened Policy
  import opened Monitor

  /** A snapshot with a Chrome session and a Spotify session, in that order. */
  function ChromeAndSpotify(chrome: Option<int>, spotify: Option<int>): seq<Session>
  {
    [Session("Chrome", chrome), Session("Spotify", spotify)]
  }

  /** Such a snapshot is classified by the Chrome status alone for the browser, and picks the Spotify session. */
  lemma ChromeAndSpotifyClassified(chrome: Option<int>, spotify: Option<int>)
    ensures AnyBrowserVideoPlaying(ChromeAndSpotify(chrome, spotify)) == (chrome == Some(PLAYING))
    ensures PickSpotifySession(ChromeAndSpotify(chrome, spotify)) == Some(Session("Spotify", spotify))
  {
    var ss := ChromeAndSpotify(chrome, spotify);
    ChromeSpellingsAreBrowsers();
    SpotifyIsRecognised();
    SpotifyIsNotABrowser();
    assert !IsSpotifySession("Chrome");
    assert ss[1..] == [Session("Spotify", spotify)];
    assert ss[1..][1..] == [];
    assert !AnyBrowserVideoPlaying(ss[1..]);
  }

  /** Browser playing, Spotify paused: already as it should be, nothing is requested. */
  lemma BrowserPlayingSpotifyPaused(last: Option<bool>)
    ensures Cycle(last, ChromeAndSpotify(Some(PLAYING), Some(PAUSED))).actions == []
  {
    ChromeAndSpotifyClassified(Some(PLAYING), Some(PAUSED));
  }

  /**
   * Browser playing, Spotify playing: Spotify is paused, by the reconcile
   * branch alone when the browser was already playing and by both branches
   * otherwise.
   */
  lemma BrowserPlayingSpotifyPlaying(last: Option<bool>)
    ensures Cycle(last, ChromeAndSpotify(Some(PLAYING), Some(PLAYING))).target == Some(Session("Spotify", Some(PLAYING)))
    ensures Cycle(last, ChromeAndSpotify(Some(PLAYING), Some(PLAYING))).actions ==
              if last == Some(true) then [Pause] else [Pause, Pause]
  {
    ChromeAndSpotifyClassified(Some(PLAYING), Some(PLAYING));
  }

  /**
   * Browser paused, Spotify paused: Spotify is played, by the reconcile
   * branch alone when the browser was already not playing and by both
   * branches otherwise.
   */
  lemma BrowserPausedSpotifyPaused(last: Option<bool>)
    ensures Cycle(last, ChromeAndSpotify(Some(PAUSED), Some(PAUSED))).actions ==
              if last == Some(false) then [Play] else [Play, Play]
  {
    ChromeAndSpotifyClassified(Some(PAUSED), Some(PAUSED));
  }

  /**
   * The empty snapshot: no browser media, no Spotify session, Spotify's
   * state unknown. A play request (to no session) is made on the first cycle
   * and when the browser has just stopped, and never on a later cycle.
   */
  lemma EmptySnapshotCycle(last: Option<bool>)
    ensures Cycle(last, []) == CycleRecord(false, None, None, if last == Some(false) then [] else [Play])
  {
  }
}
