/**
 * Classification of a snapshot of media sessions: which sessions belong to a
 * browser, which one is the Spotify session, whether browser media is playing
 * and whether Spotify is playing (a tri-state).
 */
module Classifier {
  import opened Wrappers

  /** Values of the platform's playback-status enumeration. */
  const CLOSED: int := 0
  const OPENED: int := 1
  const CHANGING: int := 2
  const STOPPED: int := 3
  const PLAYING: int := 4
  const PAUSED: int := 5

  /** Application ids containing one of these (after lower-casing) are browsers. */
  const BROWSER_AUMID_KEYWORDS: seq<string> :=
    ["chrome", "msedge", "edge", "firefox", "brave", "opera", "vivaldi", "msedgewebview", "webview2"]

  /** Application ids containing this token (after lower-casing) are Spotify. */
  const SPOTIFY_AUMID_TOKEN: string := "spotify"

  /**
   * One media session as the switcher sees it: the owning application's id
   * (an absent id is the empty string) and its playback status, `None` when
   * the status could not be read.
   */
  datatype Session = Session(aumid: string, status: Option<int>)

  /** Lower-casing of one character (`str.lower` on the ASCII letters). */
  function LowerChar(c: char): char
  {
    if 'A' <= c <= 'Z' then (c as int + 32) as char else c
  }

  /** Lower-casing of an application id, character by character. */
  function Lower(s: string): string
  {
    seq(|s|, i requires 0 <= i < |s| => LowerChar(s[i]))
  }

  /** True when `sub` occurs in `s` at position `i`. */
  predicate OccursAt(s: string, sub: string, i: int)
  {
    0 <= i && i + |sub| <= |s| && s[i..i + |sub|] == sub
  }

  /** Substring test, as Python's `sub in s` on strings. */
  predicate Contains(s: string, sub: string)
  {
    exists i | 0 <= i <= |s| - |sub| :: OccursAt(s, sub, i)
  }

  /** True when `lid` contains one of `keywords` (Python's `any(k in lid for k in keywords)`). */
  predicate AnyKeyword(lid: string, keywords: seq<string>)
  {
    exists j | 0 <= j < |keywords| :: Contains(lid, keywords[j])
  }

  /** `is_browser_session`: lower-case the id (absent counts as empty) and look for a browser keyword. */
  predicate IsBrowserSession(aumid: string)
  {
    AnyKeyword(Lower(aumid), BROWSER_AUMID_KEYWORDS)
  }

  /** `is_spotify_session`: lower-case the id (absent counts as empty) and look for the Spotify token. */
  predicate IsSpotifySession(aumid: string)
  {
    Contains(Lower(aumid), SPOTIFY_AUMID_TOKEN)
  }

  /** Lower-casing distributes over concatenation. */
  lemma LowerAppend(a: string, b: string)
    ensures Lower(a + b) == Lower(a) + Lower(b)
  {
  }

  /**
   * Matching is case-insensitive and positional-free: whatever surrounds it,
   * a piece of the id that lower-cases to a browser keyword makes it a
   * browser's.
   */
  lemma BrowserAnywhere(pre: string, w: string, post: string, j: int)
    requires 0 <= j < |BROWSER_AUMID_KEYWORDS| && Lower(w) == BROWSER_AUMID_KEYWORDS[j]
    ensures IsBrowserSession(pre + w + post)
  {
    LowerAppend(pre + w, post);
    LowerAppend(pre, w);
    var lid := Lower(pre + w + post);
    assert lid == Lower(pre) + BROWSER_AUMID_KEYWORDS[j] + Lower(post);
    assert lid[|pre|..|pre| + |w|] == BROWSER_AUMID_KEYWORDS[j];
    assert OccursAt(lid, BROWSER_AUMID_KEYWORDS[j], |pre|);
  }

  /** Likewise, a piece that lower-cases to the Spotify token makes the id Spotify's. */
  lemma SpotifyAnywhere(pre: string, w: string, post: string)
    requires Lower(w) == SPOTIFY_AUMID_TOKEN
    ensures IsSpotifySession(pre + w + post)
  {
    LowerAppend(pre + w, post);
    LowerAppend(pre, w);
    var lid := Lower(pre + w + post);
    assert lid == Lower(pre) + SPOTIFY_AUMID_TOKEN + Lower(post);
    assert lid[|pre|..|pre| + |w|] == SPOTIFY_AUMID_TOKEN;
    assert OccursAt(lid, SPOTIFY_AUMID_TOKEN, |pre|);
  }

  /** The lower-cased piece of `s` of length `n` starting at `i`. */
  function LowerSlice(s: string, i: int, n: nat): string
    requires 0 <= i && i + n <= |s|
  {
    Lower(s[i..i + n])
  }

  /** An id whose lower-cased form contains one of `keywords` has a piece that lower-cases to it. */
  lemma KeywordPiece(aumid: string, keywords: seq<string>)
    requires AnyKeyword(Lower(aumid), keywords)
    ensures exists j, i :: 0 <= j < |keywords| && 0 <= i <= |aumid| - |keywords[j]| &&
                          LowerSlice(aumid, i, |keywords[j]|) == keywords[j]
  {
    var j :| 0 <= j < |keywords| && Contains(Lower(aumid), keywords[j]);
    var n := |keywords[j]|;
    var i :| 0 <= i <= |aumid| - n && OccursAt(Lower(aumid), keywords[j], i);
    assert LowerSlice(aumid, i, n) == Lower(aumid)[i..i + n];
  }

  /** Conversely, a browser id has a piece that lower-cases to one of the browser keywords. */
  lemma BrowserHasKeyword(aumid: string)
    requires IsBrowserSession(aumid)
    ensures exists j, i :: 0 <= j < |BROWSER_AUMID_KEYWORDS| && 0 <= i <= |aumid| - |BROWSER_AUMID_KEYWORDS[j]| &&
                          LowerSlice(aumid, i, |BROWSER_AUMID_KEYWORDS[j]|) == BROWSER_AUMID_KEYWORDS[j]
  {
    KeywordPiece(aumid, BROWSER_AUMID_KEYWORDS);
  }

  /** Conversely, a Spotify id has a piece that lower-cases to the token. */
  lemma SpotifyHasToken(aumid: string)
    requires IsSpotifySession(aumid)
    ensures exists i :: 0 <= i <= |aumid| - |SPOTIFY_AUMID_TOKEN| && LowerSlice(aumid, i, |SPOTIFY_AUMID_TOKEN|) == SPOTIFY_AUMID_TOKEN
  {
    var i :| 0 <= i <= |aumid| - |SPOTIFY_AUMID_TOKEN| && OccursAt(Lower(aumid), SPOTIFY_AUMID_TOKEN, i);
    assert LowerSlice(aumid, i, |SPOTIFY_AUMID_TOKEN|) == Lower(aumid)[i..i + |SPOTIFY_AUMID_TOKEN|];
  }

  /** The absent id (the empty string) is neither a browser's nor Spotify's. */
  lemma EmptyIdMatchesNothing()
    ensures !IsBrowserSession("") && !IsSpotifySession("")
  {
  }

  /** A browser session whose status reads exactly PLAYING. */
  predicate IsPlayingBrowser(s: Session)
  {
    IsBrowserSession(s.aumid) && s.status == Some(PLAYING)
  }

  /**
   * `pick_spotify_session`: the first Spotify session in snapshot order, or
   * `None` when there is none.
   */
  function PickSpotifySession(ss: seq<Session>): Option<Session>
  {
    if ss == [] then None
    else if IsSpotifySession(ss[0].aumid) then Some(ss[0])
    else PickSpotifySession(ss[1..])
  }

  /**
   * Nothing is picked exactly when no session is Spotify's; what is picked
   * is a session of the snapshot that is Spotify's.
   */
  lemma {:induction false} PickSpotifySessionFound(ss: seq<Session>)
    ensures PickSpotifySession(ss).None? <==> forall i :: 0 <= i < |ss| ==> !IsSpotifySession(ss[i].aumid)
    ensures PickSpotifySession(ss).Some? ==>
              PickSpotifySession(ss).value in ss && IsSpotifySession(PickSpotifySession(ss).value.aumid)
    decreases |ss|
  {
    if ss != [] && !IsSpotifySession(ss[0].aumid) {
      PickSpotifySessionFound(ss[1..]);
      assert forall i :: 1 <= i < |ss| ==> ss[i] == ss[1..][i - 1];
    }
  }

  /** The session picked is the first one classified as Spotify. */
  lemma {:induction false} PickSpotifySessionIsFirst(ss: seq<Session>, i: int)
    requires 0 <= i < |ss| && IsSpotifySession(ss[i].aumid)
    requires forall j :: 0 <= j < i ==> !IsSpotifySession(ss[j].aumid)
    ensures PickSpotifySession(ss) == Some(ss[i])
    decreases i
  {
    if i > 0 {
      assert !IsSpotifySession(ss[0].aumid);
      PickSpotifySessionIsFirst(ss[1..], i - 1);
    }
  }

  /**
   * `any_browser_video_playing`: some browser session's status is PLAYING.
   * Non-browser sessions and unreadable statuses never count.
   */
  function AnyBrowserVideoPlaying(ss: seq<Session>): bool
  {
    if ss == [] then false
    else if !IsBrowserSession(ss[0].aumid) then AnyBrowserVideoPlaying(ss[1..])
    else if ss[0].status == Some(PLAYING) then true
    else AnyBrowserVideoPlaying(ss[1..])
  }

  /** Browser media is playing exactly when some session is a browser's with status PLAYING. */
  lemma {:induction false} AnyBrowserVideoPlayingIff(ss: seq<Session>)
    ensures AnyBrowserVideoPlaying(ss) <==> exists i :: 0 <= i < |ss| && IsPlayingBrowser(ss[i])
    decreases |ss|
  {
    if ss != [] {
      AnyBrowserVideoPlayingIff(ss[1..]);
      assert forall i :: 1 <= i < |ss| ==> ss[i] == ss[1..][i - 1];
      if !IsPlayingBrowser(ss[0]) && exists i :: 0 <= i < |ss| && IsPlayingBrowser(ss[i]) {
        var i :| 0 <= i < |ss| && IsPlayingBrowser(ss[i]);
        assert IsPlayingBrowser(ss[1..][i - 1]);
      }
    }
  }

  /**
   * `get_spotify_playing`: unknown when there is no session or its status is
   * unreadable, otherwise whether the status is exactly PLAYING.
   */
  function GetSpotifyPlaying(s: Option<Session>): (r: Option<bool>)
    ensures r.None? <==> s.None? || s.value.status.None?
    ensures r == Some(true) <==> s.Some? && s.value.status == Some(PLAYING)
  {
    if s.None? then None
    else if s.value.status.None? then None
    else Some(s.value.status.value == PLAYING)
  }

  /** Every status other than PLAYING, including CLOSED, STOPPED and PAUSED, reads as "not playing". */
  lemma SpotifyNotPlayingStatuses(s: Session)
    requires s.status.Some? && s.status.value != PLAYING
    ensures GetSpotifyPlaying(Some(s)) == Some(false)
  {
  }

  /** Spotify's state in a whole snapshot is that of its first Spotify session. */
  lemma {:induction false} SnapshotSpotifyPlaying(ss: seq<Session>, i: int)
    requires 0 <= i < |ss| && IsSpotifySession(ss[i].aumid)
    requires forall j :: 0 <= j < i ==> !IsSpotifySession(ss[j].aumid)
    ensures GetSpotifyPlaying(PickSpotifySession(ss)) ==
              if ss[i].status.None? then None else Some(ss[i].status.value == PLAYING)
  {
    PickSpotifySessionIsFirst(ss, i);
  }

  /** Classification ignores case: these spellings of one browser all match. */
  lemma ChromeSpellingsAreBrowsers()
    ensures IsBrowserSession("Chrome")
    ensures IsBrowserSession("CHROME.EXE")
    ensures IsBrowserSession("chrome")
  {
    assert OccursAt(Lower("Chrome"), "chrome", 0);
    assert OccursAt(Lower("CHROME.EXE"), "chrome", 0);
    assert OccursAt(Lower("chrome"), "chrome", 0);
    assert BROWSER_AUMID_KEYWORDS[0] == "chrome";
  }

  /** Spotify's own id is recognised in any case. */
  lemma SpotifyIsRecognised()
    ensures IsSpotifySession("Spotify")
    ensures IsSpotifySession("SPOTIFY")
  {
    var a := Lower("Spotify");
    assert a[..7] == SPOTIFY_AUMID_TOKEN;
    assert OccursAt(a, SPOTIFY_AUMID_TOKEN, 0);
    var b := Lower("SPOTIFY");
    assert b[..7] == SPOTIFY_AUMID_TOKEN;
    assert OccursAt(b, SPOTIFY_AUMID_TOKEN, 0);
  }

  /** Spotify's id is not taken for a browser's: no browser keyword occurs in it. */
  lemma SpotifyIsNotABrowser()
    ensures !IsBrowserSession("Spotify")
  {
    var lid := Lower("Spotify");
    assert lid == "spotify";
    forall j | 0 <= j < |BROWSER_AUMID_KEYWORDS| ensures !Contains(lid, BROWSER_AUMID_KEYWORDS[j]) {
      var kw := BROWSER_AUMID_KEYWORDS[j];
      forall i | 0 <= i <= |lid| - |kw| ensures !OccursAt(lid, kw, i) {
        assert lid[i..i + |kw|][0] != kw[0] || lid[i..i + |kw|][1] != kw[1];
      }
    }
  }

  /** An empty snapshot has no browser media playing and no Spotify session. */
  lemma EmptySnapshot()
    ensures !AnyBrowserVideoPlaying([])
    ensures PickSpotifySession([]) == None
    ensures GetSpotifyPlaying(PickSpotifySession([])) == None
  {
  }
}
