# YouTube/Spotify auto-switcher — a Dafny model of its reconciliation core

The switcher polls the platform's media sessions. It pauses Spotify while
browser media plays and plays Spotify again when browser media stops. This
project models that logic and proves properties of it. There are six modules:

- `Wrappers`: `Option`, used for Python's `None` and for the tri-state
  "is Spotify playing" (`None` = unknown).
- `Classifier`: the classification of one snapshot of sessions.
  - The playback-status constants, the browser keyword list and the Spotify token.
  - `is_browser_session` / `is_spotify_session`: case-insensitive substring
    matching on the application id. An absent id counts as the empty string.
  - `pick_spotify_session`: the first Spotify session in the snapshot.
  - `any_browser_video_playing`: some browser session reads PLAYING.
  - `get_spotify_playing`: the tri-state of the picked session.
- `Policy`: which actions a cycle requests.
  - The change branch fires on the first cycle and whenever the browser state
    differs from the previous cycle's. It pauses unless Spotify is known paused,
    and plays unless Spotify is known playing.
  - The reconcile branch runs every cycle. It acts only when Spotify's state is
    known and conflicts with the browser's.
  - A cycle can therefore request two actions.
- `Executor`: `try_spotify_pause` / `try_spotify_play`.
  - Without a session they return `false` and make no platform call.
  - With a session they invoke the session's method once. If that awaited call
    raised, they invoke it a second time.
- `Monitor`: `monitor_loop`.
  - `MonitorCycle` is the body of one iteration. `MonitorLoop` is the `while`
    loop that carries `last_browser_playing` and `last_spotify_playing`.
  - Both are proved against the functional specification `Cycle` / `Run`.
  - The stop signal is read at the top of every iteration.
  - The environment supplies each iteration's snapshot and stop-signal reading
    as a sequence of `Tick`s.
- `Scenarios`: states whole cycles on concrete snapshots: a Chrome session
  plus a Spotify session, and the empty snapshot.

The model follows the code where it differs from what one might expect of a
level-triggered switcher:

- One might expect an unknown Spotify state to be acted on every cycle. The
  code acts on it only on the first cycle or on a change of the browser state
  (lines 188-202); the reconcile test (lines 206-211) is false for `None`. See
  `Policy.SteadyCycle` and `Scenarios.EmptySnapshotCycle`.
- One might expect at most one request per cycle. In the code one cycle can
  make two requests, one per branch, see `Policy.EdgeCycle`.
- One might expect the stop signal to cut the poll interval short. The code
  reads it only at the loop head (line 181), see `Monitor.RunStopsAtSignal`.

## Model

| member | source | states |
|---|---|---|
| Classifier.IsBrowserSession | yt_spotify_auto_switch.py:50-52 | definition; see `BrowserAnywhere` and `BrowserHasKeyword` |
| Classifier.IsSpotifySession | yt_spotify_auto_switch.py:55-56 | definition; see `SpotifyAnywhere` and `SpotifyHasToken` |
| Classifier.PickSpotifySession | yt_spotify_auto_switch.py:115-120 | definition; see `PickSpotifySessionFound` and `PickSpotifySessionIsFirst` |
| Classifier.AnyBrowserVideoPlaying | yt_spotify_auto_switch.py:123-132 | definition; see `AnyBrowserVideoPlayingIff` |
| Policy.CycleActions | yt_spotify_auto_switch.py:188-211 | definition; see `SteadyCycle`, `EdgeCycle` and `CycleDirection` |
| Monitor.Cycle | yt_spotify_auto_switch.py:182-211 | definition; see `MonitorCycle`, `CycleRequests`, `SteadyCycleRecord` and `EdgeCycleRecord` |
| Monitor.RunWith | yt_spotify_auto_switch.py:181-216 | definition; see `RunStopsAtSignal` and `RunCycleAt` |
| Monitor.Run | yt_spotify_auto_switch.py:173-218 | definition; see `MonitorLoop`, `MonitorCycleAt`, `RunSteadyCycle` and `RunEdgeCycle` |
| Classifier.BrowserAnywhere | yt_spotify_auto_switch.py:50-52 | any id with a piece that lower-cases to one of the nine browser keywords is a browser's, whatever surrounds the piece |
| Classifier.KeywordPiece | yt_spotify_auto_switch.py:51-52 | if the lower-cased id contains one of a list of keywords, the id has a piece that lower-cases to that keyword |
| Classifier.BrowserHasKeyword | yt_spotify_auto_switch.py:50-52 | conversely, every browser id has a piece that lower-cases to one of the nine keywords (with `BrowserAnywhere`: browser iff such a piece exists) |
| Classifier.SpotifyAnywhere | yt_spotify_auto_switch.py:55-56 | any id with a piece that lower-cases to "spotify" is Spotify's |
| Classifier.SpotifyHasToken | yt_spotify_auto_switch.py:55-56 | conversely, every Spotify id has a piece that lower-cases to "spotify" |
| Classifier.EmptyIdMatchesNothing | yt_spotify_auto_switch.py:50-56 | the absent or empty id is neither a browser's nor Spotify's |
| Classifier.ChromeSpellingsAreBrowsers | yt_spotify_auto_switch.py:50-52 | "Chrome", "CHROME.EXE" and "chrome" all classify as browsers |
| Classifier.SpotifyIsRecognised | yt_spotify_auto_switch.py:55-56 | "Spotify" and "SPOTIFY" classify as Spotify |
| Classifier.SpotifyIsNotABrowser | yt_spotify_auto_switch.py:25-27 | "Spotify" contains none of the browser keywords |
| Classifier.PickSpotifySessionFound | yt_spotify_auto_switch.py:115-120 | nothing is picked iff no session of the snapshot is Spotify's; what is picked is a Spotify session of the snapshot |
| Classifier.PickSpotifySessionIsFirst | yt_spotify_auto_switch.py:115-120 | the session picked is the first Spotify session in snapshot order |
| Classifier.AnyBrowserVideoPlayingIff | yt_spotify_auto_switch.py:123-132 | browser media is playing iff some session is a browser's and its status is exactly PLAYING (4) |
| Classifier.GetSpotifyPlaying | yt_spotify_auto_switch.py:135-141 | unknown iff there is no session or its status is unreadable; known-playing iff the status is exactly PLAYING |
| Classifier.SpotifyNotPlayingStatuses | yt_spotify_auto_switch.py:135-141 | every readable status other than PLAYING reads as known-not-playing |
| Classifier.SnapshotSpotifyPlaying | yt_spotify_auto_switch.py:184-185 | Spotify's state in a snapshot is that of its first Spotify session |
| Classifier.EmptySnapshot | yt_spotify_auto_switch.py:115-141 | an empty snapshot has no browser media playing, no Spotify session and an unknown Spotify state |
| Policy.EdgeActions | yt_spotify_auto_switch.py:188-202 | the change branch requests nothing unless the browser state is new; when it is new, it requests nothing iff Spotify is already aligned; every request is towards the browser's state |
| Policy.ReconcileActions | yt_spotify_auto_switch.py:206-211 | the reconcile branch requests something iff Spotify's state is known and equals the browser's (a conflict), and only towards the browser's state |
| Policy.CycleDirection | yt_spotify_auto_switch.py:188-211 | every action of a cycle is Pause while browser media plays and Play otherwise; a known-paused Spotify is never paused and a known-playing one never played |
| Policy.SteadyCycle | yt_spotify_auto_switch.py:188-211 | with an unchanged browser state, one action iff Spotify's state is known and conflicts, otherwise none (unknown gets nothing) |
| Policy.EdgeCycle | yt_spotify_auto_switch.py:188-211 | on a first cycle or a change: none if Spotify is aligned, one if its state is unknown, two if it is known to conflict |
| Policy.AtMostTwoActions | yt_spotify_auto_switch.py:188-211 | at most two actions per cycle, and two exactly on an edge with a known conflict |
| Policy.KnownConflictIsAlwaysActedOn | yt_spotify_auto_switch.py:206-211 | whatever was carried over, a Spotify known to conflict with the browser is acted upon |
| Policy.SettledCycleIsSilent | yt_spotify_auto_switch.py:188-211 | once Spotify has reached the target state and the browser state is unchanged, the cycle requests nothing |
| Executor.TrySpotify | yt_spotify_auto_switch.py:144-170 | without a session: result false and no platform call; with one: one call that succeeded (result true) or two calls when the first raised |
| Monitor.CycleBrowserPlaying | yt_spotify_auto_switch.py:183 | a cycle records the browser state it classified from its snapshot |
| Monitor.SteadyCycleRecord | yt_spotify_auto_switch.py:188-214 | a cycle whose carried-in browser state equals its own acts only on a known conflict, with one action |
| Monitor.EdgeCycleRecord | yt_spotify_auto_switch.py:188-214 | a cycle whose carried-in browser state is unknown or different requests none, one or two actions as `EdgeCycle` says |
| Monitor.CycleRequests | yt_spotify_auto_switch.py:184-211 | every request of a cycle is on the session `pick_spotify_session` chose; at most two, all towards the browser's state; a known conflict is always acted on |
| Monitor.RunStopsAtSignal | yt_spotify_auto_switch.py:181 | the loop runs one cycle per tick while the stop signal reads clear, and stops at the first tick whose signal is set |
| Monitor.RunCycleAt | yt_spotify_auto_switch.py:181-214 | cycle k of a run is one cycle on snapshot k, carrying in the browser state recorded by cycle k-1 (unknown for the first) |
| Monitor.RunCycleAtClassified | yt_spotify_auto_switch.py:183-213 | when each cycle records the browser state it classified, cycle k carries in the classification of snapshot k-1 |
| Monitor.MonitorCycleAt | yt_spotify_auto_switch.py:176-214 | in `monitor_loop`, cycle k decides from snapshot k and from the browser state of snapshot k-1, or from `None` on the first cycle |
| Monitor.RunSteadyCycle | yt_spotify_auto_switch.py:188-214 | in a run, a cycle with the same browser state as the previous cycle requests one action iff Spotify's state is known and conflicts, otherwise none |
| Monitor.RunEdgeCycle | yt_spotify_auto_switch.py:188-214 | in a run, the first cycle and every cycle after a change of browser state request none, one or two actions as `EdgeCycle` says |
| Monitor.RunCycleRequests | yt_spotify_auto_switch.py:181-214 | every cycle of a run targets that cycle's picked Spotify session, requests at most two actions, all towards the browser's state, and acts on every known conflict |
| Monitor.Issue | yt_spotify_auto_switch.py:194-211 | one `try_spotify_*` request is appended to the cycle's requests, with a call count that fits its session |
| Monitor.MonitorCycle | yt_spotify_auto_switch.py:182-211 | one loop iteration classifies the snapshot and makes exactly the requests `Cycle` specifies, in order, each with 0 calls (no session) or 1-2 calls |
| Monitor.LoopIteration | yt_spotify_auto_switch.py:181-216 | running the next cycle moves it from the cycles still to run to the cycles done, and logs its call counts |
| Monitor.NoSessionNoCalls | yt_spotify_auto_switch.py:144-146 | a cycle without a Spotify session makes no platform call, whatever it requests |
| Monitor.MonitorLoop | yt_spotify_auto_switch.py:173-218 | the loop, started with both carried states `None`, runs exactly the cycles of `Run`; at exit the carried browser and Spotify states are those of the last cycle (`None` if none ran) |
| Scenarios.ChromeAndSpotifyClassified | yt_spotify_auto_switch.py:115-132 | a Chrome+Spotify snapshot is browser-playing iff Chrome reads PLAYING, and its Spotify session is the one picked |
| Scenarios.BrowserPlayingSpotifyPaused | yt_spotify_auto_switch.py:188-211 | browser playing and Spotify paused: nothing is requested |
| Scenarios.BrowserPlayingSpotifyPlaying | yt_spotify_auto_switch.py:188-211 | browser playing and Spotify playing: Spotify is paused once if the browser was already playing, twice otherwise |
| Scenarios.BrowserPausedSpotifyPaused | yt_spotify_auto_switch.py:188-211 | browser paused and Spotify paused: Spotify is played once if the browser was already not playing, twice otherwise |
| Scenarios.EmptySnapshotCycle | yt_spotify_auto_switch.py:182-211 | empty snapshot: a play request to no session on the first cycle and after the browser stops, nothing on later cycles |

## Left out

- The Windows media APIs (`winsdk`), `request_manager` and `mgr.get_sessions()`
  are not modelled. Each cycle's snapshot is an arbitrary sequence of sessions
  supplied by the environment. An enumeration failure is simply the empty
  snapshot.
- The `get_playback_info` fallback chain is not modelled. A session's status is
  the result of that chain, an `Option<int>` with `None` for unreadable. The
  playback type it also returns is unused by the core.
- The outcome of `try_pause_async` / `try_play_async` is the platform's. The
  model leaves open whether each call raises. The result `ok` is only logged in
  the source.
- `get_media_title` is unused by the loop and is not modelled.
- `setup_hotkey` and `main` are not modelled: the keyboard library, the
  platform check, `KeyboardInterrupt` handling and hotkey cleanup.
- All `print` / `time.strftime` logging is left out, and so are the
  `asyncio.sleep(POLL_INTERVAL)` timing, `threading.Event` and asyncio
  concurrency. The stop signal is a boolean read once at the top of each
  iteration.
- Monitor.MonitorLoop: the loop runs over a finite sequence of ticks. Running
  out of ticks ends it like the stop signal does, so an endless run is
  described only through its finite prefixes.
- Classifier.Lower: lower-cases the ASCII letters only. Python's `str.lower`
  also folds non-ASCII letters (for example U+0130 or the Kelvin sign). Those
  can make a non-ASCII id match a keyword, which this model does not capture.
- When the Spotify session's id is also browser-classified (for example
  "msedge-spotify"), the source reads its status twice (lines 129 and 138).
  The model gives each session a single status, so a status that changes
  between those two reads is not represented.
