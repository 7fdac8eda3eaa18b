# InspireMusic player core, modelled in Dafny

InspireMusic is a web music player. It is a React single-page app backed by
Cloudflare Pages Functions that store each user's favorites, playlists and
play history in a key-value namespace. This project models the parts of the
app that carry state and rules, and proves properties of them:

- **Queue controller** (`queue.dfy`). This is the playback queue, its
  current index and the play mode (list, shuffle, single). It covers how
  the next and previous tracks are chosen, including shuffle's rejection
  loop, and the queue edits of the queue view and of the persisted store.
  It is a class `Queue.Player` whose methods update its fields.
- **Lyric synchroniser** (`lyrics.dfy`). A scan finds the lyric line to
  highlight for a playback position. The two effects that publish the
  index are a class `Lyrics.LyricSync`.
- **Progress clock** (`clock.dfy`). It covers:
  - the 0.05 s threshold that rate-limits published positions;
  - seeks and their keyboard clamps;
  - the track-change reset;
  - the one-time restore of a saved position when the track-change
    effect runs again for the track already loaded;
  - the volume keys.
- **Search paging** (`search.dfy`). One search call updates the search
  state; the page lock stops paging past the last page that had results;
  and a guard checks each page change. It is modelled on values, because
  the component keeps this state in React state.
- **Toasts** (`toasts.dfy`). At most three notifications are shown; the
  newest ones win.
- **Search history** (`search_history.dfy`). It keeps the 50 most recent
  distinct terms, newest first.
- **Optimistic sync store** (`sync_store.dfy`). Each library action
  (favorites and playlists) changes the local lists at once. When the
  remote call settles, the action marks the sync status and, on failure,
  rolls back. This module also covers the upload and download buttons.
  Each action is split at its `await`. Other actions may run between the
  two halves, as they can in the browser.
- **Server handlers** (`kv.dfy`, `favorites_api.dfy`, `playlists_api.dfy`,
  `history_api.dfy`). Each endpoint is a pure function: from the namespace
  and a request to a response and the new namespace. An imperative handler
  over a `Kv.KvNamespace` object is proved equal to that function.

`common.dfy` holds what these share:
- track identity, which is the pair (platform, id);
- playlists and merging a patch into a playlist;
- a generic `Filter` with its lemmas;
- the remote outcome;
- the sync status.

Some inputs of the real program are passed in as parameters:
- the values of `Math.random()`, as a sequence of draws in [0, 1);
- server time, as `now`;
- the audio element's position, as the argument of each event method;
- the result of each network call, as an outcome the continuation is
  given;
- whether a session token exists, as `loggedIn`;
- the subject of a verified token, as `user: Option<string>`.

Where the code and the design description of the system disagree, the
model follows the code:
- **Server version counter.** The design calls it monotonic. A PUT of the
  whole favorites or playlists list resets it to 1 (`FavoritesApi.FavoritesVersionCanDecrease`, `PlaylistsApi.PlaylistsBatchResetsVersion`).
- **Adding or removing a track in a playlist.** The design says there is no
  rollback on failure. The code restores a snapshot taken before the toggle
  (`SyncStore.SnapshotRollbackDropsConcurrentAdd`).
- **Favorite removal rollback.** The design describes it as a snapshot
  restore. The code appends the track at the end, so the order changes
  (`SyncStore.RemoveFavoriteRollbackReorders`). Overlapping toggles can
  even duplicate a track (`SyncStore.OverlappingFavoriteTogglesDuplicate`).
- **Lyric scan.** The design describes an incremental forward scan and −1
  when no line is reached. The code rescans from index 0 on every progress
  update, and yields 0 when the first line still lies ahead
  (`Lyrics.ScanActiveLine`).
- **Queue index.** The design says the index is −1 exactly when the queue
  is empty. The queue view's clear button empties the queue but leaves the
  index as it was (`Queue.Player.ViewClear`). `Queue.Player.Valid` only
  requires an in-range index for a non-empty queue.
- **Resume after a refresh.** The design says a saved position is restored
  once when the same track is resumed after a refresh. In the code the
  remembered track key starts empty on every page load, so the first
  track-change run after a refresh is never "the same track" and nothing
  is restored (`Clock.FirstRunAfterReload`). The restore fires only when
  the effect runs again for the loaded track, for example after a change
  of quality (`Clock.SecondRunRestores`).

## Model

| member | source | states |
|---|---|---|
| Queue.NextMode | src/App.tsx:812-815 | the mode button always changes the mode |
| Queue.ModeCycle | src/App.tsx:812-815 | three presses give the mode back, visiting all three modes on the way |
| Queue.ClampIndex | src/App.tsx:524 | the start index is clamped into the queue: an in-range index is kept, one past the end gives the last entry, a negative one gives the first |
| Queue.FindSong | src/App.tsx:532 | `findIndex` by identity: None exactly when no entry has the track's identity, otherwise the first entry that has it |
| Queue.ListNext | src/App.tsx:560 | list-mode advance wraps from the last entry to the first and otherwise moves one on |
| Queue.ListPrev | src/App.tsx:578 | list-mode step back wraps from the first entry to the last and otherwise moves one back |
| Queue.PrevUndoesNext | src/App.tsx:560-578 | stepping back undoes advancing and vice versa |
| Queue.AdvanceNOffset | src/App.tsx:560 | n advances land n places on, modulo the queue length |
| Queue.FullCycleReturns | src/App.tsx:560 | list mode returns to the starting track after exactly queue-length advances and not before |
| Queue.ScaledDraw | src/App.tsx:553 | `Math.floor(Math.random() * len)` is a valid queue index |
| Queue.DrawShuffleIndex | src/App.tsx:553-556 | the rejection loop stops within the supplied draws, on an index other than the current one when the queue has more than one track, after draws that all hit the current index |
| Queue.RemoveAt | src/store/useAppStore.ts:136 | filtering out one index removes exactly that entry and keeps the others in order; an out-of-range index changes nothing |
| Queue.EntryAt | src/store/useAppStore.ts:146 | `newQueue[newIndex] \|\| null`: the entry when the index is in range, null otherwise |
| Queue.Player.constructor | src/store/useAppStore.ts:133 | an empty queue with index −1, list mode, nothing playing |
| Queue.Player.StartPlayback | src/App.tsx:522-529 | an empty list is ignored; otherwise the queue is replaced, the clamped entry becomes current and autoplay is requested |
| Queue.Player.PlaySong | src/App.tsx:531-544 | a track already queued is jumped to (its first occurrence), otherwise it is appended and becomes current; either way the current entry has the track's identity |
| Queue.Player.NextSong | src/App.tsx:546-570 | an empty queue is left alone; list and single mode advance circularly; shuffle picks an index that differs from the current one when it can, namely the first draw that does |
| Queue.Player.PrevSong | src/App.tsx:572-583 | list and single mode step back circularly; shuffle takes one draw, which may repeat the current index |
| Queue.Player.HandleEnded | src/App.tsx:262-270 | single mode rewinds and replays the same track; the other modes do what the next button does: nothing on an empty queue, otherwise the next index in list mode or the first draw that differs from the current index in shuffle mode, that entry as the current track, autoplay requested, play state untouched |
| Queue.Player.ViewPlay | src/App.tsx:1029-1043 | the queue view's play button moves the index to the entry and requests autoplay; an entry with the current track's identity is rewound and played again, any other becomes the current track |
| Queue.Player.ViewRemove | src/App.tsx:1044-1059 | removing an earlier entry shifts the index so the same track stays current; removing the current entry moves to its successor (or the new last entry), or, when the queue becomes empty, clears the current track and stops |
| Queue.Player.ViewClear | src/App.tsx:1064-1072 | the queue and current track are cleared, playback stops and rewinds, and the index is left stale |
| Queue.Player.ClearQueue | src/store/useAppStore.ts:133 | the store's clear empties the queue, sets the index to −1 and forgets the current track |
| Queue.Player.RemoveFromQueue | src/store/useAppStore.ts:134-148 | the store's remove for any index: the index shifts down for an earlier entry, is clamped for the current one, and the current track is re-read from the new index; a queue that becomes empty ends with index −1 and no track |
| Queue.Player.ToggleMode | src/App.tsx:812-815 | the mode moves to the next one and nothing else changes |
| Lyrics.ReachedPrefix | src/App.tsx:463-469 | the scan passes exactly the leading lines whose time has been reached and stops at the first one ahead |
| Lyrics.ScanActiveLine | src/App.tsx:479-486 | the loop yields the last reached line before the first unreached one, or 0 when even the first line is ahead |
| Lyrics.LoadedIndex | src/App.tsx:470 | the loaded index is −1 exactly when there are no lines, and in range otherwise |
| Lyrics.SortedScanIsGreatest | src/App.tsx:478-486 | for a time-sorted table the scan finds the greatest line whose time has been reached |
| Lyrics.ReachedPrefixMonotone | src/App.tsx:479-486 | the reached prefix never shrinks as progress grows |
| Lyrics.ActiveLineMonotone | src/App.tsx:479-486 | the highlighted line never moves backwards while progress increases |
| Lyrics.LyricSync.LoadLyrics | src/App.tsx:450-472 | empty lyrics clear the table and publish −1; otherwise the parsed table is stored and the scan's index (or −1 for no lines) is published |
| Lyrics.LyricSync.OnProgress | src/App.tsx:474-493 | with lines loaded, the active index follows the scan and is published only when it changes |
| Clock.PublishedAreSpaced | src/App.tsx:244-250 | every published position is a real sample and lies more than 0.05 s from the one published before it |
| Clock.BaselineIsFresh | src/App.tsx:244-250 | after any run of samples the latest sample is within 0.05 s of the last published position |
| Clock.SongKeyMatchesIdentity | src/App.tsx:351-352 | the `platform-id` key of the track-change effect identifies tracks exactly as (platform, id) does, for platforms without '-' |
| Clock.SeekBackTarget | src/App.tsx:725 | the left-arrow seek goes 5 s back, and to exactly 0 when less than 5 s have played |
| Clock.SeekForwardTarget | src/App.tsx:729 | the right-arrow seek goes 5 s on, and to exactly the duration when fewer than 5 s remain |
| Clock.VolumeUp | src/App.tsx:733 | the up-arrow raises the volume by 0.1, to exactly 1 above 0.9, and never lowers a valid volume |
| Clock.VolumeDown | src/App.tsx:737 | the down-arrow lowers the volume by 0.1, to exactly 0 below 0.1, and never raises a non-negative volume |
| Clock.TenStepsReachFullVolume | src/App.tsx:733 | ten presses of the up-arrow from any valid volume reach full volume |
| Clock.VolumeUpNLowerBound | src/App.tsx:733 | n presses stay at most 1 and reach at least min(1, v + n/10) |
| Clock.ProgressClock.SyncProgress | src/App.tsx:244-250 | a sample is published, and becomes the baseline, exactly when it moved more than 0.05 s |
| Clock.ProgressClock.HandleSeeked | src/App.tsx:288-292 | a finished seek publishes the position and resets the baseline |
| Clock.ProgressClock.HandleSeek | src/App.tsx:595-600 | a seek moves the audio position and the shown progress, leaving the baseline alone |
| Clock.ProgressClock.KeyboardSeek | src/App.tsx:725-730 | the arrow seeks land on the clamped target and stay within [0, duration]; the baseline, duration, remembered track, restore flag and saved position are untouched |
| Clock.ProgressClock.HandleDuration | src/App.tsx:261 | a finite duration is taken, anything else gives 0 |
| Clock.ProgressClock.TrackChange | src/App.tsx:350-360 | the same-track test compares keys; a different track resets progress, duration and baseline |
| Clock.FirstRunAfterReload | src/App.tsx:340-371 | after a page load the first track-change run is never the same track, so nothing is restored |
| Clock.SecondRunRestores | src/App.tsx:340-385 | a second run of the effect for the loaded track restores a positive saved position |
| Clock.ProgressClock.CanPlay | src/App.tsx:365-371 | the saved position is restored at most once, only for the same track and only when positive; nothing else changes |
| Clock.ProgressClock.SaveProgress | src/App.tsx:405-420 | a positive position is saved in whole seconds, anything else saves nothing; nothing else changes |
| Search.LockAt | src/App.tsx:123-126 | a lock update yields the new page or the old lock, never above either |
| Search.LockNeverRises | src/App.tsx:102-152 | without a reset, a search can only lower the lock |
| Search.PerformSearchKeepsWellFormed | src/App.tsx:102-152 | pages stay at 1 or more and page 1 is never locked |
| Search.NewSearchPageBelowLock | src/App.tsx:878-882 | after a new search the shown page lies below the lock |
| Search.ForwardPagingKeepsPageBelowLock | src/App.tsx:887-893 | a forward page change keeps the shown page below the lock |
| Search.BackwardPagingCanPassLock | src/App.tsx:122-126 | an empty earlier page drops the lock to that page, which can leave the shown page at or above it |
| Search.ChangePage | src/App.tsx:887-893 | a blank keyword, the current page, or a page at or beyond the lock changes nothing |
| Search.BlankTermIsIgnored | src/App.tsx:103-104 | a term that trims to nothing leaves the search state untouched |
| Search.ResultsAreShown | src/App.tsx:134-136 | a non-empty page is shown with its page number and the reported total, or its length when none was reported |
| Search.FailureKeepsResults | src/App.tsx:145-146 | a failed request keeps the shown results and sets the error message |
| Toasts.AddToast | src/App.tsx:79-88 | the new toast is shown last, at most three are kept, and they are the newest ones |
| Toasts.RemoveToast | src/App.tsx:90-92 | exactly the toasts with that id disappear |
| Toasts.AddToastIsNewest | src/App.tsx:81-86 | one addition keeps the newest three of the old stack and the new toast |
| Toasts.NewestOfNewest | src/App.tsx:83-85 | cutting to the newest three early or late gives the same result |
| Toasts.AddAllKeepsNewest | src/App.tsx:79-88 | any run of toasts leaves exactly the newest three of all of them |
| Toasts.LatestThreeStay | src/App.tsx:79-88 | after three or more new toasts only the last three remain |
| SearchHistory.SearchTerm | src/components/SearchView.tsx:86 | `kw \|\| keyword`: an explicit non-empty term wins |
| SearchHistory.RecordSearch | src/components/SearchView.tsx:90-93 | the term goes first, appears nowhere else, and the list holds 1 to 50 terms |
| SearchHistory.DeleteItem | src/components/SearchView.tsx:98-101 | every copy of the item goes, the other terms stay in order |
| SearchHistory.Apply | src/components/SearchView.tsx:81-101 | no action grows the history beyond 50 entries or its previous length |
| SearchHistory.RecordSearchKeepsOrder | src/components/SearchView.tsx:91 | the terms after the first are earlier history in its order |
| SearchHistory.RecordSearchKeepsOthers | src/components/SearchView.tsx:91-92 | below the cap no other term is lost |
| SearchHistory.FilterKeepsNoDuplicates | src/components/SearchView.tsx:91 | filtering keeps a list free of repeats |
| SearchHistory.RecordSearchKeepsDistinct | src/components/SearchView.tsx:90-93 | a history without repeats stays without repeats |
| SearchHistory.RecordSearchTwice | src/components/SearchView.tsx:90-93 | searching the same term twice is the same as once |
| SyncStore.ToggleSong | src/store/useAppStore.ts:160-167 | a present track is removed (every copy), an absent one is appended |
| SyncStore.ToggleSongFlips | src/store/useAppStore.ts:160-167 | toggling flips the track's presence and keeps every other identity's |
| SyncStore.FilterKeepsUnique | src/store/useAppStore.ts:164 | filtering keeps a list free of repeated identities |
| SyncStore.ToggleSongKeepsUnique | src/store/useAppStore.ts:160-167 | toggling keeps a list free of repeated identities |
| SyncStore.ToggleAbsentTwice | src/store/useAppStore.ts:160-167 | toggling an absent track twice gives the list back exactly |
| SyncStore.FindPlaylist | src/store/useAppStore.ts:250 | `find` by id: found exactly when some playlist has the id, and then the first one |
| SyncStore.TogglePlaylistSong | src/store/useAppStore.ts:291-301 | the track is toggled in every playlist with that id and the others are untouched |
| SyncStore.BothUploads | src/components/UserMenu.tsx:53-56 | `Promise.all` succeeds exactly when both uploads do and otherwise fails with one of their errors |
| SyncStore.DataStore.ToggleFavorite | src/store/useAppStore.ts:158-172 | the favorites are toggled at once; with a session the status becomes syncing and the continuation remembers whether the track was there |
| SyncStore.DataStore.AddPlaylist | src/store/useAppStore.ts:197-206 | the playlist goes first at once; with a session the status becomes syncing |
| SyncStore.DataStore.UpdatePlaylist | src/store/useAppStore.ts:224-233 | the patch is merged into every playlist with that id |
| SyncStore.DataStore.DeletePlaylist | src/store/useAppStore.ts:248-260 | every playlist with that id is removed and the first of them is remembered |
| SyncStore.DataStore.ToggleSongInPlaylist | src/store/useAppStore.ts:280-313 | "favorites" delegates to the favorite toggle; otherwise the list is snapshotted and toggled, and when no playlist has the id the status goes straight to success |
| SyncStore.DataStore.Complete | src/store/useAppStore.ts:179-320 | success sets the status; failure records the message (or "Sync failed") and rolls back relative to the current lists |
| SyncStore.DataStore.ResetIdle | src/store/useAppStore.ts:181 | the delayed reset sets the status to idle and changes nothing else |
| SyncStore.DataStore.BeginLoad | src/store/useAppStore.ts:325-326 | a load starts by marking the status syncing and clearing the error |
| SyncStore.DataStore.CompleteLoad | src/store/useAppStore.ts:329-348 | the cloud copy replaces both lists, whatever they held before, so loading the same copy again leaves them as they are; a failure records the error and keeps the lists |
| SyncStore.DataStore.Download | src/components/UserMenu.tsx:67-73 | without a session nothing happens, otherwise a load starts |
| SyncStore.DataStore.Upload | src/components/UserMenu.tsx:43-56 | without a session nothing happens, otherwise both lists as they are are sent |
| SyncStore.DataStore.CompleteUpload | src/components/UserMenu.tsx:58-64 | the outcome sets the status (and message, default "上传失败"); the local lists are never touched |
| SyncStore.AddFavoriteRollbackRestores | src/store/useAppStore.ts:166-191 | a failed add of a favorite restores the list exactly |
| SyncStore.RemoveFavoriteRollbackRestoresIdentities | src/store/useAppStore.ts:164-189 | a failed removal restores which tracks are favorites |
| SyncStore.RemoveFavoriteRollbackReorders | src/store/useAppStore.ts:164-189 | but not their order: the track comes back at the end |
| SyncStore.FavoriteRollbackKeepsConcurrentAdd | src/store/useAppStore.ts:191 | a rollback keeps an add that happened while the call was pending |
| SyncStore.OverlappingFavoriteTogglesDuplicate | src/store/useAppStore.ts:164-189 | overlapping toggles of one track can leave it in the list twice |
| SyncStore.AddPlaylistRollbackRestores | src/store/useAppStore.ts:200-219 | a failed add of a playlist with a fresh id restores the list exactly |
| SyncStore.AddPlaylistRollbackDropsSameId | src/store/useAppStore.ts:217-219 | the rollback filters by id, so it also removes an older playlist with that id |
| SyncStore.SameIdSamePlaylist | src/store/useAppStore.ts:250 | with distinct ids, two playlists with the same id are the same playlist |
| SyncStore.DeletePlaylistRollbackRestoresSet | src/store/useAppStore.ts:250-275 | a failed delete brings the same playlists back, with the deleted one at the end |
| SyncStore.SnapshotRollbackDropsConcurrentAdd | src/store/useAppStore.ts:290-320 | a failed song toggle restores the snapshot and so drops a playlist added meanwhile |
| SyncStore.TogglePlaylistSongLocal | src/store/useAppStore.ts:292-300 | a toggle changes only the target playlist's tracks, flips the track there and keeps it free of repeats |
| Kv.QueryParam | functions/api/user/favorites.ts:65-71 | a missing or empty query parameter counts as absent |
| Kv.KvNamespace.Get | functions/api/user/favorites.ts:20 | a read yields the stored value exactly when the key is present |
| Kv.KvNamespace.Put | functions/api/user/favorites.ts:48 | a write replaces the value under one key |
| Kv.KvNamespace.Delete | functions/api/user/history.ts:38 | a delete removes one key |
| FavoritesApi.ReadFavorites | functions/api/user/favorites.ts:34-37 | the record a write starts from: the stored one, or the empty record when there is none |
| FavoritesApi.HandleFavorites | functions/api/user/favorites.ts:10-119 | the worker's handler has exactly the response and effect of the handler function |
| FavoritesApi.FavoritesRequireUser | functions/api/user/favorites.ts:11-14 | without a valid token the answer is 401 and nothing changes |
| FavoritesApi.FavoritesTouchOwnKey | functions/api/user/favorites.ts:10-119 | only the user's own record is written, and a failed request writes nothing |
| FavoritesApi.FavoritesPostIdempotent | functions/api/user/favorites.ts:38-49 | adding a track that is already a favorite writes nothing |
| FavoritesApi.FavoritesKeepUnique | functions/api/user/favorites.ts:31-94 | adding and removing keep the stored list free of repeated tracks |
| FavoritesApi.FavoritesDeleteAlwaysCounts | functions/api/user/favorites.ts:63-94 | a removal bumps the version and time even when it matched nothing |
| FavoritesApi.FavoritesPutReplaces | functions/api/user/favorites.ts:97-116 | a whole-list PUT stores the body's songs (or none) with the request time and version 1, whatever was stored; an unparsable body is a 500 that writes nothing |
| FavoritesApi.FavoritesVersionCanDecrease | functions/api/user/favorites.ts:97-116 | a whole-list PUT takes any stored version above 1 down to 1 |
| FavoritesApi.FavoritesFollowToggle | functions/api/user/favorites.ts:31-94 | the request a favorite toggle sends leaves the stored list equal to the toggled local list |
| PlaylistsApi.ReadPlaylists | functions/api/user/playlists.ts:34-37 | the record a write starts from: the stored one, or the empty record when there is none |
| PlaylistsApi.FullPatch | functions/api/user/playlists.ts:84-86 | a whole playlist sent as an update overwrites every field of the playlist with its id |
| PlaylistsApi.ClassifyPut | functions/api/user/playlists.ts:59-99 | a body that does not parse fails; a `playlists` array means a batch replace; otherwise a patch is applied exactly when the body has a non-empty id |
| PlaylistsApi.HandlePlaylists | functions/api/user/playlists.ts:10-137 | the worker's handler has exactly the response and effect of the handler function |
| PlaylistsApi.PlaylistsTouchOwnKey | functions/api/user/playlists.ts:10-137 | only the user's own record is written, a failed request writes nothing, no token gives 401 |
| PlaylistsApi.PlaylistsPostTwiceDuplicates | functions/api/user/playlists.ts:31-54 | creating does not check duplicates: posting twice stores the playlist twice |
| PlaylistsApi.PlaylistsBatchResetsVersion | functions/api/user/playlists.ts:62-75 | a batch upload replaces the list and resets the version to 1 |
| PlaylistsApi.PlaylistsFollowClient | functions/api/user/playlists.ts:31-134 | create, rename and delete requests leave the stored list equal to the local one |
| PlaylistsApi.FindUniqueId | src/store/useAppStore.ts:308 | with distinct ids `find` returns the one playlist with the id |
| PlaylistsApi.ToggleThenPatchAgree | functions/api/user/playlists.ts:84-86 | merging the toggled playlist into the stored list by id gives the toggled list |
| PlaylistsApi.PutPlaylistMerges | functions/api/user/playlists.ts:78-97 | a PUT of a whole playlist with a non-empty id merges it by id into the stored list |
| PlaylistsApi.PlaylistsFollowSongToggle | src/store/useAppStore.ts:280-311 | the request a song toggle sends leaves the stored list equal to the local one |
| HistoryApi.ReadHistory | functions/api/user/history.ts:22 | the stored plays, or none when nothing is stored |
| HistoryApi.Prepend | functions/api/user/history.ts:25-26 | the new play goes first, the older ones follow in order, at most 100 are kept |
| HistoryApi.HandleHistory | functions/api/user/history.ts:4-43 | the worker's handler has exactly the response and effect of the handler function |
| HistoryApi.HistoryTouchOwnKey | functions/api/user/history.ts:4-43 | only the user's own history is changed, a failed request changes nothing, no token gives 401 |
| HistoryApi.HistoryClearThenRead | functions/api/user/history.ts:12-40 | after a clear, a read gives an empty history |
| HistoryApi.HistoryStaysNewestFirst | functions/api/user/history.ts:25-26 | plays recorded in time order stay newest first |
| HistoryApi.HistoryIsBounded | functions/api/user/history.ts:19-35 | recording a play leaves at most 100 plays, the new one first |

## Left out

- Rendering, animation frames, the sleep timer, media-session metadata, quality selection and URL building are not part of this model. They do not change the state modelled here.
- Timers are not modelled as time. The 2-second return to idle is the separate `SyncStore.DataStore.ResetIdle`; the 5-second save interval is `Clock.ProgressClock.SaveProgress`, called at any moment.
- Network calls (`src/services/sync.ts`, the search API) are not part of this model. Their results are parameters: a `RemoteOutcome`, a `PullOutcome` or a `SearchResponse`.
- Token signing and verification (`functions/api/utils/auth.ts`) are not modelled. A request carries the verified user or None.
- JSON is not modelled. Request bodies arrive decoded as `Kv.Body`, and a body that does not parse is `Unparsable`. The body kinds are those the client sends: a track, a playlist, a `{ songs }` list, or a playlist update. A POST whose body is not of the kind the endpoint stores gets 500; JavaScript would store whatever object arrived. A playlists PUT with a track body merges only the track's `id` and `name`, and drops its other fields.
- Stored records arrive decoded too. A stored value of the wrong shape is `Unreadable`, and a write on top of it gives 500 instead of a JavaScript exception.
- Local storage persistence of the store and of the search history is not modelled. Nor are the extra fields of a local playlist (cover, creation time).
- Lyric parsing (`parseLyrics`) is not modelled. `Lyrics.LyricSync.LoadLyrics` takes the parsed table as a parameter.
- Floating point is not modelled: times, volumes and draws are exact reals. `Clock.VolumeUp` and `Clock.VolumeDown`: repeated 0.1 steps are exact here, whereas in IEEE doubles they can miss 1.0 or 0.0 by a rounding error.
- Queue.Player.NextSong and Queue.Player.HandleEnded: the shuffle loop draws from a finite supplied sequence. Termination is required of the caller (`ShuffleDrawsOk`), where the real loop relies on `Math.random()` eventually drawing another index.
- React batching and the gap between state and refs are not modelled. Each handler acts on the latest state, as `nextSong` does through its refs, and the play and pause events of the audio element are taken to update `isPlaying` at once.
- Play/pause toggling is not modelled. It only starts or pauses the audio element.
- Queue.Player.ViewPlay: the `play()` of a rewound track is taken to succeed; its rejection handler, which sets `isPlaying` to false, is not modelled.
- Real concurrency is not modelled. Interleavings of library actions are modelled by calling the begin and complete halves of actions in any order, and the lemmas state what such orders produce.
- Login, registration and the search API itself are not part of this model.
- FavoritesApi.FavoritesFollowToggle: the removal request is given as already parsed query parameters. `src/services/sync.ts` puts the id and platform into the URL without encoding them, so an id containing `&`, `#`, `+` or `%` reaches the server altered; the lemma does not cover that.
