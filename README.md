# Spotload core, modelled in Dafny

Spotload is a desktop tool. It lists a user's Spotify playlists, looks each
track up on YouTube with yt-dlp, and saves it as a tagged mp3. Around the
threads and widgets sits a sequential core, which this project models and
proves properties of:

- **Track state store** (`app_state.dfy`, module `AppState`). The `Store`
  class holds the track map and the pending queue. Each mutator is specified
  by a pure function on a `Snapshot` of that data. The queue stays free of
  duplicates.
- **Download controller** (`download_controller.dfy`). It does four things:
  - derives track ids with Python truthiness;
  - translates worker events into store mutations;
  - enqueues single tasks and batches;
  - cancels everything.
- **Downloader** (`downloader.dfy`). It covers:
  - what `_do_task` computes for one task: the output directory, the file
    name, the skip-existing short-circuit and the error classification;
  - the worker loop, which turns every task into exactly one event;
  - the worker count;
  - the stop sentinels.

  yt-dlp, the file system and the tagger are represented by a `TaskEnv`
  input per task.
- **Helpers** (`utils.dfy`):
  - `sanitize_filename`;
  - the 1000-entry cap that `save_history` applies to the download list;
  - the default merge of `load_config`;
  - the message rule of `is_transient_network_error`.
- **Spotify client** (`spot_client.dfy`):
  - the credential guard of `ensure_client`;
  - the bounded retry loop with wait `1 + 2^k` after attempt `k`;
  - page accumulation, which skips entries without a track.

  Every remote call is an abstract outcome given as input. The sleeps are
  the list of waits returned.
- **UI bookkeeping** (`ui.dfy`):
  - track metadata normalisation;
  - the download tasks built for a playlist or a selection;
  - what the event poll records in the history and how it moves the
    progress counter;
  - the text of the Extended M3U export (`#EXTM3U` header, then an
    `#EXTINF` line and a file line for each track).

`common.dfy` holds the Python value rules the program relies on: truthiness,
`str()`, `lower()`, `in` on strings and `", ".join`.

Source paths below are relative to the repository root.

## Model

| member | source | states |
|---|---|---|
| AppState.RemoveFirst | spotcomps/app_state.py:121 | `list.remove` of a present id drops its first occurrence and keeps the others in order; an absent id leaves the list as it is |
| AppState.Enqueued | spotcomps/app_state.py:105-111 | a new id is appended; only a newly appended id that has a record becomes `queued`; an already queued id changes nothing; no other record changes |
| AppState.Dequeued | spotcomps/app_state.py:118-121 | a queued id is removed at one position with the rest kept in order; an absent id changes nothing; records untouched |
| AppState.StatusUpdated | spotcomps/app_state.py:81-93 | unknown id: no change; known id: exactly the non-None fields are overwritten, identity fields and every other record kept, queue untouched |
| AppState.TrackAdded | spotcomps/app_state.py:72-74 | the record is stored under its own id, the key set grows by that id only, other records and the queue are kept |
| AppState.NoDuplicatesCount | spotcomps/app_state.py:105-108 | in a duplicate-free queue an id occurs once if present and zero times otherwise |
| AppState.EnqueueOccursOnce | spotcomps/app_state.py:105-108 | after `enqueue(id)` the id occurs in the queue exactly once and the queue stays duplicate-free |
| AppState.EnqueueIdempotent | spotcomps/app_state.py:105-111 | a second `enqueue` of the same id leaves tracks and queue unchanged |
| AppState.DequeueRemoves | spotcomps/app_state.py:118-121 | on a duplicate-free queue, after `dequeue(id)` the id is gone and the queue stays duplicate-free |
| AppState.DequeueKeepsOthers | spotcomps/app_state.py:118-121 | `dequeue(id)` keeps every other queued id |
| AppState.MutatorsKeepNoDuplicates | spotcomps/app_state.py:72-130 | enqueue, dequeue, status update and add_track all preserve a duplicate-free queue |
| AppState.Store.constructor | spotcomps/app_state.py:23-27 | the store starts with no tracks and an empty queue |
| AppState.Store.SetTracks | spotcomps/app_state.py:63-65 | the map is replaced wholesale, the queue kept, the invariant kept |
| AppState.Store.AddTrack | spotcomps/app_state.py:72-74 | the new state is `TrackAdded` of the old one, the invariant kept |
| AppState.Store.UpdateTrackStatus | spotcomps/app_state.py:81-93 | the new state is `StatusUpdated` of the old one, the invariant kept |
| AppState.Store.Enqueue | spotcomps/app_state.py:105-111 | the new state is `Enqueued` of the old one, the invariant kept |
| AppState.Store.Dequeue | spotcomps/app_state.py:118-121 | the new state is `Dequeued` of the old one, the invariant kept |
| AppState.Store.ClearQueue | spotcomps/app_state.py:128-130 | the queue is empty and the records are untouched |
| DownloadController.EventTrackId | spotcomps/download_controller.py:52 | the event id is the `str` of the first truthy of meta id, idx, uri and track id, else `track-<idx>` |
| DownloadController.EnqueueTrackId | spotcomps/download_controller.py:76 | the enqueue id is the `str` of the meta id if truthy, else of the task index |
| DownloadController.IdsAgree | spotcomps/download_controller.py:52-76 | the two derivations agree whenever the meta id is truthy or the index is not 0 |
| DownloadController.IdsDifferAtZero | spotcomps/download_controller.py:52-76 | at index 0 with no id, uri or track id, enqueue uses `"0"` but events use `"track-0"` |
| DownloadController.EscapedEventId | spotcomps/download_controller.py:52 | an event from the worker's exception path (no idx) is keyed `"track-None"`, which is never the id the same task was queued under when the task has no meta id |
| DownloadController.ErrorText | spotcomps/download_controller.py:65 | the first truthy of the event's error, its reason and its kind name, so never empty for a known kind |
| DownloadController.Handled | spotcomps/download_controller.py:48-68 | each event kind maps onto the store mutations of its branch; any other kind leaves the state unchanged |
| DownloadController.ProgressEvent | spotcomps/download_controller.py:54-56 | progress marks the record downloading with the event's value (default 0.0) and keeps the queue |
| DownloadController.CompletedEvent | spotcomps/download_controller.py:60-63 | completed marks the record completed with progress 1.0 and the path (the old one when the event has none), keeps any earlier error, and removes the id from the queue |
| DownloadController.FailureEvent | spotcomps/download_controller.py:64-67 | a failure kind marks the record failed with the first truthy of error, reason and kind name (never empty), keeps its path and progress, and removes the id |
| DownloadController.FirstTrackStaysQueued | spotcomps/download_controller.py:52-78 | because of the index-0 mismatch, completing the first track of a playlist leaves `"0"` in the queue |
| DownloadController.HandledAll | spotcomps/download_controller.py:31-47 | draining events in channel order creates or drops no record and adds no id to the queue |
| DownloadController.HandledAllKeepsNoDuplicates | spotcomps/download_controller.py:31-68 | handling any sequence of events keeps the queue duplicate-free |
| DownloadController.EnqueuedAllQueue | spotcomps/download_controller.py:80-82 | after a batch every id is queued exactly once, the old queue is a prefix, and nothing else joins |
| DownloadController.EnqueuedAll | spotcomps/download_controller.py:80-82 | definition of `enqueue` applied over a batch in input order; `EnqueuedAllQueue` states the resulting queue |
| DownloadController.MarkCancelled | spotcomps/download_controller.py:105-106 | the cancel loop's updates keep the queue and the set of recorded ids; their effect on records is in `MarkCancelledEffect` |
| DownloadController.MarkCancelledEffect | spotcomps/download_controller.py:105-106 | every listed id with a record ends failed/"cancelled" with its other fields kept; other records and the queue are untouched |
| DownloadController.CancelAllOutcome | spotcomps/download_controller.py:104-107 | after cancel_all every queued record is failed/"cancelled" and unqueued records are unchanged |
| DownloadController.Controller.constructor | spotcomps/download_controller.py:18-29 | a fresh pool over the config with empty channels and no stop flag set |
| DownloadController.Controller.HandleEvent | spotcomps/download_controller.py:48-68 | the store ends in `Handled` of its old state, the invariant kept |
| DownloadController.Controller.Listen | spotcomps/download_controller.py:31-47 | the waiting events are handled in channel order and the channel is drained; after stop nothing happens |
| DownloadController.Controller.Enqueue | spotcomps/download_controller.py:70-78 | the id is queued in the store, then the pool's `Enqueue` appends the task to its channel; the pool's events, workers and stop flag are kept |
| DownloadController.Controller.EnqueueBatch | spotcomps/download_controller.py:80-82 | the store ends as the in-order batch enqueue; the channel gets every task in input order |
| DownloadController.Controller.CancelAll | spotcomps/download_controller.py:84-107 | both stop flags set, the task channel empty, the queue empty, records as `MarkCancelled` of the old queue |
| DownloadController.Controller.Shutdown | spotcomps/download_controller.py:109-110 | shutdown establishes what cancel_all does |
| Downloader.WorkerCount | spotcomps/downloader.py:29 | `max(1, int(concurrency))` with default 3; undefined exactly where `int()` raises |
| Downloader.OutDir | spotcomps/downloader.py:65-69 | the base directory, then the sanitised artist only if organising and non-empty, then the sanitised album likewise |
| Downloader.Suffix | spotcomps/downloader.py:102 | `PurePath.suffix`: empty, or a dot-led tail of at least two characters of the name |
| Downloader.SuffixAtLastDot | spotcomps/downloader.py:102 | the suffix is the tail from the last dot, which holds no other dot; it is non-empty exactly when that dot is neither the first nor the last character |
| Downloader.SafeName | spotcomps/downloader.py:72 | the sanitised `"<artists> - <title>"`: at most 240 characters, none of them illegal |
| Downloader.Mp3Path | spotcomps/downloader.py:73 | the default target ends in the safe name followed by `.mp3` |
| Downloader.DoTask | spotcomps/downloader.py:54-126 | a non-string `output_dir` raises the `Path` type error before anything else; `_do_task` raises exactly then or when setting up the directory fails; otherwise it puts one completion or failure event carrying the task's idx, total and meta |
| Downloader.FirstMp3 | spotcomps/downloader.py:102-103 | the first candidate whose suffix lowercases to `.mp3`, no earlier one qualifying |
| Downloader.FinalPath | spotcomps/downloader.py:101-103 | the first mp3 candidate in the output dir, else the default `<safe_name>.mp3` target |
| Downloader.FinalPathIsMp3 | spotcomps/downloader.py:72-103 | both the default target and the found file name end in `.mp3`, ignoring case |
| Downloader.IsMp3 | spotcomps/downloader.py:102 | definition of `p.suffix.lower() == ".mp3"`; `IsMp3Names` characterises it |
| Downloader.IsMp3Names | spotcomps/downloader.py:102 | a name whose last dot is followed by `ext` counts exactly when the text before that dot is not empty and `ext` lowercases to `mp3` |
| Downloader.ClassifyDownloadError | spotcomps/downloader.py:111-119 | unavailable/not available wins over private/deleted, which wins over the generic error carrying the original text |
| Downloader.ClassifyOtherError | spotcomps/downloader.py:120-126 | a mention of ffmpeg in any case gives `ffmpeg_missing` with the lowercased text, anything else `failed` with the original text |
| Downloader.WorkerEvent | spotcomps/downloader.py:44-126 | one task gives one completion or failure event with the task's meta; an exception before the download (a non-string `output_dir`, or a failing directory setup) gives a `failed` event with its text and no idx |
| Downloader.SkipExistingShortCircuits | spotcomps/downloader.py:75-78 | an existing target with skip_existing unset or truthy completes with that path, whatever the download would have done |
| Downloader.CompletedPathIsMp3 | spotcomps/downloader.py:75-108 | every completed event names a file ending in `.mp3` |
| Downloader.WorkerEvents | spotcomps/downloader.py:38-52 | a run yields exactly one event per task, the i-th carrying the i-th task's meta, each a completion or a failure |
| Downloader.LeadingTasks | spotcomps/downloader.py:38-45 | the tasks a worker takes before the first sentinel, in channel order |
| Downloader.WorkerNames | spotcomps/downloader.py:30-33 | one thread name per worker |
| Downloader.Downloader.constructor | spotcomps/downloader.py:20-33 | `WorkerNames(WorkerCount(cfg))`: at least one worker, empty channels, stop unset |
| Downloader.Downloader.Enqueue | spotcomps/downloader.py:35-36 | the task is appended to the channel, nothing else changes |
| Downloader.Downloader.WorkerStep | spotcomps/downloader.py:38-52 | one turn: exit on stop or on a sentinel; a timed-out get changes nothing; a task yields exactly its one event |
| Downloader.Downloader.RunWorker | spotcomps/downloader.py:38-52 | the worker handles the leading tasks, emits `WorkerEvents` of them, and consumes the first sentinel |
| Downloader.Downloader.Stop | spotcomps/downloader.py:128-132 | the stop flag is set and exactly one sentinel per worker is appended |
| Utils.Strip | spotcomps/utils.py:36 | `str.strip()`: a contiguous part with only whitespace cut at either end |
| Utils.RemoveIllegal | spotcomps/utils.py:37 | none of the nine characters backslash, slash, star, question mark, colon, double quote, less, greater and bar remains and the result is no longer than the input |
| Utils.SanitizeFilename | spotcomps/utils.py:33-38 | `""` for `""`; at most 240 characters, none illegal; a prefix of the stripped and cleaned input, all of it when that fits |
| Utils.RemoveIllegalAppend | spotcomps/utils.py:37 | the deletion distributes over concatenation, so legal characters keep their order |
| Utils.RemoveIllegalCounts | spotcomps/utils.py:37 | every legal character is kept as often as it occurs; illegal ones vanish |
| Utils.RemoveIllegalKeepsLegal | spotcomps/utils.py:37 | a name without illegal characters passes unchanged |
| Utils.StripUnchanged | spotcomps/utils.py:36 | a string with no whitespace at either end is its own strip |
| Utils.SanitizeDropsSeparators | spotcomps/utils.py:31-38 | `sanitize_filename("A/B:C") == "ABC"` |
| Utils.SanitizeTruncates | spotcomps/utils.py:38 | a 300-character legal name keeps its first 240 characters |
| Utils.SanitizeNotIdempotent | spotcomps/utils.py:36-38 | strip runs before deletion, so `"a *"` sanitises to `"a "` and then to `"a"` |
| Utils.History.constructor | spotcomps/utils.py:71-72 | the fallback history has empty download and failure lists |
| Utils.Capped | spotcomps/utils.py:76-77 | at most 1000 entries, namely the last ones in order; a short list is unchanged |
| Utils.CappedAppend | spotcomps/utils.py:76-77 | capping after every append keeps the same entries as capping once at the end |
| Utils.SaveHistory | spotcomps/utils.py:74-81 | downloads become `Capped` of the old list; failures are never truncated |
| Utils.FirstWins | spotcomps/utils.py:52-53 | every default key is present and each value is one given for its key |
| Utils.SetDefaults | spotcomps/utils.py:52-53 | the `setdefault` loop gives the defaults overridden by the existing entries |
| Utils.LoadConfig | spotcomps/utils.py:44-56 | every default key is present and stored values are never overwritten; with no file or an unreadable one, exactly the defaults |
| Utils.Defaults | spotcomps/utils.py:18-29 | the ten `DEFAULTS` pairs in declaration order, with `home` for `Path.home()`; `LoadConfig` states that each of their keys ends up present |
| Utils.IsTransientMessage | spotcomps/utils.py:106-108 | definition of the message rule; its properties are `TransientMessageIgnoresCase` and `TransientMessageWithin` |
| Utils.TransientMessageWithin | spotcomps/utils.py:106-108 | the phrases are looked for anywhere: a transient message stays transient with any text around it |
| Utils.TransientMessageIgnoresCase | spotcomps/utils.py:106-108 | the message rule gives the same answer for a message and its lowercase |
| Common.ContainsWithin | spotcomps/utils.py:107 | a substring of the middle part of a string is a substring of the whole |
| Common.ContainsAt | spotcomps/utils.py:107 | `sub in s` holds exactly when `sub` occurs at some position of `s` |
| SpotClient.Retry | spotcomps/spotClient.py:41-57 | definition of the retry loop from attempt `a`; its properties are `RetryWaits`, `RetryEarlierTransient`, `RetryLastAttempt`, `DefaultRetrySchedule` and `DefaultRetryExhausted` |
| SpotClient.IsTransient | spotcomps/utils.py:92-109 | definition of `is_transient_network_error`: the exception-class test, given as a flag, or the message rule `Utils.IsTransientMessage`; `RetryEarlierTransient` and `RetryLastAttempt` state how it steers the retries |
| SpotClient.Backoff | spotcomps/spotClient.py:50-51 | definition of the `1 + 2 ** attempt` wait; `BackoffDoubles` and `RetryWaits` state its values |
| SpotClient.BackoffDoubles | spotcomps/spotClient.py:83 | the first wait is 2 seconds, and the part beyond the base second doubles from one retry to the next |
| SpotClient.DefaultRetrySchedule | spotcomps/spotClient.py:36-57 | with the default `max_retries` of 4 the loop always makes an attempt and waits at most 2, 3 and 5 seconds, in that order |
| SpotClient.DefaultRetryExhausted | spotcomps/spotClient.py:36-57 | with the default `max_retries` of 4, three transient failures followed by a fourth failure give exactly the waits 2, 3 and 5 and propagate the fourth failure |
| SpotClient.RetryWaits | spotcomps/spotClient.py:41-57 | the loop gives up without an attempt exactly when `max_retries <= 0`; it makes at most `max_retries` attempts; the wait after attempt k is `1 + 2^k` |
| SpotClient.RetryEarlierTransient | spotcomps/spotClient.py:47-55 | every attempt that was retried raised a transient failure |
| SpotClient.RetryLastAttempt | spotcomps/spotClient.py:47-55 | the last attempt returned the result or raised the propagated failure, which is non-transient or came on the last permitted attempt |
| SpotClient.Pages | spotcomps/spotClient.py:59-67 | definition of the page loop; its properties are `PagesOfChain` and `PagesOutcome` |
| SpotClient.PagesOfChain | spotcomps/spotClient.py:59-67 | over linked pages the result is every page's items concatenated in page order |
| SpotClient.PagesOutcome | spotcomps/spotClient.py:59-67 | pagination raises no error of its own, propagates only a failure of some `next` call, and starts with the first page's items |
| SpotClient.PresentAppend | spotcomps/spotClient.py:93-96 | the kept tracks of two runs of entries are the kept tracks of each, in order |
| SpotClient.PresentMembers | spotcomps/spotClient.py:93-96 | a track is kept exactly when some entry holds it; nothing is added |
| SpotClient.Present | spotcomps/spotClient.py:93-96 | definition of the `if t:` filter over the page entries; `PresentMembers` and `PresentAppend` state what it keeps |
| SpotClient.FetchGuards | spotcomps/spotClient.py:36-57 | the credential error comes, without waiting, exactly when there is no client and none can be made; past it, `max_retries <= 0` raises the retries error |
| SpotClient.FetchOutcome | spotcomps/spotClient.py:36-101 | definition of a whole fetch: the client guard, the retry loop, the `results is None` check and the page loop; `FetchGuards` states its error cases, and the two fetch methods are proved equal to it |
| SpotClient.CollectPages | spotcomps/spotClient.py:59-67 | the page loop returns the pagination outcome |
| SpotClient.AppendPresent | spotcomps/spotClient.py:93-96 | one page's loop appends exactly the entries whose track is set, in order |
| SpotClient.CollectTracks | spotcomps/spotClient.py:91-101 | the page loop returns the pagination outcome with unset tracks skipped |
| SpotClient.SpotifyClient.constructor | spotcomps/spotClient.py:12-14 | starts without a client |
| SpotClient.SpotifyClient.EnsureClient | spotcomps/spotClient.py:16-34 | succeeds exactly with both credentials and a working auth; without credentials the client stays as it was |
| SpotClient.SpotifyClient.RetryLoop | spotcomps/spotClient.py:41-55 | the loop's result and waits are those of `Retry`; the client survives unless a reconnect failed |
| SpotClient.SpotifyClient.FetchUserPlaylists | spotcomps/spotClient.py:36-67 | the outcome and waits are those of `FetchOutcome` for playlists |
| SpotClient.SpotifyClient.FetchPlaylistItems | spotcomps/spotClient.py:69-101 | the outcome is `FetchOutcome` for items with falsy tracks skipped |
| Ui.BeforeDash | spotcomps/ui.py:226 | `split("-")[0]`: the longest dash-free prefix |
| Ui.Normalized | spotcomps/ui.py:216-234 | the metadata built for a track carries no id, uri or track id |
| Ui.NormalizedYear | spotcomps/ui.py:223-226 | no year exactly when the release date is empty or missing; otherwise the text before its first dash |
| Ui.NormalizedYearExample | spotcomps/ui.py:226 | the date `1999-12-31` gives year `1999` |
| Ui.NormalizedFields | spotcomps/ui.py:220-233 | cover url from the first image or none; artist names in order; absent texts become `""` and the duration 0 |
| Ui.Metas | spotcomps/ui.py:549-550 | the metadata of the track items in key order |
| Ui.BulkTasks | spotcomps/ui.py:437-442 | one task per track in key order, each with total = number of tracks |
| Ui.SelectedTasks | spotcomps/ui.py:422-427 | every task is a selected key with a track, that track's meta and total = number of tracks |
| Ui.TaskFor | spotcomps/ui.py:423-426 | a row key inside the list gives exactly one task, with that row's meta and total = number of tracks; a key outside it gives none |
| Ui.Marked | spotcomps/ui.py:422-427 | exactly the selected rows are marked queued, their tracks unchanged |
| Ui.SelectedTasksCover | spotcomps/ui.py:422-427 | every selected key that has a track gets its task |
| Ui.QueueSelected | spotcomps/ui.py:422-426 | one turn of the selection loop: a key naming a row hands the pool that row's task (`TaskFor`) and marks the row queued, a key past the list does neither, and the pool's other fields are kept |
| Ui.QueueSelection | spotcomps/ui.py:421-426 | the selection loop hands the pool exactly `SelectedTasks`, through its `Enqueue`, marks the rows as `Marked` says, and keeps the pool's events, workers and stop flag |
| Ui.Polled | spotcomps/ui.py:451-518 | definition of one event of the poll; its properties are `CompletedEntry`, `FailureEntry` and `UnrecordedEvent` |
| Ui.CompletedEntry | spotcomps/ui.py:451-460 | a completion ends the download list with one `Downloaded` entry within the cap and leaves failures alone |
| Ui.FailureEntry | spotcomps/ui.py:500-514 | a recorded failure appends one entry with Unavailable / Private/Deleted / DownloadError / Failed per kind and the event's error |
| Ui.FailedStatus | spotcomps/ui.py:500-506 | definition of `status_map` over the four failure kinds; `FailureEntry` states that each kind gets its own status and `UnrecordedEvent` that the other kinds add nothing |
| Ui.UnrecordedEvent | spotcomps/ui.py:476-531 | ffmpeg_missing, progress and other events add no entry and do not move the counter |
| Ui.PolledCounter | spotcomps/ui.py:461-518 | over a poll the counter moves by one per recorded event while a bulk total is set, not at all otherwise; failures only grow |
| Ui.PolledAll | spotcomps/ui.py:447-531 | definition of the drain as `Polled` applied to each event in channel order; `PolledCounter` and `BulkCounter` state its counter, and `PollEventQueue` is proved equal to it |
| Ui.KindCounts | spotcomps/ui.py:476-480 | every completion or failure event is either recorded or an ffmpeg report |
| Ui.BulkCounter | spotcomps/ui.py:437-529 | a bulk download reaches its total exactly when no event reports a missing ffmpeg; each such event leaves it one short |
| Ui.M3UNext | spotcomps/ui.py:549-555 | writing one more track appends its `#EXTINF` line and its file line |
| Ui.PairedShape | spotcomps/ui.py:548-555 | a header followed by two lines per item, in item order |
| Ui.ExtInf | spotcomps/ui.py:550-554 | definition of a track's `#EXTINF` line; `M3UShape` places it |
| Ui.FileLine | spotcomps/ui.py:550-555 | definition of a track's file line; `FileLineIsBareName` states its form |
| Ui.M3UShape | spotcomps/ui.py:548-555 | `#EXTM3U`, then for each track in order its `#EXTINF` line and its file line |
| Ui.M3ULines | spotcomps/ui.py:548-555 | definition of the lines written; `M3UShape`, `M3UNext` and `FileLineIsBareName` state their layout |
| Ui.FileLineIsBareName | spotcomps/ui.py:555 | each file line ends in `.mp3` and its stem has at most 240 characters, none illegal, so no separator |
| Ui.App.constructor | spotcomps/ui.py:35-71 | no tracks, no playlist, no progress window, counters zero, no cover |
| Ui.App.PopulateTracks | spotcomps/ui.py:207-246 | the track items are the normalised tracks in order, all idle; the cover is the first track's url when truthy, otherwise none |
| Ui.App.ShowDownloadProgress | spotcomps/ui.py:363-404 | an open window keeps its counters; otherwise the counter starts at 0 of `total` |
| Ui.App.HideDownloadProgress | spotcomps/ui.py:406-414 | the window closes and both counters reset |
| Ui.App.DownloadPlaylistAudio | spotcomps/ui.py:430-443 | warns without a playlist or tracks; otherwise enqueues `BulkTasks`, marks every row queued and shows progress |
| Ui.App.QueueDownloadSelected | spotcomps/ui.py:417-428 | warns exactly on an empty selection; enqueues `SelectedTasks` and marks the selected rows |
| Ui.App.Record | spotcomps/ui.py:449-529 | one event updates history and counter as `Polled` says |
| Ui.App.PollEventQueue | spotcomps/ui.py:446-532 | all waiting events are drained and recorded in channel order |
| Ui.App.ExportM3U | spotcomps/ui.py:535-558 | warns without a playlist, writes nothing on a cancelled dialog, and otherwise writes the `M3ULines` text |

## Where the code departs from what its docstrings and comments promise

The docstrings and comments describe a controller with safe, idempotent
APIs and a clean stop. The model follows the code in each of these places:

- A repeated submission of a queued id leaves the store's queue unchanged, but `enqueue` still hands the task to the downloader, so the track is downloaded again (`DownloadController.Controller.Enqueue`).
- The error classes are not one priority list: `unavailable` and `private` are looked for only in a yt-dlp `DownloadError`, `ffmpeg` only in any other exception (`Downloader.ClassifyDownloadError`).
- A completed event does not clear an earlier error, and a failed event does not clear an earlier path; a progress event stores whatever fraction it carries (`DownloadController.CompletedEvent`, `DownloadController.FailureEvent`).
- The event sent for an exception escaping `_do_task` has no `idx`, and an `idx` of 0 is falsy, so the event's track id can differ from the id the task was queued under (`DownloadController.IdsDifferAtZero`, `DownloadController.EscapedEventId`).
- `cancel_all` stops the listener, so events that running workers emit afterwards are never handled.
- The retry waits are `1 + 2^k` seconds after attempt `k`, not a doubling from one second (`SpotClient.RetryWaits`).

## Left out

- Threads, blocking `get` with timeout, `task_done`, the `threading.Event` wake-ups and the locks are not modelled. This includes the fresh `RLock` in `cancel_all`, which excludes nothing. Each loop is its sequential drain.
- The subscriber callbacks of the store, and the swallowing of their exceptions, are not modelled; they only observe.
- The progress modal and `_current_progress_key` are not modelled: `modal_manager.py` is not part of this model. The same goes for the modal's `int(perc * 100)`.
- Progress fractions and `min(1.0, done/total)` are floats; progress is a `real` that is only copied.
- yt-dlp, spotipy/OAuth, album-art HTTP and mp3 tagging (`tagging.py`) are foreign libraries. Their effect is an input:
  - `Attempt` covers the yt-dlp call and what follows it. Any non-`DownloadError` exception in that `try` block is `OtherException`, including one from the glob or the tagger.
  - `add_metadata` and `audio_quality` only shape the yt-dlp options and the tagging, so they are not modelled.
- The file system (`exists`, `ensure_dir`, `glob`), JSON reading and writing, `time.sleep`, `strftime` and logging are left out. Existence and glob results are inputs, the timestamp is the `now` parameter, the sleeps are the returned waits, and the M3U file is the returned text. A failing write or dialog is not modelled.
- Tkinter widgets, message boxes, listbox display strings, the loading modal and the `after` timers are not modelled. In particular, the `after(200, hide_download_progress)` scheduled when a bulk download completes is not modelled; `HideDownloadProgress` is the method it would call.
- `_poll_event_queue` rescheduling itself is not modelled: `PollEventQueue` is one drain.
- Common.Lower: lowercases ASCII letters only. Python's `str.lower` also folds non-ASCII letters, so the substring rules are exact only for ASCII text.
- Downloader.IntOf: reads an optional sign and ASCII digits. Python's `int()` also accepts surrounding whitespace, underscores, non-ASCII digits and floats; those inputs are not modelled.
- Downloader.JoinPath: joins with `/`. It does not do pathlib's normalisation (absolute or empty parts, `.` components, trailing separators).
- Downloader.Downloader.constructor: requires a `concurrency` that `int()` accepts. Where Python raises `ValueError`, the constructor is not available.
- Downloader.Downloader.RunWorker: a run ends when the channel is empty, where the real worker keeps polling. The pool's interleaving over several workers is not modelled.
- Downloader.Kind: `Other(name)` stands for a type string outside the known set. A name spelling a known kind is not meant to occur.
- Downloader.Downloader.Stop: joining the worker threads is not modelled.
- SpotClient.SpotifyClient.RetryLoop: one `authOk` decides every reconnect of a fetch, so a reconnect that fails once and then succeeds is not modelled.
- SpotClient.Track: an empty track dict `{}` is falsy in Python and skipped, but a present `Track` is always kept; a `null` `items` list, which raises a `TypeError` in `fetch_playlist_items`, is not modelled.
- SpotClient: JSON `null` and an absent key are both `None` in the Spotify objects. The `limit` argument only reaches the remote call, which is an input.
- Ui.Normalized: turns a `null` field into the fallback an absent key gets (`""` for the name and each artist name, 0 for the duration). Python keeps the `null` as `None`, with these effects the model does not capture:
  - a `null` track name becomes the text "None" in the safe name (downloader.py:59-72) and in the M3U lines (ui.py:551-555);
  - a `null` artist name makes `", ".join` raise a `TypeError`, in `_do_task` (downloader.py:59) and in the poll's history entry (ui.py:456);
  - a `null` `duration_ms` makes the M3U export raise a `TypeError` (ui.py:553);
  - a `null` `album` makes `_populate_tracks_task` raise an `AttributeError` (ui.py:221).
- Ui.App.PopulateTracks: takes the fetched tracks as a parameter. The fetch itself is `FetchPlaylistItems`, and its exceptions are reported by `run_in_background`, which is widget code.
- Ui.ExtInf: `int(duration_ms / 1000)` goes through a float. The model divides exactly and truncates toward zero, which differs only beyond 2^53 milliseconds.
- AppState.Store.SetTracks: the store keeps the caller's dict itself, and `add_track` keeps the caller's `TrackInfo` object. Records are values here, so a change made through an outside reference to that dict or object is not modelled. `StatusUpdated`'s "every other record unchanged" holds only when no such reference exists.
- Downloader.Downloader: its `cfg` is fixed at construction. In the app the pool holds the very dict the settings form rewrites (`organize_by_artist`, `skip_existing` and the others in `_save_settings`), and `_do_task` reads it afresh per task. A settings change between tasks is therefore not modelled; each task is read against the config as it was when the pool was built.
- Downloader.PathTypeError: stands for the `TypeError` text by its closing words, `not '<type>'`. The full wording differs between Python versions (3.12's `pathlib` says "argument should be a str or an os.PathLike object where __fspath__ returns a str, not 'NoneType'").
- SpotClient.SpotifyClient.FetchUserPlaylists: `max_retries` is a parameter. Every call in the app uses the default of 4; `DefaultRetrySchedule` and `DefaultRetryExhausted` state what the loop does under it. The same holds for `SpotClient.SpotifyClient.FetchPlaylistItems`.
- `AppState.set_playlists`, `playlists` and `loading` are not modelled: no core operation reads them.
