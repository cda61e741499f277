/** The bookkeeping of `spotcomps/ui.py` that is not widget code: track
    metadata normalisation, task construction for downloads, the event
    poll's history entries and progress counter, and the M3U export text.
    Dialogs, message boxes, log lines and timers are not modelled; where
    they decide the path taken, they are parameters or results. */
module Ui {
  import opened Common
  import Utils
  import D = Downloader
  import S = SpotClient

  // Metadata normalisation (`_populate_tracks_task`)

  /** `s.split("-")[0]`: the text before the first `-`. */
  function BeforeDash(s: string): (r: string)
    ensures r <= s
    ensures '-' !in r
    ensures |r| < |s| ==> s[|r|] == '-'
    decreases |s|
  {
    if s == [] || s[0] == '-' then [] else [s[0]] + BeforeDash(s[1..])
  }

  /** The album as `t.get("album", {})` sees it. */
  function AlbumOf(t: S.Track): S.Album {
    t.album.GetOr(S.Album(None, [], None))
  }

  function ReleaseDate(t: S.Track): string {
    AlbumOf(t).releaseDate.GetOr("")
  }

  /** The metadata dict built for one Spotify track; it carries no id, uri
      or track id. */
  function Normalized(t: S.Track): (m: D.Meta)
    ensures m.id == Null && m.uri == Null && m.trackId == Null
  {
    var album := AlbumOf(t);
    D.Meta(
      Null, Null, Null,
      Some(t.name.GetOr("")),
      seq(|t.artists|, i requires 0 <= i < |t.artists| => t.artists[i].name.GetOr("")),
      album.name.GetOr(""),
      t.durationMs.GetOr(0),
      if album.images != [] then album.images[0].url else None,
      if ReleaseDate(t) != "" then Some(BeforeDash(ReleaseDate(t))) else None)
  }

  /** The year is the part of the release date before its first `-`, and
      there is none exactly when the release date is empty or missing. */
  lemma NormalizedYear(t: S.Track)
    ensures Normalized(t).year.None? <==> ReleaseDate(t) == ""
    ensures Normalized(t).year.Some? ==>
      var y, d := Normalized(t).year.value, ReleaseDate(t);
      y <= d && '-' !in y && (|y| < |d| ==> d[|y|] == '-')
  {
  }

  /** A release date `YYYY-MM-DD` gives its year. */
  lemma NormalizedYearExample(t: S.Track)
    requires ReleaseDate(t) == "1999-12-31"
    ensures Normalized(t).year == Some("1999")
  {
    assert BeforeDash("-12-31") == [];
    assert BeforeDash("9-12-31") == "9";
    assert BeforeDash("99-12-31") == "99";
    assert BeforeDash("999-12-31") == "999";
    assert BeforeDash("1999-12-31") == "1999";
  }

  /** The cover url is the first image's url, or none without images; the
      artists are the artist names in order; absent texts become `""`. */
  lemma NormalizedFields(t: S.Track)
    ensures var m := Normalized(t);
      && (AlbumOf(t).images == [] ==> m.albumArtUrl.None?)
      && (AlbumOf(t).images != [] ==> m.albumArtUrl == AlbumOf(t).images[0].url)
      && |m.artists| == |t.artists|
      && (forall i :: 0 <= i < |t.artists| ==> m.artists[i] == t.artists[i].name.GetOr(""))
      && m.title == Some(t.name.GetOr(""))
      && m.album == AlbumOf(t).name.GetOr("")
      && m.durationMs == t.durationMs.GetOr(0)
  {
  }

  datatype ItemState = Idle | QueuedItem

  /** One entry of `track_items`; its key is its position. */
  datatype TrackItem = TrackItem(meta: D.Meta, state: ItemState)

  function Metas(items: seq<TrackItem>): (ms: seq<D.Meta>)
    ensures |ms| == |items|
    ensures forall i :: 0 <= i < |items| ==> ms[i] == items[i].meta
  {
    seq(|items|, i requires 0 <= i < |items| => items[i].meta)
  }

  // Task construction (`download_playlist_audio`, `queue_download_selected`)

  /** One task per track, in key order, each with the number of tracks as
      `total`. */
  function BulkTasks(items: seq<TrackItem>): (ts: seq<Option<D.Task>>)
    ensures |ts| == |items|
    ensures forall i :: 0 <= i < |items| ==> ts[i] == Some(D.Task(i, items[i].meta, |items|))
  {
    seq(|items|, i requires 0 <= i < |items| => Some(D.Task(i, items[i].meta, |items|)))
  }

  /** The task the row key `i` queues: one for a row of the list, none for a
      key past its ends. */
  function TaskFor(items: seq<TrackItem>, i: int): (ts: seq<Option<D.Task>>)
    ensures |ts| <= 1 && (ts != [] <==> 0 <= i < |items|)
    ensures ts != [] ==> ts[0] == Some(D.Task(i, items[i].meta, |items|))
  {
    if 0 <= i < |items| then [Some(D.Task(i, items[i].meta, |items|))] else []
  }

  /** The tasks of a selection: one per selected key that has a track,
      in selection order. */
  function SelectedTasks(items: seq<TrackItem>, sel: seq<int>): (ts: seq<Option<D.Task>>)
    ensures |ts| <= |sel|
    ensures forall t :: t in ts ==> t.Some? && 0 <= t.value.idx < |items| && t.value.meta == items[t.value.idx].meta
                                    && t.value.total == |items| && t.value.idx in sel
    decreases |sel|
  {
    if sel == [] then []
    else
      var i := sel[|sel| - 1];
      var rest := SelectedTasks(items, sel[..|sel| - 1]);
      if 0 <= i < |items| then rest + [Some(D.Task(i, items[i].meta, |items|))] else rest
  }

  /** Walking the selection one key further adds that key's task if it
      has a track. */
  lemma SelectedTasksNext(items: seq<TrackItem>, sel: seq<int>, j: nat)
    requires j < |sel|
    ensures SelectedTasks(items, sel[..j + 1]) == SelectedTasks(items, sel[..j]) + TaskFor(items, sel[j])
  {
    var p := sel[..j + 1];
    assert p[..|p| - 1] == sel[..j];
  }

  /** The track list after a selection is queued: exactly the selected
      rows are marked queued, their tracks unchanged. */
  function Marked(items: seq<TrackItem>, sel: seq<int>): (r: seq<TrackItem>)
    ensures |r| == |items|
    ensures forall k :: 0 <= k < |items| ==> r[k] == if k in sel then items[k].(state := QueuedItem) else items[k]
  {
    seq(|items|, k requires 0 <= k < |items| => if k in sel then items[k].(state := QueuedItem) else items[k])
  }

  /** Walking the selection one key further marks that key's row, if any. */
  lemma MarkedNext(items: seq<TrackItem>, sel: seq<int>, j: nat)
    requires j < |sel|
    ensures var m := Marked(items, sel[..j]);
      Marked(items, sel[..j + 1]) == if 0 <= sel[j] < |items| then m[sel[j] := m[sel[j]].(state := QueuedItem)] else m
  {
    assert sel[..j + 1] == sel[..j] + [sel[j]];
    var m := Marked(items, sel[..j]);
    var m' := Marked(items, sel[..j + 1]);
    forall k | 0 <= k < |items|
      ensures m'[k] == if k == sel[j] then m[k].(state := QueuedItem) else m[k]
    {
      assert k in sel[..j + 1] <==> k in sel[..j] || k == sel[j];
    }
  }

  /** Every selected key that has a track gets a task. */
  lemma {:induction false} SelectedTasksCover(items: seq<TrackItem>, sel: seq<int>, i: int)
    requires i in sel && 0 <= i < |items|
    ensures Some(D.Task(i, items[i].meta, |items|)) in SelectedTasks(items, sel)
    decreases |sel|
  {
    if sel[|sel| - 1] != i {
      SelectedTasksCover(items, sel[..|sel| - 1], i);
    }
  }

  // Event poll (`_poll_event_queue`)

  /** The history lists and the bulk progress counter. */
  datatype Ledger = Ledger(downloads: seq<Utils.Entry>, failed: seq<Utils.Entry>, total: int, done: int)

  /** The history status recorded for a failure kind; `ffmpeg_missing` and
      the other kinds record nothing. */
  function FailedStatus(k: D.Kind): Option<string> {
    match k
    case VideoUnavailable => Some("Unavailable")
    case PrivateVideo => Some("Private/Deleted")
    case DownloadError => Some("DownloadError")
    case Failed => Some("Failed")
    case _ => None
  }

  /** The kinds that add a history entry and move the counter. */
  predicate Recorded(k: D.Kind) {
    k == D.Completed || FailedStatus(k).Some?
  }

  function EntryFor(ev: D.Event, status: string, now: string, error: Option<string>): Utils.Entry {
    Utils.Entry(ev.meta.title.GetOr(""), Join(ev.meta.artists, ", "), status, now, error)
  }

  function Tick(l: Ledger): Ledger {
    if l.total > 0 then l.(done := l.done + 1) else l
  }

  /** One event of the poll; `now` is the timestamp text. Every recorded
      event saves the history, which caps the download list. */
  function Polled(l: Ledger, ev: D.Event, now: string): Ledger {
    if ev.kind == D.Completed then
      Tick(l.(downloads := Utils.Capped(l.downloads + [EntryFor(ev, "Downloaded", now, None)])))
    else if FailedStatus(ev.kind).Some? then
      Tick(l.(failed := l.failed + [EntryFor(ev, FailedStatus(ev.kind).value, now, ev.error)],
              downloads := Utils.Capped(l.downloads)))
    else l
  }

  function PolledAll(l: Ledger, evs: seq<D.Event>, now: string): Ledger
    decreases |evs|
  {
    if evs == [] then l else PolledAll(Polled(l, evs[0], now), evs[1..], now)
  }

  lemma PolledAllStep(l: Ledger, evs: seq<D.Event>, n: nat, now: string)
    requires n < |evs|
    ensures PolledAll(l, evs[n..], now) == PolledAll(Polled(l, evs[n], now), evs[n + 1..], now)
  {
    assert evs[n..][0] == evs[n] && evs[n..][1..] == evs[n + 1..];
  }

  /** A completed event ends the download list with one `Downloaded` entry
      for its track, within the cap, and leaves the failure list alone. */
  lemma CompletedEntry(l: Ledger, ev: D.Event, now: string)
    requires ev.kind == D.Completed
    ensures var r := Polled(l, ev, now);
      && r.failed == l.failed
      && |r.downloads| > 0
      && r.downloads[|r.downloads| - 1] == Utils.Entry(ev.meta.title.GetOr(""), Join(ev.meta.artists, ", "), "Downloaded", now, None)
      && (|l.downloads| < Utils.MaxDownloads ==> r.downloads == l.downloads + [r.downloads[|r.downloads| - 1]])
      && |r.downloads| <= Utils.MaxDownloads
  {
    var s := l.downloads + [EntryFor(ev, "Downloaded", now, None)];
    var c := Utils.Capped(s);
    assert Polled(l, ev, now) == Tick(l.(downloads := c));
    assert |c| >= 1 && c == s[|s| - |c|..];
    assert c[|c| - 1] == s[|s| - 1];
  }

  /** A recorded failure appends exactly one entry to the failure list,
      with the status its kind maps to and the event's error. */
  lemma FailureEntry(l: Ledger, ev: D.Event, now: string)
    requires FailedStatus(ev.kind).Some?
    ensures var r := Polled(l, ev, now);
      && r.failed == l.failed + [Utils.Entry(ev.meta.title.GetOr(""), Join(ev.meta.artists, ", "),
                                             FailedStatus(ev.kind).value, now, ev.error)]
      && r.downloads == Utils.Capped(l.downloads)
      && (ev.kind == D.VideoUnavailable <==> FailedStatus(ev.kind) == Some("Unavailable"))
      && (ev.kind == D.PrivateVideo <==> FailedStatus(ev.kind) == Some("Private/Deleted"))
      && (ev.kind == D.DownloadError <==> FailedStatus(ev.kind) == Some("DownloadError"))
      && (ev.kind == D.Failed <==> FailedStatus(ev.kind) == Some("Failed"))
  {
  }

  /** `ffmpeg_missing`, progress and other events change no list and do
      not move the counter. */
  lemma UnrecordedEvent(l: Ledger, ev: D.Event, now: string)
    requires !Recorded(ev.kind)
    ensures Polled(l, ev, now) == l
  {
  }

  /** The number of events that move the counter. */
  function RecordedCount(evs: seq<D.Event>): nat
    decreases |evs|
  {
    if evs == [] then 0 else (if Recorded(evs[0].kind) then 1 else 0) + RecordedCount(evs[1..])
  }

  function FfmpegCount(evs: seq<D.Event>): nat
    decreases |evs|
  {
    if evs == [] then 0 else (if evs[0].kind == D.FfmpegMissing then 1 else 0) + FfmpegCount(evs[1..])
  }

  /** Over a poll, the total is kept, the counter moves by one per recorded
      event while a bulk download is shown, and not at all otherwise; the
      failure list grows by one per recorded failure. */
  lemma {:induction false} PolledCounter(l: Ledger, evs: seq<D.Event>, now: string)
    ensures PolledAll(l, evs, now).total == l.total
    ensures l.total > 0 ==> PolledAll(l, evs, now).done == l.done + RecordedCount(evs)
    ensures l.total <= 0 ==> PolledAll(l, evs, now).done == l.done
    ensures l.failed <= PolledAll(l, evs, now).failed
    decreases |evs|
  {
    if evs != [] {
      PolledCounter(Polled(l, evs[0], now), evs[1..], now);
    }
  }

  /** Completions and failures are either recorded or report a missing
      ffmpeg. */
  lemma {:induction false} KindCounts(evs: seq<D.Event>)
    requires forall i :: 0 <= i < |evs| ==> evs[i].kind == D.Completed || D.IsFailureKind(evs[i].kind)
    ensures RecordedCount(evs) + FfmpegCount(evs) == |evs|
    decreases |evs|
  {
    if evs != [] {
      assert forall i :: 0 <= i < |evs[1..]| ==> evs[1..][i] == evs[i + 1];
      KindCounts(evs[1..]);
    }
  }

  /** A bulk download of n tracks, whose workers put one event per task,
      brings the counter to exactly `total` when no event reports a missing
      ffmpeg; each such event leaves it one short for good. */
  lemma BulkCounter(cfg: map<string, Value>, items: seq<TrackItem>, envs: nat -> D.TaskEnv, now: string, l: Ledger)
    requires items != [] && l.total == |items| && l.done == 0
    ensures var tasks := D.LeadingTasks(BulkTasks(items));
      var evs := D.WorkerEvents(cfg, tasks, envs);
      && |tasks| == |items|
      && PolledAll(l, evs, now).done == l.total - FfmpegCount(evs)
      && (FfmpegCount(evs) == 0 <==> PolledAll(l, evs, now).done == PolledAll(l, evs, now).total)
  {
    var bulk := BulkTasks(items);
    var tasks := D.LeadingTasks(bulk);
    LeadingOfSome(bulk);
    var evs := D.WorkerEvents(cfg, tasks, envs);
    KindCounts(evs);
    PolledCounter(l, evs, now);
  }

  /** A channel without sentinels is taken whole. */
  lemma {:induction false} LeadingOfSome(q: seq<Option<D.Task>>)
    requires forall i :: 0 <= i < |q| ==> q[i].Some?
    ensures |D.LeadingTasks(q)| == |q|
    decreases |q|
  {
    if q != [] {
      LeadingOfSome(q[1..]);
    }
  }

  // M3U export (`_export_playlist_m3u`)

  function TitleText(m: D.Meta): string {
    m.title.GetOr("Unknown")
  }

  function ExtInf(m: D.Meta): string {
    "#EXTINF:" + IntToString(TruncDiv(m.durationMs, 1000)) + "," + D.ArtistText(m) + " - " + TitleText(m)
  }

  function FileLine(m: D.Meta): string {
    Utils.SanitizeFilename(D.ArtistText(m) + " - " + TitleText(m)) + ".mp3"
  }

  /** A header line, then a first and a second line for each item, in
      order. */
  function Paired<T>(head: string, xs: seq<T>, first: T -> string, second: T -> string): seq<string>
    decreases |xs|
  {
    if xs == [] then [head]
    else Paired(head, xs[..|xs| - 1], first, second) + [first(xs[|xs| - 1]), second(xs[|xs| - 1])]
  }

  /** The lines of the playlist file. */
  function M3ULines(ms: seq<D.Meta>): seq<string> {
    Paired("#EXTM3U", ms, ExtInf, FileLine)
  }

  /** Lines written one after another, each ended by a newline. */
  function Text(lines: seq<string>): string
    decreases |lines|
  {
    if lines == [] then "" else Text(lines[..|lines| - 1]) + lines[|lines| - 1] + "\n"
  }

  lemma TextAppend(lines: seq<string>, a: string, b: string)
    ensures Text(lines + [a, b]) == Text(lines) + a + "\n" + b + "\n"
  {
    var ls := lines + [a, b];
    assert ls[..|ls| - 1] == lines + [a];
    assert (lines + [a])[..|lines|] == lines;
  }

  /** Writing track `i` extends the text by its two lines. */
  lemma M3UNext(ms: seq<D.Meta>, i: nat)
    requires i < |ms|
    ensures Text(M3ULines(ms[..i + 1])) == Text(M3ULines(ms[..i])) + ExtInf(ms[i]) + "\n" + FileLine(ms[i]) + "\n"
  {
    assert ms[..i + 1][..i] == ms[..i];
    assert M3ULines(ms[..i + 1]) == M3ULines(ms[..i]) + [ExtInf(ms[i]), FileLine(ms[i])];
    TextAppend(M3ULines(ms[..i]), ExtInf(ms[i]), FileLine(ms[i]));
  }

  /** The header, then two lines per item in order. */
  lemma {:induction false} PairedShape<T>(head: string, xs: seq<T>, first: T -> string, second: T -> string)
    ensures |Paired(head, xs, first, second)| == 1 + 2 * |xs|
    ensures Paired(head, xs, first, second)[0] == head
    ensures forall k :: 0 <= k < |xs| ==>
              Paired(head, xs, first, second)[2 * k + 1] == first(xs[k])
              && Paired(head, xs, first, second)[2 * k + 2] == second(xs[k])
    decreases |xs|
  {
    if xs != [] {
      var pre, x := xs[..|xs| - 1], xs[|xs| - 1];
      PairedShape(head, pre, first, second);
      var lines := Paired(head, pre, first, second);
      var all := lines + [first(x), second(x)];
      assert Paired(head, xs, first, second) == all;
      forall k | 0 <= k < |xs| ensures all[2 * k + 1] == first(xs[k]) && all[2 * k + 2] == second(xs[k]) {
        if k < |pre| {
          assert xs[k] == pre[k];
          assert all[2 * k + 1] == lines[2 * k + 1] && all[2 * k + 2] == lines[2 * k + 2];
        }
      }
    }
  }

  /** The playlist file: the `#EXTM3U` header, then for each track in
      order its `#EXTINF` line and its file line. */
  lemma M3UShape(ms: seq<D.Meta>)
    ensures |M3ULines(ms)| == 1 + 2 * |ms|
    ensures M3ULines(ms)[0] == "#EXTM3U"
    ensures forall k :: 0 <= k < |ms| ==> M3ULines(ms)[2 * k + 1] == ExtInf(ms[k]) && M3ULines(ms)[2 * k + 2] == FileLine(ms[k])
  {
    PairedShape("#EXTM3U", ms, ExtInf, FileLine);
  }

  /** Each file line names a file in the playlist's own folder: no path
      separator or other illegal character before `.mp3`. */
  lemma FileLineIsBareName(m: D.Meta)
    ensures var f := FileLine(m); var stem := f[..|f| - 4];
      && f[|f| - 4..] == ".mp3"
      && (forall i :: 0 <= i < |stem| ==> !Utils.IllegalChar(stem[i]))
      && |stem| <= Utils.MaxNameLength
  {
    var stem := Utils.SanitizeFilename(D.ArtistText(m) + " - " + TitleText(m));
    assert FileLine(m)[..|FileLine(m)| - 4] == stem;
  }

  /** One turn of the selection loop: queue the row `sel[j]` names, if any,
      and mark it. */
  method QueueSelected(items: seq<TrackItem>, sel: seq<int>, j: nat, d: D.Downloader, marked: seq<TrackItem>)
    returns (marked': seq<TrackItem>)
    requires j < |sel| && marked == Marked(items, sel[..j])
    modifies d
    ensures marked' == Marked(items, sel[..j + 1])
    ensures d.taskQueue == old(d.taskQueue) + TaskFor(items, sel[j])
    ensures d.events == old(d.events) && d.workers == old(d.workers) && d.stopFlag == old(d.stopFlag)
  {
    MarkedNext(items, sel, j);
    var i := sel[j];
    marked' := marked;
    if 0 <= i < |items| {
      d.Enqueue(D.Task(i, items[i].meta, |items|));
      marked' := marked[i := marked[i].(state := QueuedItem)];
    }
  }

  /** The loop of `queue_download_selected` over the selected keys: it
      hands each selected track's task to the pool, in selection order, and
      returns the rows with those marked queued. */
  method QueueSelection(items: seq<TrackItem>, sel: seq<int>, d: D.Downloader) returns (marked: seq<TrackItem>)
    modifies d
    ensures marked == Marked(items, sel)
    ensures d.taskQueue == old(d.taskQueue) + SelectedTasks(items, sel)
    ensures d.events == old(d.events) && d.workers == old(d.workers) && d.stopFlag == old(d.stopFlag)
  {
    marked := items;
    for j := 0 to |sel|
      invariant marked == Marked(items, sel[..j])
      invariant d.taskQueue == old(d.taskQueue) + SelectedTasks(items, sel[..j])
      invariant d.events == old(d.events) && d.workers == old(d.workers) && d.stopFlag == old(d.stopFlag)
    {
      SelectedTasksNext(items, sel, j);
      marked := QueueSelected(items, sel, j, d, marked);
      assert d.taskQueue == old(d.taskQueue) + (SelectedTasks(items, sel[..j]) + TaskFor(items, sel[j]));
    }
    assert sel[..|sel|] == sel;
  }

  class App {
    const downloader: D.Downloader
    const history: Utils.History
    var trackItems: seq<TrackItem>
    /** `current_playlist` is set. */
    var hasPlaylist: bool
    /** The bulk progress window is open. */
    var progressShown: bool
    var dlTotal: int
    var dlDone: int
    /** The cover the app shows: the url it loads, or none for "No cover". */
    var coverUrl: Option<string>

    function Book(): Ledger
      reads this, history
    {
      Ledger(history.downloads, history.failed, dlTotal, dlDone)
    }

    /** The state after `__init__`, given the pool and the loaded history. */
    constructor (d: D.Downloader, h: Utils.History)
      ensures downloader == d && history == h
      ensures trackItems == [] && !hasPlaylist && !progressShown && dlTotal == 0 && dlDone == 0 && coverUrl.None?
    {
      downloader := d;
      history := h;
      trackItems := [];
      hasPlaylist := false;
      dlTotal := 0;
      dlDone := 0;
      coverUrl := None;
      progressShown := false;
    }

    /** `_on_playlist_select` followed by `_populate_tracks_task` on the
        fetched tracks. */
    method PopulateTracks(tracks: seq<S.Track>)
      modifies this
      ensures hasPlaylist
      ensures trackItems == seq(|tracks|, i requires 0 <= i < |tracks| => TrackItem(Normalized(tracks[i]), Idle))
      ensures coverUrl == if tracks != [] && TruthyText(Normalized(tracks[0]).albumArtUrl)
                          then Normalized(tracks[0]).albumArtUrl else None
      ensures progressShown == old(progressShown) && dlTotal == old(dlTotal) && dlDone == old(dlDone)
    {
      hasPlaylist := true;
      var items: seq<D.Meta> := [];
      for i := 0 to |tracks|
        invariant items == seq(i, k requires 0 <= k < i => Normalized(tracks[k]))
      {
        items := items + [Normalized(tracks[i])];
      }
      trackItems := [];
      for i := 0 to |items|
        invariant hasPlaylist && progressShown == old(progressShown) && dlTotal == old(dlTotal) && dlDone == old(dlDone)
        invariant trackItems == seq(i, k requires 0 <= k < i => TrackItem(items[k], Idle))
      {
        trackItems := trackItems + [TrackItem(items[i], Idle)];
      }
      if items != [] && TruthyText(items[0].albumArtUrl) {
        coverUrl := items[0].albumArtUrl;
      } else {
        coverUrl := None;
      }
    }

    /** `show_download_progress`: an open window is kept, counters and all;
        otherwise one opens with the counter at zero of `total`. */
    method ShowDownloadProgress(total: int)
      modifies this
      ensures progressShown
      ensures old(progressShown) ==> dlTotal == old(dlTotal) && dlDone == old(dlDone)
      ensures !old(progressShown) ==> dlTotal == total && dlDone == 0
      ensures trackItems == old(trackItems) && hasPlaylist == old(hasPlaylist) && coverUrl == old(coverUrl)
    {
      if progressShown {
        return;
      }
      progressShown := true;
      dlTotal := total;
      dlDone := 0;
    }

    /** `hide_download_progress`: the window closes and both counters reset. */
    method HideDownloadProgress()
      modifies this
      ensures !progressShown && dlTotal == 0 && dlDone == 0
      ensures trackItems == old(trackItems) && hasPlaylist == old(hasPlaylist) && coverUrl == old(coverUrl)
    {
      progressShown := false;
      dlTotal := 0;
      dlDone := 0;
    }

    /** `download_playlist_audio`; the result is the warning shown, if any. */
    method DownloadPlaylistAudio() returns (warning: Option<string>)
      modifies this, downloader
      ensures !old(hasPlaylist) ==> warning == Some("Select a playlist first.")
      ensures old(hasPlaylist) && old(trackItems) == [] ==> warning == Some("No tracks loaded for the selected playlist.")
      ensures warning.Some? ==> trackItems == old(trackItems) && downloader.taskQueue == old(downloader.taskQueue)
                                && progressShown == old(progressShown) && dlTotal == old(dlTotal) && dlDone == old(dlDone)
      ensures old(hasPlaylist) && old(trackItems) != [] ==>
                && warning.None?
                && downloader.taskQueue == old(downloader.taskQueue) + BulkTasks(old(trackItems))
                && trackItems == seq(|old(trackItems)|, i requires 0 <= i < |old(trackItems)| =>
                                       old(trackItems)[i].(state := QueuedItem))
                && progressShown
                && (if old(progressShown) then dlTotal == old(dlTotal) && dlDone == old(dlDone)
                    else dlTotal == |trackItems| && dlDone == 0)
      ensures hasPlaylist == old(hasPlaylist) && coverUrl == old(coverUrl)
      ensures downloader.events == old(downloader.events) && downloader.workers == old(downloader.workers)
              && downloader.stopFlag == old(downloader.stopFlag)
    {
      if !hasPlaylist {
        return Some("Select a playlist first.");
      }
      if trackItems == [] {
        return Some("No tracks loaded for the selected playlist.");
      }
      var total := |trackItems|;
      ShowDownloadProgress(total);
      ghost var items := trackItems;
      ghost var q0 := downloader.taskQueue;
      ghost var shown := (dlTotal, dlDone);
      for idx := 0 to total
        invariant |trackItems| == total && hasPlaylist && coverUrl == old(coverUrl)
        invariant progressShown && (dlTotal, dlDone) == shown
        invariant forall k :: 0 <= k < total ==> trackItems[k].meta == items[k].meta
        invariant forall k :: 0 <= k < total ==> trackItems[k].state == if k < idx then QueuedItem else items[k].state
        invariant downloader.taskQueue == q0 + BulkTasks(items)[..idx]
        invariant downloader.events == old(downloader.events) && downloader.workers == old(downloader.workers)
                  && downloader.stopFlag == old(downloader.stopFlag)
      {
        var task := D.Task(idx, trackItems[idx].meta, total);
        downloader.Enqueue(task);
        assert BulkTasks(items)[..idx + 1] == BulkTasks(items)[..idx] + [Some(task)];
        trackItems := trackItems[idx := trackItems[idx].(state := QueuedItem)];
      }
      assert BulkTasks(items)[..total] == BulkTasks(items);
      return None;
    }

    /** `queue_download_selected`; `sel` is the listbox selection. */
    method QueueDownloadSelected(sel: seq<int>) returns (warning: Option<string>)
      modifies this, downloader
      ensures sel == [] <==> warning == Some("Select one or more tracks to download.")
      ensures warning.Some? ==> warning == Some("Select one or more tracks to download.")
      ensures downloader.taskQueue == old(downloader.taskQueue) + SelectedTasks(old(trackItems), sel)
      ensures trackItems == Marked(old(trackItems), sel)
      ensures hasPlaylist == old(hasPlaylist) && coverUrl == old(coverUrl)
      ensures progressShown == old(progressShown) && dlTotal == old(dlTotal) && dlDone == old(dlDone)
      ensures downloader.events == old(downloader.events) && downloader.workers == old(downloader.workers)
              && downloader.stopFlag == old(downloader.stopFlag)
    {
      if sel == [] {
        return Some("Select one or more tracks to download.");
      }
      var marked := QueueSelection(trackItems, sel, downloader);
      trackItems := marked;
      return None;
    }

    /** One event of `_poll_event_queue`'s loop. */
    method Record(ev: D.Event, now: string)
      modifies this, history
      ensures Book() == Polled(old(Book()), ev, now)
      ensures trackItems == old(trackItems) && hasPlaylist == old(hasPlaylist) && coverUrl == old(coverUrl)
      ensures progressShown == old(progressShown)
    {
      if Recorded(ev.kind) {
        if ev.kind == D.Completed {
          history.downloads := history.downloads + [EntryFor(ev, "Downloaded", now, None)];
        } else {
          history.failed := history.failed + [EntryFor(ev, FailedStatus(ev.kind).value, now, ev.error)];
        }
        Utils.SaveHistory(history);
        if dlTotal > 0 {
          dlDone := dlDone + 1;
        }
      }
    }

    /** `_poll_event_queue`: every waiting event, in channel order; `now` is
        the timestamp the entries get. */
    method PollEventQueue(now: string)
      modifies this, history, downloader`events
      ensures downloader.events == []
      ensures Book() == PolledAll(old(Book()), old(downloader.events), now)
      ensures trackItems == old(trackItems) && hasPlaylist == old(hasPlaylist) && coverUrl == old(coverUrl)
      ensures progressShown == old(progressShown)
    {
      ghost var evs := downloader.events;
      ghost var n := 0;
      while downloader.events != []
        invariant n <= |evs| && downloader.events == evs[n..]
        invariant PolledAll(old(Book()), evs, now) == PolledAll(Book(), evs[n..], now)
        invariant trackItems == old(trackItems) && hasPlaylist == old(hasPlaylist) && coverUrl == old(coverUrl)
        invariant progressShown == old(progressShown)
        decreases |downloader.events|
      {
        var ev := downloader.events[0];
        downloader.events := downloader.events[1..];
        PolledAllStep(Book(), evs, n, now);
        Record(ev, now);
        n := n + 1;
      }
    }

    /** `_export_playlist_m3u`: the text written to `filename`, or the
        warning shown; an empty `filename` is a cancelled dialog. */
    method ExportM3U(filename: string) returns (warning: Option<string>, text: Option<string>)
      ensures !hasPlaylist <==> warning == Some("Select a playlist first.")
      ensures warning.Some? ==> text.None?
      ensures hasPlaylist && filename == "" ==> text.None?
      ensures hasPlaylist && filename != "" ==> text == Some(Text(M3ULines(Metas(trackItems))))
    {
      if !hasPlaylist {
        return Some("Select a playlist first."), None;
      }
      if filename == "" {
        return None, None;
      }
      var ms := Metas(trackItems);
      var out := "#EXTM3U\n";
      assert Text(M3ULines([])) == out;
      for i := 0 to |ms|
        invariant out == Text(M3ULines(ms[..i]))
      {
        M3UNext(ms, i);
        out := out + ExtInf(ms[i]) + "\n";
        out := out + FileLine(ms[i]) + "\n";
      }
      assert ms[..|ms|] == ms;
      return None, Some(out);
    }
  }
}
