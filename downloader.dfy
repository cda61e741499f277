/** The worker pool of `spotcomps/downloader.py`: the task and event
    records, what `_do_task` computes for one task (output directory, file
    name, skip-existing short-circuit, error classification), the worker
    loop that turns every task into exactly one event, and the sentinel
    protocol of `stop`. yt-dlp, the file system and the tagger are inputs:
    each task comes with a `TaskEnv` saying what they did. */
module Downloader {
  import opened Common
  import Utils

  /** The metadata dict of a track, as the UI builds it; `id`, `uri` and
      `track_id` are only ever read, with `dict.get`, by the controller. */
  datatype Meta = Meta(
    id: Value,
    uri: Value,
    trackId: Value,
    title: Option<string>,      // None: the key is absent
    artists: seq<string>,       // `meta.get("artists", [])`
    album: string,              // `meta.get("album", "")`
    durationMs: int,            // `meta.get("duration_ms", 0)`
    albumArtUrl: Option<string>,
    year: Option<string>)

  /** A task dict: `{idx, meta, total}`. */
  datatype Task = Task(idx: int, meta: Meta, total: int)

  /** The `type` of an event dict; `Other` is any other string. */
  datatype Kind = Progress | Completed | DownloadError | Failed | VideoUnavailable
                | PrivateVideo | FfmpegMissing | Other(name: string)

  function KindName(k: Kind): string {
    match k
    case Progress => "progress"
    case Completed => "completed"
    case DownloadError => "download_error"
    case Failed => "failed"
    case VideoUnavailable => "video_unavailable"
    case PrivateVideo => "private_video"
    case FfmpegMissing => "ffmpeg_missing"
    case Other(name) => name
  }

  /** The kinds that end a task. */
  predicate IsFailureKind(k: Kind) {
    k == DownloadError || k == Failed || k == VideoUnavailable || k == PrivateVideo || k == FfmpegMissing
  }

  /** An event dict; a `None` field is a key the event does not carry. */
  datatype Event = Event(
    kind: Kind,
    idx: Option<int>,
    total: Option<int>,
    meta: Meta,
    progress: Option<real>,
    path: Option<string>,
    error: Option<string>,
    reason: Option<string>)

  /** What the yt-dlp call did: it returned (and the glob then listed these
      file names of `<safe_name>.*` in the output directory), or it raised
      a `DownloadError`, or it raised some other exception, with its text. */
  datatype Attempt = Ok(candidates: seq<string>) | YtDlpError(msg: string) | OtherException(msg: string)

  /** The outside world as one task sees it: an exception raised before the
      download is tried (creating the output directory), whether the target
      mp3 already exists, and the download attempt. */
  datatype TaskEnv = TaskEnv(setupError: Option<string>, mp3Exists: bool, attempt: Attempt)

  // ---------------------------------------------------------------------
  // Reading the config

  predicate OrganizeByArtist(cfg: map<string, Value>) {
    Truthy(Setting(cfg, "organize_by_artist", Null))
  }

  predicate SkipExisting(cfg: map<string, Value>) {
    Truthy(Setting(cfg, "skip_existing", Bool(true)))
  }

  /** The base output directory. A non-string value makes `Path()` raise
      before any directory is built; `DoTask` checks for it first. */
  function BaseDir(cfg: map<string, Value>): string {
    match Setting(cfg, "output_dir", Null)
    case Str(s) => s
    case _ => ""
  }

  /** `int(x)` of a config value, `None` where Python raises. Strings are
      read as an optional sign followed by ASCII digits. */
  function IntOf(v: Value): Option<int> {
    match v
    case Int(i) => Some(i)
    case Bool(b) => Some(if b then 1 else 0)
    case Str(s) => ParseInt(s)
    case Null => None
  }

  function DigitsValue(s: string): Option<nat>
    decreases |s|
  {
    if s == [] then None
    else if !('0' <= s[|s| - 1] <= '9') then None
    else
      var d := (s[|s| - 1] as int - '0' as int) as nat;
      if |s| == 1 then Some(d)
      else match DigitsValue(s[..|s| - 1])
           case Some(n) => Some(10 * n + d)
           case None => None
  }

  function ParseInt(s: string): Option<int> {
    if |s| > 0 && s[0] == '-' then
      match DigitsValue(s[1..]) case Some(n) => Some(-(n as int)) case None => None
    else if |s| > 0 && s[0] == '+' then
      match DigitsValue(s[1..]) case Some(n) => Some(n) case None => None
    else
      match DigitsValue(s) case Some(n) => Some(n) case None => None
  }

  /** `max(1, int(cfg.get("concurrency", 3)))`; `None` where `int` raises. */
  function WorkerCount(cfg: map<string, Value>): (n: Option<nat>)
    ensures n.Some? ==> n.value >= 1
    ensures "concurrency" !in cfg ==> n == Some(3)
    ensures n.Some? <==> IntOf(Setting(cfg, "concurrency", Int(3))).Some?
    ensures n.Some? ==> var c := IntOf(Setting(cfg, "concurrency", Int(3))).value;
                        n.value == if c < 1 then 1 else c
  {
    match IntOf(Setting(cfg, "concurrency", Int(3)))
    case Some(c) => Some(if c < 1 then 1 else c)
    case None => None
  }

  // ---------------------------------------------------------------------
  // Paths

  /** `Path / part`: an empty part leaves the path as it is. */
  function JoinPath(dir: string, part: string): string {
    if part == "" then dir else dir + "/" + part
  }

  function ArtistText(meta: Meta): string {
    Join(meta.artists, ", ")
  }

  /** Python's name for the type of a scalar, as a `TypeError` quotes it. */
  function TypeName(v: Value): string {
    match v
    case Null => "NoneType"
    case Bool(_) => "bool"
    case Int(_) => "int"
    case Str(_) => "str"
  }

  /** The `TypeError` that `Path(x)` raises for a value that is not a
      string, by the closing words of its text, which name the type. */
  function PathTypeError(v: Value): (msg: string)
    ensures msg != ""
  {
    "not '" + TypeName(v) + "'"
  }

  /** The output directory of a track. */
  function OutDir(cfg: map<string, Value>, meta: Meta): (dir: string)
    ensures !OrganizeByArtist(cfg) ==> dir == BaseDir(cfg)
    ensures OrganizeByArtist(cfg) && ArtistText(meta) == "" && meta.album == "" ==> dir == BaseDir(cfg)
    ensures OrganizeByArtist(cfg) && ArtistText(meta) != "" && meta.album == "" ==>
              dir == JoinPath(BaseDir(cfg), Utils.SanitizeFilename(ArtistText(meta)))
    ensures OrganizeByArtist(cfg) && ArtistText(meta) == "" && meta.album != "" ==>
              dir == JoinPath(BaseDir(cfg), Utils.SanitizeFilename(meta.album))
    ensures OrganizeByArtist(cfg) && ArtistText(meta) != "" && meta.album != "" ==>
              dir == JoinPath(JoinPath(BaseDir(cfg), Utils.SanitizeFilename(ArtistText(meta))),
                              Utils.SanitizeFilename(meta.album))
  {
    var artist := ArtistText(meta);
    var dir := BaseDir(cfg);
    var dir := if OrganizeByArtist(cfg) && artist != "" then JoinPath(dir, Utils.SanitizeFilename(artist)) else dir;
    if OrganizeByArtist(cfg) && meta.album != "" then JoinPath(dir, Utils.SanitizeFilename(meta.album)) else dir
  }

  /** `sanitize_filename(f"{artist} - {title}")`: at most 240 characters,
      none of them illegal in a file name. */
  function SafeName(meta: Meta): (r: string)
    ensures |r| <= 240
    ensures forall k :: 0 <= k < |r| ==> !Utils.IllegalChar(r[k])
  {
    Utils.SanitizeFilename(ArtistText(meta) + " - " + meta.title.GetOr(""))
  }

  /** The target `<out_dir>/<safe_name>.mp3`: it ends in the safe name
      followed by `.mp3`. */
  function Mp3Path(cfg: map<string, Value>, meta: Meta): (p: string)
    ensures var name := SafeName(meta) + ".mp3";
      |name| <= |p| && p[|p| - |name|..] == name
  {
    var dir, name := OutDir(cfg, meta), SafeName(meta) + ".mp3";
    var p := JoinPath(dir, name);
    assert name != "" && p == dir + "/" + name;
    assert p[|p| - |name|..] == name;
    p
  }

  /** Position of the last `ch` in `s`, or -1 (`str.rfind`). */
  function RFind(s: string, ch: char): (i: int)
    ensures -1 <= i < |s|
    ensures i >= 0 ==> s[i] == ch
    ensures forall k :: i < k < |s| ==> s[k] != ch
    decreases |s|
  {
    if s == [] then -1
    else if s[|s| - 1] == ch then |s| - 1
    else RFind(s[..|s| - 1], ch)
  }

  /** `PurePath.suffix` of a file name: from its last dot on, unless that
      dot is the first or the last character, or there is none. */
  function Suffix(name: string): (r: string)
    ensures r == "" || (r[0] == '.' && 2 <= |r| <= |name| && r == name[|name| - |r|..])
  {
    var i := RFind(name, '.');
    if 0 < i < |name| - 1 then name[i..] else ""
  }

  /** The suffix starts at the last dot and holds no other; it is empty
      exactly when there is no dot, or the last one starts or ends the
      name. */
  lemma SuffixAtLastDot(name: string)
    ensures var r := Suffix(name);
      && (r != "" ==> '.' !in r[1..])
      && (r != "" <==> 0 < RFind(name, '.') < |name| - 1)
  {
  }

  predicate IsMp3(name: string) {
    Lower(Suffix(name)) == ".mp3"
  }

  /** A name whose last dot is followed by `ext` counts as an mp3 exactly
      when the text before that dot is not empty and `ext` lowercases to
      `mp3`: a leading dot starts no suffix, and case is ignored. */
  lemma IsMp3Names(stem: string, ext: string)
    requires '.' !in ext
    ensures IsMp3(stem + "." + ext) <==> stem != "" && Lower(ext) == "mp3"
  {
    var n := stem + "." + ext;
    LastDot(stem, ext);
    if stem != "" && ext != "" {
      assert Suffix(n) == "." + ext;
      LowerDot(ext);
    } else {
      assert Suffix(n) == "";
      assert ext == "" ==> Lower(ext) == "";
    }
  }

  /** The dot written between `stem` and a dot-free `ext` is the last one. */
  lemma LastDot(stem: string, ext: string)
    requires '.' !in ext
    ensures RFind(stem + "." + ext, '.') == |stem|
  {
    var n := stem + "." + ext;
    assert n[|stem|] == '.' && n[|stem| + 1..] == ext;
  }

  /** Lowering keeps a leading dot and lowers the rest. */
  lemma LowerDot(ext: string)
    ensures Lower("." + ext) == ".mp3" <==> Lower(ext) == "mp3"
  {
    var l := Lower("." + ext);
    assert l[0] == '.';
    assert |l| == 1 + |ext| && l[1..] == Lower(ext);
  }

  /** The position of the first mp3 candidate, or `|cs|` if none. */
  function FirstMp3(cs: seq<string>): (i: nat)
    ensures i <= |cs|
    ensures forall k :: 0 <= k < i ==> !IsMp3(cs[k])
    ensures i < |cs| ==> IsMp3(cs[i])
    decreases |cs|
  {
    if cs == [] then 0
    else if IsMp3(cs[0]) then 0
    else 1 + FirstMp3(cs[1..])
  }

  /** Where the finished file is taken to be: the first listed candidate
      whose suffix lowercases to `.mp3`, else the default target. */
  function FinalPath(cfg: map<string, Value>, meta: Meta, candidates: seq<string>): (p: string)
    ensures (forall k :: 0 <= k < |candidates| ==> !IsMp3(candidates[k])) ==> p == Mp3Path(cfg, meta)
    ensures (exists k :: 0 <= k < |candidates| && IsMp3(candidates[k])) ==>
              exists k :: 0 <= k < |candidates| && IsMp3(candidates[k])
                          && (forall j :: 0 <= j < k ==> !IsMp3(candidates[j]))
                          && p == JoinPath(OutDir(cfg, meta), candidates[k])
  {
    var i := FirstMp3(candidates);
    if i < |candidates| then
      var p := JoinPath(OutDir(cfg, meta), candidates[i]);
      assert 0 <= i < |candidates| && IsMp3(candidates[i]) && (forall j :: 0 <= j < i ==> !IsMp3(candidates[j]))
             && p == JoinPath(OutDir(cfg, meta), candidates[i]);
      p
    else
      assert forall k :: 0 <= k < |candidates| ==> !IsMp3(candidates[k]);
      Mp3Path(cfg, meta)
  }

  /** The name ends in `.mp3`, in any mix of cases. */
  predicate EndsWithMp3(p: string) {
    |p| >= 4 && Lower(p[|p| - 4..]) == ".mp3"
  }

  lemma JoinKeepsEnding(dir: string, part: string)
    requires EndsWithMp3(part)
    ensures EndsWithMp3(JoinPath(dir, part))
  {
    var p := dir + "/" + part;
    assert p[|p| - 4..] == part[|part| - 4..];
  }

  /** Both ways of naming the finished file give a name ending in `.mp3`. */
  lemma FinalPathIsMp3(cfg: map<string, Value>, meta: Meta, candidates: seq<string>)
    ensures EndsWithMp3(Mp3Path(cfg, meta))
    ensures EndsWithMp3(FinalPath(cfg, meta, candidates))
  {
    var name := SafeName(meta) + ".mp3";
    assert name[|name| - 4..] == ".mp3";
    JoinKeepsEnding(OutDir(cfg, meta), name);
    var i := FirstMp3(candidates);
    if i < |candidates| {
      var c := candidates[i];
      var r := Suffix(c);
      assert |Lower(r)| == |r| == 4;
      assert r == c[|c| - 4..];
      JoinKeepsEnding(OutDir(cfg, meta), c);
    }
  }

  // ---------------------------------------------------------------------
  // _do_task

  /** The events of a task, as the dicts `_do_task` puts. */
  function Completion(t: Task, path: string): Event {
    Event(Completed, Some(t.idx), Some(t.total), t.meta, None, Some(path), None, None)
  }

  function Problem(t: Task, kind: Kind, error: Option<string>): Event {
    Event(kind, Some(t.idx), Some(t.total), t.meta, None, None, error, None)
  }

  /** Classification of a `DownloadError`, in priority order. */
  function ClassifyDownloadError(t: Task, msg: string): (ev: Event)
    ensures var m := Lower(msg);
      && (ev.kind == VideoUnavailable <==> (Contains(m, "unavailable") || Contains(m, "not available")))
      && (ev.kind == PrivateVideo <==> (!(Contains(m, "unavailable") || Contains(m, "not available"))
                                        && (Contains(m, "private") || Contains(m, "deleted"))))
      && (ev.kind == DownloadError <==> !(Contains(m, "unavailable") || Contains(m, "not available")
                                         || Contains(m, "private") || Contains(m, "deleted")))
    ensures ev.error == if ev.kind == DownloadError then Some(msg) else None
    ensures ev == Problem(t, ev.kind, ev.error)
  {
    var m := Lower(msg);
    if Contains(m, "unavailable") || Contains(m, "not available") then Problem(t, VideoUnavailable, None)
    else if Contains(m, "private") || Contains(m, "deleted") then Problem(t, PrivateVideo, None)
    else Problem(t, DownloadError, Some(msg))
  }

  /** Classification of any other exception: a mention of ffmpeg (in any
      case) is `ffmpeg_missing` and carries the lowercased text. */
  function ClassifyOtherError(t: Task, msg: string): (ev: Event)
    ensures ev.kind == FfmpegMissing <==> Contains(Lower(msg), "ffmpeg")
    ensures ev.kind == Failed <==> !Contains(Lower(msg), "ffmpeg")
    ensures ev.error == Some(if ev.kind == FfmpegMissing then Lower(msg) else msg)
    ensures ev == Problem(t, ev.kind, ev.error)
  {
    var m := Lower(msg);
    if Contains(m, "ffmpeg") then Problem(t, FfmpegMissing, Some(m)) else Problem(t, Failed, Some(msg))
  }

  /** What `_do_task` does: it puts exactly one event, or raises before
      putting any. */
  datatype TaskResult = Put(ev: Event) | Raised(msg: string)

  function DoTask(cfg: map<string, Value>, t: Task, env: TaskEnv): (r: TaskResult)
    ensures !Setting(cfg, "output_dir", Null).Str? ==> r == Raised(PathTypeError(Setting(cfg, "output_dir", Null)))
    ensures r.Raised? <==> !Setting(cfg, "output_dir", Null).Str? || env.setupError.Some?
    ensures r.Put? ==> r.ev.meta == t.meta && r.ev.idx == Some(t.idx) && r.ev.total == Some(t.total)
    ensures r.Put? ==> r.ev.kind == Completed || IsFailureKind(r.ev.kind)
  {
    var dir := Setting(cfg, "output_dir", Null);
    if !dir.Str? then Raised(PathTypeError(dir))
    else if env.setupError.Some? then Raised(env.setupError.value)
    else if env.mp3Exists && SkipExisting(cfg) then Put(Completion(t, Mp3Path(cfg, t.meta)))
    else match env.attempt
         case Ok(candidates) => Put(Completion(t, FinalPath(cfg, t.meta, candidates)))
         case YtDlpError(msg) => Put(ClassifyDownloadError(t, msg))
         case OtherException(msg) => Put(ClassifyOtherError(t, msg))
  }

  /** The one event the worker loop emits for a task: what `_do_task` put,
      or a `failed` event with the text of the exception that escaped it. */
  function WorkerEvent(cfg: map<string, Value>, t: Task, env: TaskEnv): (ev: Event)
    ensures ev.meta == t.meta
    ensures ev.kind == Completed || IsFailureKind(ev.kind)
    ensures ev.kind == Completed ==> ev.path.Some? && ev.error.None?
    ensures !Setting(cfg, "output_dir", Null).Str? ==>
              ev == Event(Failed, None, None, t.meta, None, None, Some(PathTypeError(Setting(cfg, "output_dir", Null))), None)
    ensures Setting(cfg, "output_dir", Null).Str? && env.setupError.Some? ==>
              ev == Event(Failed, None, None, t.meta, None, None, env.setupError, None)
  {
    match DoTask(cfg, t, env)
    case Put(ev) => ev
    case Raised(msg) => Event(Failed, None, None, t.meta, None, None, Some(msg), None)
  }

  /** Skip-existing: an existing target with `skip_existing` unset or truthy
      completes with that path, whatever the download would have done. */
  lemma SkipExistingShortCircuits(cfg: map<string, Value>, t: Task, env: TaskEnv, other: Attempt)
    requires Setting(cfg, "output_dir", Null).Str? && env.setupError.None? && env.mp3Exists && SkipExisting(cfg)
    ensures DoTask(cfg, t, env) == Put(Completion(t, Mp3Path(cfg, t.meta)))
    ensures DoTask(cfg, t, env.(attempt := other)) == DoTask(cfg, t, env)
  {
  }

  /** Every completed event names a file ending in `.mp3`. */
  lemma CompletedPathIsMp3(cfg: map<string, Value>, t: Task, env: TaskEnv)
    requires WorkerEvent(cfg, t, env).kind == Completed
    ensures EndsWithMp3(WorkerEvent(cfg, t, env).path.value)
  {
    FinalPathIsMp3(cfg, t.meta, if env.attempt.Ok? then env.attempt.candidates else []);
  }

  /** The events of a run over `tasks`: exactly one per task, the i-th for
      the i-th task, carrying its meta, and each a completion or a failure. */
  function WorkerEvents(cfg: map<string, Value>, tasks: seq<Task>, envs: nat -> TaskEnv): (evs: seq<Event>)
    ensures |evs| == |tasks|
    ensures forall i :: 0 <= i < |tasks| ==> evs[i].meta == tasks[i].meta
    ensures forall i :: 0 <= i < |tasks| ==> evs[i].kind == Completed || IsFailureKind(evs[i].kind)
  {
    var evs := seq(|tasks|, i requires 0 <= i < |tasks| => WorkerEvent(cfg, tasks[i], envs(i)));
    assert forall i :: 0 <= i < |tasks| ==> evs[i] == WorkerEvent(cfg, tasks[i], envs(i));
    evs
  }

  lemma WorkerEventsNext(cfg: map<string, Value>, ts: seq<Task>, h: nat, envs: nat -> TaskEnv)
    requires h < |ts|
    ensures WorkerEvents(cfg, ts[..h + 1], envs) == WorkerEvents(cfg, ts[..h], envs) + [WorkerEvent(cfg, ts[h], envs(h))]
  {
    var a, b := WorkerEvents(cfg, ts[..h + 1], envs), WorkerEvents(cfg, ts[..h], envs) + [WorkerEvent(cfg, ts[h], envs(h))];
    assert |a| == |b|;
    forall i | 0 <= i < |a| ensures a[i] == b[i] {
      if i < h { assert ts[..h + 1][i] == ts[..h][i]; }
    }
  }

  /** The tasks a worker takes before it meets a sentinel. */
  function LeadingTasks(q: seq<Option<Task>>): (ts: seq<Task>)
    ensures |ts| <= |q|
    ensures forall i :: 0 <= i < |ts| ==> q[i] == Some(ts[i])
    ensures |ts| < |q| ==> q[|ts|] == None
    decreases |q|
  {
    if q == [] || q[0].None? then [] else [q[0].value] + LeadingTasks(q[1..])
  }

  function WorkerNames(n: nat): (names: seq<string>)
    ensures |names| == n
    decreases n
  {
    if n == 0 then [] else WorkerNames(n - 1) + ["dl-" + NatToString(n - 1)]
  }

  class Downloader {
    const cfg: map<string, Value>
    /** The task channel; `None` is the stop sentinel. */
    var taskQueue: seq<Option<Task>>
    /** The event channel shared with the consumer. */
    var events: seq<Event>
    /** The names of the started worker threads. */
    var workers: seq<string>
    var stopFlag: bool

    /** `__init__` and `_start_workers`; a `concurrency` value that `int()`
        rejects makes the constructor raise, so it is excluded here. */
    constructor (config: map<string, Value>)
      requires WorkerCount(config).Some?
      ensures cfg == config
      ensures workers == WorkerNames(WorkerCount(config).value)
      ensures |workers| >= 1
      ensures taskQueue == [] && events == [] && !stopFlag
    {
      cfg := config;
      taskQueue := [];
      events := [];
      stopFlag := false;
      workers := [];
      new;
      var n := WorkerCount(config).value;
      for i := 0 to n
        invariant workers == WorkerNames(i)
        invariant cfg == config && taskQueue == [] && events == [] && !stopFlag
      {
        workers := workers + ["dl-" + NatToString(i)];
      }
    }

    method Enqueue(t: Task)
      modifies this
      ensures taskQueue == old(taskQueue) + [Some(t)]
      ensures events == old(events) && workers == old(workers) && stopFlag == old(stopFlag)
    {
      taskQueue := taskQueue + [Some(t)];
    }

    /** One turn of `_worker`'s loop; `exit` says the worker thread ends.
        An empty channel is a `get` that timed out. */
    method WorkerStep(env: TaskEnv) returns (exit: bool)
      modifies this
      ensures workers == old(workers) && stopFlag == old(stopFlag)
      ensures old(stopFlag) ==> exit && taskQueue == old(taskQueue) && events == old(events)
      ensures !old(stopFlag) && old(taskQueue) == [] ==> !exit && taskQueue == [] && events == old(events)
      ensures !old(stopFlag) && old(taskQueue) != [] ==> taskQueue == old(taskQueue)[1..]
      ensures !old(stopFlag) && old(taskQueue) != [] && old(taskQueue)[0].None? ==> exit && events == old(events)
      ensures !old(stopFlag) && old(taskQueue) != [] && old(taskQueue)[0].Some? ==>
                !exit && events == old(events) + [WorkerEvent(cfg, old(taskQueue)[0].value, env)]
    {
      if stopFlag {
        return true;
      }
      if taskQueue == [] {
        return false;
      }
      var task := taskQueue[0];
      taskQueue := taskQueue[1..];
      if task.None? {
        return true;
      }
      var ev := WorkerEvent(cfg, task.value, env);
      events := events + [ev];
      return false;
    }

    /** A single worker running until it meets a sentinel or the channel is
        empty; `envs(i)` is the world the i-th task it takes meets. */
    method RunWorker(envs: nat -> TaskEnv) returns (handled: nat)
      requires !stopFlag
      modifies this
      ensures handled == |LeadingTasks(old(taskQueue))|
      ensures events == old(events) + WorkerEvents(cfg, LeadingTasks(old(taskQueue)), envs)
      ensures taskQueue == if handled < |old(taskQueue)| then old(taskQueue)[handled + 1..] else []
      ensures workers == old(workers) && stopFlag == old(stopFlag)
    {
      ghost var q := taskQueue;
      ghost var ts := LeadingTasks(q);
      handled := 0;
      var exit := false;
      while !exit && taskQueue != []
        invariant handled <= |ts|
        invariant !exit ==> taskQueue == q[handled..]
        invariant exit ==> handled == |ts| && handled < |q| && taskQueue == q[handled + 1..]
        invariant events == old(events) + WorkerEvents(cfg, ts[..handled], envs)
        invariant workers == old(workers) && stopFlag == old(stopFlag) && !stopFlag
        decreases |taskQueue|, !exit
      {
        assert taskQueue[0] == q[handled];
        ghost var before := events;
        ghost var rest := taskQueue[1..];
        assert rest == q[handled + 1..];
        exit := WorkerStep(envs(handled));
        assert taskQueue == rest;
        if !exit {
          assert q[handled].Some? && handled < |ts| && q[handled].value == ts[handled];
          assert events == before + [WorkerEvent(cfg, ts[handled], envs(handled))];
          WorkerEventsNext(cfg, ts, handled, envs);
          handled := handled + 1;
        } else {
          assert q[handled].None? && events == before;
        }
      }
      if !exit {
        assert handled == |q| && handled == |ts|;
      }
      assert ts[..handled] == ts;
    }

    /** `stop`: raise the flag and put one sentinel per worker (joining the
        threads is not modelled). */
    method Stop()
      modifies this
      ensures stopFlag
      ensures taskQueue == old(taskQueue) + seq(|workers|, _ => None)
      ensures events == old(events) && workers == old(workers)
    {
      stopFlag := true;
      for i := 0 to |workers|
        invariant taskQueue == old(taskQueue) + seq(i, _ => None)
        invariant events == old(events) && workers == old(workers) && stopFlag
      {
        taskQueue := taskQueue + [None];
      }
    }
  }
}
