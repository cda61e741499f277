/** The controller of `spotcomps/download_controller.py`: it derives track
    ids from metadata, translates worker events into store mutations, hands
    tasks to the pool, and cancels. Threads, the stop event's wake-ups and
    the progress modal are not modelled; the listener is the sequential
    drain of the event channel. */
module DownloadController {
  import opened Common
  import opened AppState
  import D = Downloader

  /** `idx` as the value the `or` chain sees. */
  function IdxValue(idx: Option<int>): Value {
    match idx
    case Some(i) => Int(i)
    case None => Null
  }

  /** The id `_handle_event` uses: `str(meta.id or idx or meta.uri or
      meta.track_id or f"track-{idx}")`. */
  function EventTrackId(meta: D.Meta, idx: Option<int>): (id: string)
    ensures Truthy(meta.id) ==> id == Repr(meta.id)
    ensures !Truthy(meta.id) && Truthy(IdxValue(idx)) ==> id == IntToString(idx.value)
    ensures !Truthy(meta.id) && !Truthy(IdxValue(idx)) && Truthy(meta.uri) ==> id == Repr(meta.uri)
    ensures !Truthy(meta.id) && !Truthy(IdxValue(idx)) && !Truthy(meta.uri) && Truthy(meta.trackId) ==>
              id == Repr(meta.trackId)
    ensures !Truthy(meta.id) && !Truthy(IdxValue(idx)) && !Truthy(meta.uri) && !Truthy(meta.trackId) ==>
              id == "track-" + OptIntToString(idx)
  {
    if Truthy(meta.id) then Repr(meta.id)
    else if Truthy(IdxValue(idx)) then Repr(IdxValue(idx))
    else if Truthy(meta.uri) then Repr(meta.uri)
    else if Truthy(meta.trackId) then Repr(meta.trackId)
    else "track-" + OptIntToString(idx)
  }

  /** The id `enqueue` uses: `str(meta.id or task.idx)`. */
  function EnqueueTrackId(t: D.Task): (id: string)
    ensures Truthy(t.meta.id) ==> id == Repr(t.meta.id)
    ensures !Truthy(t.meta.id) ==> id == IntToString(t.idx)
  {
    if Truthy(t.meta.id) then Repr(t.meta.id) else IntToString(t.idx)
  }

  /** The two derivations agree unless the metadata id is falsy and the
      index is 0. */
  lemma IdsAgree(t: D.Task)
    requires Truthy(t.meta.id) || t.idx != 0
    ensures EventTrackId(t.meta, Some(t.idx)) == EnqueueTrackId(t)
  {
  }

  /** At index 0 without a metadata id, uri or track id, the task is queued
      under `"0"` but its events speak of `"track-0"`. */
  lemma IdsDifferAtZero(t: D.Task)
    requires !Truthy(t.meta.id) && t.idx == 0 && !Truthy(t.meta.uri) && !Truthy(t.meta.trackId)
    ensures EnqueueTrackId(t) == "0"
    ensures EventTrackId(t.meta, Some(t.idx)) == "track-0"
  {
    assert NatToString(0) == "0";
  }

  /** The exception path of the worker drops `idx`, so without a metadata
      id, uri or track id such an event speaks of `"track-None"`. */
  lemma EscapedEventId(t: D.Task)
    requires !Truthy(t.meta.id) && !Truthy(t.meta.uri) && !Truthy(t.meta.trackId)
    ensures EventTrackId(t.meta, None) == "track-None"
    ensures EnqueueTrackId(t) != "track-None"
  {
    var s := IntToString(t.idx);
    if t.idx >= 0 { assert '0' <= s[0] <= '9'; }
  }

  /** `ev.get("error") or ev.get("reason") or ttype`: the first truthy of
      the three, so never empty for a known kind. */
  function ErrorText(ev: D.Event): (r: string)
    ensures TruthyText(ev.error) ==> r == ev.error.value
    ensures !TruthyText(ev.error) && TruthyText(ev.reason) ==> r == ev.reason.value
    ensures !TruthyText(ev.error) && !TruthyText(ev.reason) ==> r == D.KindName(ev.kind)
    ensures !ev.kind.Other? ==> r != ""
  {
    if TruthyText(ev.error) then ev.error.value
    else if TruthyText(ev.reason) then ev.reason.value
    else D.KindName(ev.kind)
  }

  /** `_handle_event` on the store's data. */
  function Handled(s: Snapshot, ev: D.Event): (r: Snapshot)
    ensures var id := EventTrackId(ev.meta, ev.idx);
      && (ev.kind == D.Progress ==>
            r == StatusUpdated(s, id, Some(Downloading), Some(ev.progress.GetOr(0.0)), None, None))
      && (ev.kind == D.Completed ==>
            r == Dequeued(StatusUpdated(s, id, Some(Completed), Some(1.0), ev.path, None), id))
      && (D.IsFailureKind(ev.kind) ==>
            r == Dequeued(StatusUpdated(s, id, Some(Failed), None, None, Some(ErrorText(ev))), id))
      && (ev.kind.Other? ==> r == s)
    ensures r.tracks.Keys == s.tracks.Keys
    ensures forall x :: x in r.queue ==> x in s.queue
  {
    var id := EventTrackId(ev.meta, ev.idx);
    match ev.kind
    case Progress => StatusUpdated(s, id, Some(Downloading), Some(ev.progress.GetOr(0.0)), None, None)
    case Completed => Dequeued(StatusUpdated(s, id, Some(Completed), Some(1.0), ev.path, None), id)
    case DownloadError => Dequeued(StatusUpdated(s, id, Some(Failed), None, None, Some(ErrorText(ev))), id)
    case Failed => Dequeued(StatusUpdated(s, id, Some(Failed), None, None, Some(ErrorText(ev))), id)
    case VideoUnavailable => Dequeued(StatusUpdated(s, id, Some(Failed), None, None, Some(ErrorText(ev))), id)
    case PrivateVideo => Dequeued(StatusUpdated(s, id, Some(Failed), None, None, Some(ErrorText(ev))), id)
    case FfmpegMissing => Dequeued(StatusUpdated(s, id, Some(Failed), None, None, Some(ErrorText(ev))), id)
    case Other(_) => s
  }

  /** A progress event marks the track downloading with the event's value
      and leaves the queue alone. */
  lemma ProgressEvent(s: Snapshot, ev: D.Event)
    requires ev.kind == D.Progress
    ensures var id, r := EventTrackId(ev.meta, ev.idx), Handled(s, ev);
      && r.queue == s.queue
      && (id in s.tracks ==> r.tracks[id].status == Downloading && r.tracks[id].progress == ev.progress.GetOr(0.0))
  {
  }

  /** A completed event marks the track completed with progress 1.0 and its
      path, keeps any earlier error, and removes the id from a duplicate-free
      queue. */
  lemma CompletedEvent(s: Snapshot, ev: D.Event)
    requires ev.kind == D.Completed && NoDuplicates(s.queue)
    ensures var id, r := EventTrackId(ev.meta, ev.idx), Handled(s, ev);
      && id !in r.queue
      && NoDuplicates(r.queue)
      && (id in s.tracks ==> r.tracks[id].status == Completed && r.tracks[id].progress == 1.0
                             && r.tracks[id].path == (if ev.path.Some? then ev.path else s.tracks[id].path)
                             && r.tracks[id].error == s.tracks[id].error)
  {
    var id := EventTrackId(ev.meta, ev.idx);
    DequeueRemoves(StatusUpdated(s, id, Some(Completed), Some(1.0), ev.path, None), id);
  }

  /** A failure event marks the track failed with the first truthy of its
      error, its reason and its kind name, keeps its path and progress, and
      removes the id. */
  lemma FailureEvent(s: Snapshot, ev: D.Event)
    requires D.IsFailureKind(ev.kind) && NoDuplicates(s.queue)
    ensures var id, r := EventTrackId(ev.meta, ev.idx), Handled(s, ev);
      && id !in r.queue
      && NoDuplicates(r.queue)
      && (id in s.tracks ==> r.tracks[id].status == Failed && r.tracks[id].error == Some(ErrorText(ev))
                             && r.tracks[id].path == s.tracks[id].path && r.tracks[id].progress == s.tracks[id].progress)
      && ErrorText(ev) != ""
  {
    var id := EventTrackId(ev.meta, ev.idx);
    DequeueRemoves(StatusUpdated(s, id, Some(Failed), None, None, Some(ErrorText(ev))), id);
  }

  /** With the index-0 mismatch, completing the first track leaves `"0"` in
      the queue for good. */
  lemma FirstTrackStaysQueued(s: Snapshot, t: D.Task, ev: D.Event)
    requires !Truthy(t.meta.id) && t.idx == 0 && !Truthy(t.meta.uri) && !Truthy(t.meta.trackId)
    requires ev.kind == D.Completed && ev.meta == t.meta && ev.idx == Some(t.idx)
    ensures "0" in Handled(Enqueued(s, EnqueueTrackId(t)), ev).queue
  {
    IdsDifferAtZero(t);
    var s1 := Enqueued(s, "0");
    assert "0" in s1.queue;
    var s2 := StatusUpdated(s1, "track-0", Some(Completed), Some(1.0), ev.path, None);
    assert s2.queue == s1.queue;
    assert Handled(s1, ev) == Dequeued(s2, "track-0");
    DequeueKeepsOthers(s2, "track-0", "0");
  }

  /** Events handled one after another, in channel order: no record is
      created or dropped, and no id joins the queue. */
  function HandledAll(s: Snapshot, evs: seq<D.Event>): (r: Snapshot)
    ensures r.tracks.Keys == s.tracks.Keys
    ensures forall x :: x in r.queue ==> x in s.queue
    decreases |evs|
  {
    if evs == [] then s else HandledAll(Handled(s, evs[0]), evs[1..])
  }

  /** Every event keeps the queue duplicate-free. */
  lemma {:induction false} HandledAllKeepsNoDuplicates(s: Snapshot, evs: seq<D.Event>)
    requires NoDuplicates(s.queue)
    ensures NoDuplicates(HandledAll(s, evs).queue)
    decreases |evs|
  {
    if evs != [] {
      var ev := evs[0];
      var id := EventTrackId(ev.meta, ev.idx);
      if ev.kind == D.Completed {
        CompletedEvent(s, ev);
      } else if D.IsFailureKind(ev.kind) {
        FailureEvent(s, ev);
      }
      HandledAllKeepsNoDuplicates(Handled(s, ev), evs[1..]);
    }
  }

  /** `enqueue` over a batch, in input order. */
  function EnqueuedAll(s: Snapshot, ids: seq<string>): Snapshot
    decreases |ids|
  {
    if ids == [] then s else Enqueued(EnqueuedAll(s, ids[..|ids| - 1]), ids[|ids| - 1])
  }

  /** After a batch every id is queued exactly once, the earlier queue is
      kept as a prefix, and nothing else joins it. */
  lemma {:induction false} EnqueuedAllQueue(s: Snapshot, ids: seq<string>)
    requires NoDuplicates(s.queue)
    ensures var q := EnqueuedAll(s, ids).queue;
      && NoDuplicates(q)
      && s.queue <= q
      && (forall i :: 0 <= i < |ids| ==> ids[i] in q)
      && (forall x :: x in q ==> x in s.queue || x in ids)
    decreases |ids|
  {
    if ids != [] {
      var prefix := ids[..|ids| - 1];
      EnqueuedAllQueue(s, prefix);
      var before := EnqueuedAll(s, prefix);
      EnqueueOccursOnce(before, ids[|ids| - 1]);
      assert forall i :: 0 <= i < |prefix| ==> prefix[i] == ids[i];
      forall x | x in before.queue ensures x in s.queue || x in ids {
        assert x in s.queue || x in prefix;
      }
    }
  }

  /** The status updates of `cancel_all`'s loop over the queued ids; they
      leave the queue and the set of recorded ids alone. */
  function MarkCancelled(s: Snapshot, ids: seq<string>): (r: Snapshot)
    ensures r.queue == s.queue && r.tracks.Keys == s.tracks.Keys
    decreases |ids|
  {
    if ids == [] then s
    else StatusUpdated(MarkCancelled(s, ids[..|ids| - 1]), ids[|ids| - 1], Some(Failed), None, None, Some("cancelled"))
  }

  /** Every listed id with a record ends failed with error "cancelled" and
      its other fields kept; every other record and the queue are untouched. */
  lemma {:induction false} MarkCancelledEffect(s: Snapshot, ids: seq<string>)
    ensures var r := MarkCancelled(s, ids);
      && r.queue == s.queue
      && r.tracks.Keys == s.tracks.Keys
      && (forall k :: k in s.tracks && k !in ids ==> r.tracks[k] == s.tracks[k])
      && (forall k :: k in s.tracks && k in ids ==>
            r.tracks[k] == s.tracks[k].(status := Failed, error := Some("cancelled")))
    decreases |ids|
  {
    if ids != [] {
      var prefix := ids[..|ids| - 1];
      MarkCancelledEffect(s, prefix);
      forall k | k in prefix ensures k in ids {
        var i :| 0 <= i < |prefix| && prefix[i] == k;
        assert ids[i] == k;
      }
      forall k | k in ids && k != ids[|ids| - 1] ensures k in prefix {
        var i :| 0 <= i < |ids| && ids[i] == k;
        assert prefix[i] == k;
      }
    }
  }

  /** The pool's event channel, workers and stop flag are as given. */
  ghost predicate PoolKept(d: D.Downloader, events: seq<D.Event>, workers: seq<string>, stopFlag: bool)
    reads d
  {
    d.events == events && d.workers == workers && d.stopFlag == stopFlag
  }

  /** The store ids of a batch, in input order. */
  function BatchIds(tasks: seq<D.Task>): (ids: seq<string>)
    ensures |ids| == |tasks|
    ensures forall i :: 0 <= i < |tasks| ==> ids[i] == EnqueueTrackId(tasks[i])
  {
    seq(|tasks|, i requires 0 <= i < |tasks| => EnqueueTrackId(tasks[i]))
  }

  /** The channel entries of a batch, in input order. */
  function Wrapped(tasks: seq<D.Task>): (q: seq<Option<D.Task>>)
    ensures |q| == |tasks|
    ensures forall i :: 0 <= i < |tasks| ==> q[i] == Some(tasks[i])
  {
    seq(|tasks|, i requires 0 <= i < |tasks| => Some(tasks[i]))
  }

  lemma BatchNext(tasks: seq<D.Task>, i: nat)
    requires i < |tasks|
    ensures BatchIds(tasks[..i + 1]) == BatchIds(tasks[..i]) + [EnqueueTrackId(tasks[i])]
    ensures Wrapped(tasks[..i + 1]) == Wrapped(tasks[..i]) + [Some(tasks[i])]
  {
    assert BatchIds(tasks[..i + 1])[..i] == BatchIds(tasks[..i]);
  }

  class Controller {
    const state: Store
    /** The controller's own pool; its event channel is the listener's. */
    const downloader: D.Downloader
    /** The listener's stop event. */
    var stopFlag: bool

    ghost predicate Valid()
      reads this, state
    {
      state.Valid()
    }

    /** `__init__`: builds the pool over `cfg`; starting the listener thread
        is not modelled. */
    constructor (cfg: map<string, Value>, st: Store)
      requires D.WorkerCount(cfg).Some? && st.Valid()
      ensures Valid() && state == st && fresh(downloader)
      ensures downloader.cfg == cfg && downloader.taskQueue == [] && downloader.events == []
      ensures !stopFlag && !downloader.stopFlag
    {
      state := st;
      downloader := new D.Downloader(cfg);
      stopFlag := false;
    }

    method HandleEvent(ev: D.Event)
      requires Valid()
      modifies state
      ensures Valid()
      ensures state.View() == Handled(old(state.View()), ev)
    {
      var id := EventTrackId(ev.meta, ev.idx);
      match ev.kind {
        case Progress =>
          state.UpdateTrackStatus(id, Some(Downloading), Some(ev.progress.GetOr(0.0)), None, None);
        case Completed =>
          state.UpdateTrackStatus(id, Some(Completed), Some(1.0), ev.path, None);
          state.Dequeue(id);
        case Other(_) =>
        case _ =>
          state.UpdateTrackStatus(id, Some(Failed), None, None, Some(ErrorText(ev)));
          state.Dequeue(id);
      }
    }

    /** `_listen` while events are waiting: each is taken in channel order
        and handled; the loop ends when the channel is empty or on stop. */
    method Listen()
      requires Valid()
      modifies state, downloader`events
      ensures Valid()
      ensures stopFlag ==> state.View() == old(state.View()) && downloader.events == old(downloader.events)
      ensures !stopFlag ==> downloader.events == [] && state.View() == HandledAll(old(state.View()), old(downloader.events))
    {
      if stopFlag {
        return;
      }
      ghost var evs := downloader.events;
      ghost var n := 0;
      while downloader.events != []
        invariant Valid()
        invariant n <= |evs| && downloader.events == evs[n..]
        invariant HandledAll(old(state.View()), evs) == HandledAll(state.View(), evs[n..])
        decreases |downloader.events|
      {
        var ev := downloader.events[0];
        downloader.events := downloader.events[1..];
        HandleEvent(ev);
        assert evs[n..][1..] == evs[n + 1..];
        n := n + 1;
      }
    }

    /** `enqueue`: the id is queued in the store before the task is put. */
    method Enqueue(t: D.Task)
      requires Valid()
      modifies state, downloader
      ensures Valid()
      ensures state.View() == Enqueued(old(state.View()), EnqueueTrackId(t))
      ensures downloader.taskQueue == old(downloader.taskQueue) + [Some(t)]
      ensures PoolKept(downloader, old(downloader.events), old(downloader.workers), old(downloader.stopFlag))
    {
      state.Enqueue(EnqueueTrackId(t));
      downloader.Enqueue(t);
    }

    method EnqueueBatch(tasks: seq<D.Task>)
      requires Valid()
      modifies state, downloader
      ensures Valid()
      ensures state.View() == EnqueuedAll(old(state.View()), BatchIds(tasks))
      ensures downloader.taskQueue == old(downloader.taskQueue) + Wrapped(tasks)
      ensures PoolKept(downloader, old(downloader.events), old(downloader.workers), old(downloader.stopFlag))
    {
      for i := 0 to |tasks|
        invariant Valid()
        invariant state.View() == EnqueuedAll(old(state.View()), BatchIds(tasks[..i]))
        invariant downloader.taskQueue == old(downloader.taskQueue) + Wrapped(tasks[..i])
        invariant PoolKept(downloader, old(downloader.events), old(downloader.workers), old(downloader.stopFlag))
      {
        BatchNext(tasks, i);
        Enqueue(tasks[i]);
      }
      assert tasks[..|tasks|] == tasks;
    }

    /** `cancel_all`: stop flags, drain the task channel, mark every queued
        id failed/"cancelled", then clear the queue. */
    method CancelAll()
      requires Valid()
      modifies this, state, downloader`taskQueue, downloader`stopFlag
      ensures Valid()
      ensures stopFlag && downloader.stopFlag
      ensures downloader.taskQueue == []
      ensures state.queue == []
      ensures state.tracks == MarkCancelled(old(state.View()), old(state.queue)).tracks
    {
      stopFlag := true;
      downloader.stopFlag := true;
      while downloader.taskQueue != []
        invariant Valid() && stopFlag && downloader.stopFlag
        invariant state.View() == old(state.View())
        decreases |downloader.taskQueue|
      {
        downloader.taskQueue := downloader.taskQueue[1..];
      }
      var ids := state.queue;
      for i := 0 to |ids|
        invariant Valid() && stopFlag && downloader.stopFlag && downloader.taskQueue == []
        invariant state.View() == MarkCancelled(old(state.View()), ids[..i])
      {
        state.UpdateTrackStatus(ids[i], Some(Failed), None, None, Some("cancelled"));
        assert ids[..i + 1][..i] == ids[..i];
      }
      assert ids[..|ids|] == ids;
      state.ClearQueue();
    }

    method Shutdown()
      requires Valid()
      modifies this, state, downloader`taskQueue, downloader`stopFlag
      ensures Valid()
      ensures stopFlag && downloader.stopFlag && downloader.taskQueue == [] && state.queue == []
      ensures state.tracks == MarkCancelled(old(state.View()), old(state.queue)).tracks
    {
      CancelAll();
    }
  }

  /** After `cancel_all`, every id that was queued and has a record is
      failed with error "cancelled", and records that were not queued are
      untouched. */
  lemma CancelAllOutcome(s: Snapshot)
    ensures var r := MarkCancelled(s, s.queue);
      && r.tracks.Keys == s.tracks.Keys
      && (forall k :: k in s.tracks && k in s.queue ==> r.tracks[k].status == Failed && r.tracks[k].error == Some("cancelled"))
      && (forall k :: k in s.tracks && k !in s.queue ==> r.tracks[k] == s.tracks[k])
  {
    MarkCancelledEffect(s, s.queue);
  }
}
