/** The shared track state store of `spotcomps/app_state.py`: a map from
    track id to its status record, and the pending queue of ids. The lock
    and the subscriber callbacks are not modelled (callbacks only observe). */
module AppState {
  import opened Common

  /** The values the program stores in `TrackInfo.status`. */
  datatype Status = Idle | Queued | Downloading | Completed | Failed

  /** The status record of one track. The progress fraction is a float in
      the program; here it is a real that is only copied. */
  datatype TrackInfo = TrackInfo(
    id: string,
    title: string,
    artist: string,
    album: string,
    status: Status,
    progress: real,
    path: Option<string>,
    error: Option<string>)

  /** The store's data at one moment. */
  datatype Snapshot = Snapshot(tracks: map<string, TrackInfo>, queue: seq<string>)

  predicate NoDuplicates(q: seq<string>) {
    forall i, j :: 0 <= i < j < |q| ==> q[i] != q[j]
  }

  /** In a queue without duplicates an id occurs at most once. */
  lemma {:induction false} NoDuplicatesCount(q: seq<string>, x: string)
    requires NoDuplicates(q)
    ensures multiset(q)[x] == if x in q then 1 else 0
    decreases |q|
  {
    if q != [] {
      var q' := q[..|q| - 1];
      assert q == q' + [q[|q| - 1]];
      assert NoDuplicates(q');
      NoDuplicatesCount(q', x);
      if x == q[|q| - 1] {
        assert x !in q';
      }
    }
  }

  /** The position of the first occurrence of `x` (or `|q|`). */
  function IndexOf(q: seq<string>, x: string): (i: nat)
    ensures i <= |q|
    ensures i < |q| <==> x in q
    ensures i < |q| ==> q[i] == x
    ensures x !in q[..i]
    decreases |q|
  {
    if q == [] then 0
    else if q[0] == x then 0
    else
      var i := IndexOf(q[1..], x);
      assert q[..i + 1] == [q[0]] + q[1..][..i];
      i + 1
  }

  /** `list.remove(x)` guarded by `x in list`: drops the first occurrence. */
  function RemoveFirst(q: seq<string>, x: string): (r: seq<string>)
    ensures x !in q ==> r == q
    ensures x in q ==> r == q[..IndexOf(q, x)] + q[IndexOf(q, x) + 1..]
    decreases |q|
  {
    if q == [] then []
    else if q[0] == x then q[1..]
    else if x in q then
      var j := IndexOf(q[1..], x);
      assert IndexOf(q, x) == j + 1;
      assert q[..j + 1] == [q[0]] + q[1..][..j];
      assert q[j + 2..] == q[1..][j + 1..];
      [q[0]] + RemoveFirst(q[1..], x)
    else
      [q[0]] + RemoveFirst(q[1..], x)
  }

  /** `enqueue`: append the id unless it is already queued; only a newly
      queued id that has a record gets status `queued`. */
  function Enqueued(s: Snapshot, id: string): (r: Snapshot)
    ensures id in r.queue
    ensures id in s.queue ==> r == s
    ensures id !in s.queue ==> r.queue == s.queue + [id]
    ensures r.tracks.Keys == s.tracks.Keys
    ensures forall k :: k in s.tracks && k != id ==> r.tracks[k] == s.tracks[k]
    ensures id in s.tracks && id !in s.queue ==> r.tracks[id] == s.tracks[id].(status := Queued)
  {
    if id in s.queue then s
    else if id in s.tracks then Snapshot(s.tracks[id := s.tracks[id].(status := Queued)], s.queue + [id])
    else Snapshot(s.tracks, s.queue + [id])
  }

  /** `dequeue`: remove the id if it is queued, keeping the others in order. */
  function Dequeued(s: Snapshot, id: string): (r: Snapshot)
    ensures r.tracks == s.tracks
    ensures id !in s.queue ==> r == s
    ensures id in s.queue ==> exists i :: 0 <= i < |s.queue| && s.queue[i] == id && r.queue == s.queue[..i] + s.queue[i + 1..]
  {
    if id in s.queue then
      var q := RemoveFirst(s.queue, id);
      assert s.queue[IndexOf(s.queue, id)] == id;
      Snapshot(s.tracks, q)
    else s
  }

  /** `update_track_status`: on a known id, overwrite exactly the fields
      given (the Python `None` default means "leave as is"); an unknown id
      changes nothing. */
  function StatusUpdated(s: Snapshot, id: string, status: Option<Status>, progress: Option<real>,
                         path: Option<string>, error: Option<string>): (r: Snapshot)
    ensures r.queue == s.queue
    ensures id !in s.tracks ==> r == s
    ensures r.tracks.Keys == s.tracks.Keys
    ensures forall k :: k in s.tracks && k != id ==> r.tracks[k] == s.tracks[k]
    ensures id in s.tracks ==>
      var t, u := s.tracks[id], r.tracks[id];
      && u.id == t.id && u.title == t.title && u.artist == t.artist && u.album == t.album
      && u.status == status.GetOr(t.status)
      && u.progress == progress.GetOr(t.progress)
      && u.path == (if path.Some? then path else t.path)
      && u.error == (if error.Some? then error else t.error)
  {
    if id !in s.tracks then s
    else
      var t := s.tracks[id];
      var t := if status.Some? then t.(status := status.value) else t;
      var t := if progress.Some? then t.(progress := progress.value) else t;
      var t := if path.Some? then t.(path := path) else t;
      var t := if error.Some? then t.(error := error) else t;
      Snapshot(s.tracks[id := t], s.queue)
  }

  /** `add_track`: insert or replace the record under its own id only. */
  function TrackAdded(s: Snapshot, t: TrackInfo): (r: Snapshot)
    ensures r.queue == s.queue
    ensures t.id in r.tracks && r.tracks[t.id] == t
    ensures r.tracks.Keys == s.tracks.Keys + {t.id}
    ensures forall k :: k in s.tracks && k != t.id ==> r.tracks[k] == s.tracks[k]
  {
    Snapshot(s.tracks[t.id := t], s.queue)
  }

  /** After `enqueue(id)` on a duplicate-free queue, the id occurs exactly once. */
  lemma EnqueueOccursOnce(s: Snapshot, id: string)
    requires NoDuplicates(s.queue)
    ensures NoDuplicates(Enqueued(s, id).queue)
    ensures multiset(Enqueued(s, id).queue)[id] == 1
  {
    var r := Enqueued(s, id);
    assert NoDuplicates(r.queue);
    NoDuplicatesCount(r.queue, id);
  }

  /** A second `enqueue` of the same id changes nothing. */
  lemma EnqueueIdempotent(s: Snapshot, id: string)
    ensures Enqueued(Enqueued(s, id), id) == Enqueued(s, id)
  {
  }

  /** On a duplicate-free queue `dequeue(id)` leaves no trace of the id and
      keeps the queue duplicate-free. */
  lemma DequeueRemoves(s: Snapshot, id: string)
    requires NoDuplicates(s.queue)
    ensures id !in Dequeued(s, id).queue
    ensures NoDuplicates(Dequeued(s, id).queue)
  {
    if id in s.queue {
      var i := IndexOf(s.queue, id);
      RemoveAtNoDuplicates(s.queue, i);
    }
  }

  /** Dropping position `i` of a duplicate-free queue drops its element
      entirely and keeps the rest duplicate-free. */
  lemma RemoveAtNoDuplicates(q: seq<string>, i: nat)
    requires NoDuplicates(q) && i < |q|
    ensures q[i] !in q[..i] + q[i + 1..]
    ensures NoDuplicates(q[..i] + q[i + 1..])
  {
    var r := q[..i] + q[i + 1..];
    forall k | 0 <= k < |r| ensures r[k] != q[i] {
      if k < i { assert r[k] == q[k]; } else { assert r[k] == q[k + 1]; }
    }
    forall a, b | 0 <= a < b < |r| ensures r[a] != r[b] {
      var a' := if a < i then a else a + 1;
      var b' := if b < i then b else b + 1;
      assert r[a] == q[a'] && r[b] == q[b'];
    }
  }

  /** `dequeue(id)` removes nothing but `id`. */
  lemma DequeueKeepsOthers(s: Snapshot, id: string, x: string)
    requires x in s.queue && x != id
    ensures x in Dequeued(s, id).queue
  {
    if id in s.queue {
      RemoveAtKeeps(s.queue, IndexOf(s.queue, id), x);
    }
  }

  lemma RemoveAtKeeps(q: seq<string>, i: nat, x: string)
    requires i < |q| && x in q && x != q[i]
    ensures x in q[..i] + q[i + 1..]
  {
    var j :| 0 <= j < |q| && q[j] == x;
    if j < i { assert q[..i][j] == x; } else { assert q[i + 1..][j - i - 1] == x; }
  }

  /** Every mutator keeps the pending queue free of duplicates. */
  lemma MutatorsKeepNoDuplicates(s: Snapshot, id: string, t: TrackInfo, status: Option<Status>,
                                 progress: Option<real>, path: Option<string>, error: Option<string>)
    requires NoDuplicates(s.queue)
    ensures NoDuplicates(Enqueued(s, id).queue)
    ensures NoDuplicates(Dequeued(s, id).queue)
    ensures NoDuplicates(StatusUpdated(s, id, status, progress, path, error).queue)
    ensures NoDuplicates(TrackAdded(s, t).queue)
  {
    EnqueueOccursOnce(s, id);
    DequeueRemoves(s, id);
  }

  /** The store object; `Valid` is the duplicate-free queue every mutator keeps. */
  class Store {
    var tracks: map<string, TrackInfo>
    var queue: seq<string>

    ghost predicate Valid()
      reads this
    {
      NoDuplicates(queue)
    }

    function View(): Snapshot
      reads this
    {
      Snapshot(tracks, queue)
    }

    constructor ()
      ensures Valid()
      ensures tracks == map[] && queue == []
    {
      tracks := map[];
      queue := [];
    }

    /** `set_tracks`: replace the whole map; the queue is untouched. */
    method SetTracks(ts: map<string, TrackInfo>)
      requires Valid()
      modifies this
      ensures Valid()
      ensures tracks == ts && queue == old(queue)
    {
      tracks := ts;
    }

    method AddTrack(t: TrackInfo)
      requires Valid()
      modifies this
      ensures Valid()
      ensures View() == TrackAdded(old(View()), t)
    {
      tracks := tracks[t.id := t];
    }

    method UpdateTrackStatus(id: string, status: Option<Status>, progress: Option<real>,
                             path: Option<string>, error: Option<string>)
      requires Valid()
      modifies this
      ensures Valid()
      ensures View() == StatusUpdated(old(View()), id, status, progress, path, error)
    {
      if id !in tracks {
        return;
      }
      var t := tracks[id];
      if status.Some? {
        t := t.(status := status.value);
      }
      if progress.Some? {
        t := t.(progress := progress.value);
      }
      if path.Some? {
        t := t.(path := path);
      }
      if error.Some? {
        t := t.(error := error);
      }
      tracks := tracks[id := t];
    }

    method Enqueue(id: string)
      requires Valid()
      modifies this
      ensures Valid()
      ensures View() == Enqueued(old(View()), id)
    {
      if id !in queue {
        queue := queue + [id];
        if id in tracks {
          tracks := tracks[id := tracks[id].(status := Queued)];
        }
      }
    }

    method Dequeue(id: string)
      requires Valid()
      modifies this
      ensures Valid()
      ensures View() == Dequeued(old(View()), id)
    {
      DequeueRemoves(View(), id);
      if id in queue {
        queue := RemoveFirst(queue, id);
      }
    }

    /** `clear_queue`: the queue becomes empty, the records are untouched. */
    method ClearQueue()
      requires Valid()
      modifies this
      ensures Valid()
      ensures queue == [] && tracks == old(tracks)
    {
      queue := [];
    }
  }
}
