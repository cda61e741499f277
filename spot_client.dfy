/** The Spotify helper of `spotcomps/spotClient.py`: a credential guard, a
    bounded retry loop over the first remote call, and page accumulation.
    Every remote call is an abstract outcome given as input; the sleeps
    are returned as the list of waits the loop would perform. */
module SpotClient {
  import opened Common
  import Utils

  /** An exception raised by a remote call. `networkClass` stands for the
      class checks of the transient rule (connection errors, timeouts,
      protocol errors, `OSError`); `msg` is `str(exc)`. */
  datatype Failure = Failure(networkClass: bool, msg: string)

  /** `is_transient_network_error`. */
  predicate IsTransient(f: Failure) {
    f.networkClass || Utils.IsTransientMessage(f.msg)
  }

  datatype Call<T> = Returned(value: T) | Raised(failure: Failure)

  /** What a listing call returns: `None`, an empty (falsy) dict, or a page
      of items with or without a `next` link. */
  datatype Response<T> = NoResult | EmptyPage | Page(items: seq<T>, hasNext: bool)

  /** How a fetch ends: its list, a propagated exception, or a
      `RuntimeError` raised by the fetch itself. */
  datatype Outcome<T> = Fetched(value: T) | Propagated(failure: Failure) | Error(msg: string)

  /** Spotify objects, as far as the program reads them. A key that is
      absent and one that is `null` are both `None` here. */
  datatype Image = Image(url: Option<string>)
  datatype Album = Album(name: Option<string>, images: seq<Image>, releaseDate: Option<string>)
  datatype Artist = Artist(name: Option<string>)
  datatype Track = Track(name: Option<string>, artists: seq<Artist>, album: Option<Album>, durationMs: Option<int>)

  const NoClientMessage := "Spotify client not available (configure credentials)"
  const PlaylistsMessage := "Failed to fetch playlists after retries"
  const ItemsMessage := "Failed to fetch playlist items after retries"

  /** Both `client_id` and `client_secret` are truthy. */
  predicate HasCredentials(cfg: map<string, Value>) {
    Truthy(Setting(cfg, "client_id", Null)) && Truthy(Setting(cfg, "client_secret", Null))
  }

  /** The exception an attempt raises once a failed reconnect has reset
      the client to `None`. */
  function DeadClient(op: string): Failure {
    Failure(false, "'NoneType' object has no attribute '" + op + "'")
  }

  /** The wait before the retry that follows attempt `k`. */
  function Backoff(k: nat): nat {
    1 + Pow2(k)
  }

  /** The first wait is two seconds, and the part of a wait beyond the
      base second doubles from one retry to the next. */
  lemma BackoffDoubles(k: nat)
    ensures Backoff(0) == 2
    ensures Backoff(k + 1) - 1 == 2 * (Backoff(k) - 1)
  {
  }

  /** The outcome of attempt `k`: the first attempt runs on a live client;
      later ones follow a reconnect, which leaves no client when
      authentication fails. */
  function AttemptCall<R>(calls: nat -> Call<R>, authOk: bool, op: string, k: nat): Call<R> {
    if k == 0 || authOk then calls(k) else Raised(DeadClient(op))
  }

  datatype Tried<R> = Got(value: R) | Threw(failure: Failure) | GaveUp
  datatype Retried<R> = Retried(result: Tried<R>, waits: seq<nat>)

  /** The `while attempt < max_retries` loop, from attempt `a` on. */
  function Retry<R>(calls: nat -> Call<R>, authOk: bool, op: string, maxRetries: int, a: nat): Retried<R>
    decreases maxRetries - a
  {
    if a >= maxRetries then Retried(GaveUp, [])
    else match AttemptCall(calls, authOk, op, a)
      case Returned(v) => Retried(Got(v), [])
      case Raised(f) =>
        if IsTransient(f) && a + 1 < maxRetries then
          var rest := Retry(calls, authOk, op, maxRetries, a + 1);
          Retried(rest.result, [Backoff(a)] + rest.waits)
        else Retried(Threw(f), [])
  }

  /** The retry policy, from attempt `a`: the loop gives up without an
      attempt exactly when none is permitted; otherwise it makes
      `|waits| + 1` attempts, all before `maxRetries`, and the wait after
      attempt k is `1 + 2^k`. */
  lemma {:induction false} RetryWaits<R>(calls: nat -> Call<R>, authOk: bool, op: string, maxRetries: int, a: nat)
    ensures var r := Retry(calls, authOk, op, maxRetries, a); var n := |r.waits|;
      && (r.result.GaveUp? <==> a >= maxRetries)
      && (a >= maxRetries ==> n == 0)
      && (a < maxRetries ==> a + n < maxRetries)
      && (forall k :: 0 <= k < n ==> r.waits[k] == Backoff(a + k))
    decreases maxRetries - a
  {
    if a < maxRetries {
      var c := AttemptCall(calls, authOk, op, a);
      if c.Raised? && IsTransient(c.failure) && a + 1 < maxRetries {
        RetryWaits(calls, authOk, op, maxRetries, a + 1);
        var rest := Retry(calls, authOk, op, maxRetries, a + 1);
        var r := Retry(calls, authOk, op, maxRetries, a);
        assert r.waits == [Backoff(a)] + rest.waits;
        forall k | 0 <= k < |r.waits| ensures r.waits[k] == Backoff(a + k) {
          if k > 0 { assert r.waits[k] == rest.waits[k - 1]; }
        }
      }
    }
  }

  /** Every attempt before the last raised a transient failure. */
  lemma {:induction false} RetryEarlierTransient<R>(calls: nat -> Call<R>, authOk: bool, op: string, maxRetries: int, a: nat)
    ensures var n := |Retry(calls, authOk, op, maxRetries, a).waits|;
      forall k :: a <= k < a + n ==>
        AttemptCall(calls, authOk, op, k).Raised? && IsTransient(AttemptCall(calls, authOk, op, k).failure)
    decreases maxRetries - a
  {
    if a < maxRetries {
      var c := AttemptCall(calls, authOk, op, a);
      if c.Raised? && IsTransient(c.failure) && a + 1 < maxRetries {
        RetryEarlierTransient(calls, authOk, op, maxRetries, a + 1);
      }
    }
  }

  /** The last attempt either returned the loop's result, or raised the
      failure the loop propagates, which is not transient or came on the
      last permitted attempt. */
  lemma {:induction false} RetryLastAttempt<R>(calls: nat -> Call<R>, authOk: bool, op: string, maxRetries: int, a: nat)
    ensures var r := Retry(calls, authOk, op, maxRetries, a); var n := |r.waits|;
      && (r.result.Got? ==> AttemptCall(calls, authOk, op, a + n) == Returned(r.result.value))
      && (r.result.Threw? ==> AttemptCall(calls, authOk, op, a + n) == Raised(r.result.failure)
                              && (!IsTransient(r.result.failure) || a + n + 1 == maxRetries))
    decreases maxRetries - a
  {
    if a < maxRetries {
      var c := AttemptCall(calls, authOk, op, a);
      if c.Raised? && IsTransient(c.failure) && a + 1 < maxRetries {
        RetryLastAttempt(calls, authOk, op, maxRetries, a + 1);
      }
    }
  }

  /** The `max_retries` default of both fetches; the app always uses it. */
  const DefaultMaxRetries := 4

  /** Attempt `k` raises a transient failure. */
  predicate RaisedTransient<R>(calls: nat -> Call<R>, authOk: bool, op: string, k: nat) {
    AttemptCall(calls, authOk, op, k).Raised? && IsTransient(AttemptCall(calls, authOk, op, k).failure)
  }

  /** Under the default the loop never gives up without an attempt and
      waits at most 2, 3 and 5 seconds, in that order. */
  lemma DefaultRetrySchedule<R>(calls: nat -> Call<R>, authOk: bool, op: string)
    ensures var r := Retry(calls, authOk, op, DefaultMaxRetries, 0);
      !r.result.GaveUp? && r.waits <= [2, 3, 5]
  {
    RetryWaits(calls, authOk, op, DefaultMaxRetries, 0);
    assert Backoff(0) == 2 && Backoff(1) == 3;
    assert Pow2(2) == 2 * Pow2(1) && Backoff(2) == 5;
    var r := Retry(calls, authOk, op, DefaultMaxRetries, 0);
    assert r.waits == [2, 3, 5][..|r.waits|];
  }

  /** Under the default, when the first three attempts raise transient
      failures and the fourth raises too, the loop waits 2, 3 and 5 seconds
      and propagates the fourth failure, whatever it is. */
  lemma DefaultRetryExhausted<R>(calls: nat -> Call<R>, authOk: bool, op: string)
    requires forall k :: 0 <= k < 3 ==> RaisedTransient(calls, authOk, op, k)
    requires AttemptCall(calls, authOk, op, 3).Raised?
    ensures Retry(calls, authOk, op, DefaultMaxRetries, 0)
            == Retried(Threw(AttemptCall(calls, authOk, op, 3).failure), [2, 3, 5])
  {
    var f3 := AttemptCall(calls, authOk, op, 3).failure;
    assert Retry(calls, authOk, op, DefaultMaxRetries, 3) == Retried(Threw(f3), []);
    assert RaisedTransient(calls, authOk, op, 2) && Backoff(2) == 5;
    assert Retry(calls, authOk, op, DefaultMaxRetries, 2) == Retried(Threw(f3), [5]);
    assert RaisedTransient(calls, authOk, op, 1) && Backoff(1) == 3;
    assert Retry(calls, authOk, op, DefaultMaxRetries, 1) == Retried(Threw(f3), [3, 5]);
    assert RaisedTransient(calls, authOk, op, 0) && Backoff(0) == 2;
    assert [2] + [3, 5] == [2, 3, 5];
  }

  /** Prepends `acc` to a fetched list; other outcomes pass through. */
  function Prefixed<T>(acc: seq<T>, o: Outcome<seq<T>>): Outcome<seq<T>> {
    match o
    case Fetched(x) => Fetched(acc + x)
    case _ => o
  }

  lemma PrefixedSteps<T>(acc: seq<T>, items: seq<T>, o: Outcome<seq<T>>)
    ensures Prefixed([], o) == o
    ensures Prefixed(acc, Prefixed(items, o)) == Prefixed(acc + items, o)
    ensures Prefixed(acc, Fetched([])) == Fetched(acc)
  {
    if o.Fetched? {
      assert [] + o.value == o.value;
      assert acc + (items + o.value) == (acc + items) + o.value;
    }
    assert acc + [] == acc;
  }

  /** The page loop: extend with each page's items, follow `next` while it
      is set. `nexts[k]` is the outcome of the k-th `sp.next` call; past its
      end `sp.next` returns `None`. */
  function Pages<T>(r: Response<T>, nexts: seq<Call<Response<T>>>): Outcome<seq<T>>
    decreases |nexts|
  {
    match r
    case Page(items, hasNext) =>
      if !hasNext || nexts == [] then Fetched(items)
      else (match nexts[0]
            case Raised(f) => Propagated(f)
            case Returned(r') => Prefixed(items, Pages(r', nexts[1..])))
    case _ => Fetched([])
  }

  /** `sum(pages, [])`. */
  function Flatten<T>(ps: seq<seq<T>>): seq<T>
    decreases |ps|
  {
    if ps == [] then [] else ps[0] + Flatten(ps[1..])
  }

  /** Page `k` of a chain of pages where every page but the last links on. */
  function ChainPage<T>(ps: seq<seq<T>>, k: nat): Response<T>
    requires k < |ps|
  {
    Page(ps[k], k + 1 < |ps|)
  }

  function ChainCalls<T>(ps: seq<seq<T>>): seq<Call<Response<T>>>
    requires |ps| > 0
  {
    seq(|ps| - 1, k requires 0 <= k < |ps| - 1 => Returned(ChainPage(ps, k + 1)))
  }

  /** Over a chain of linked pages the loop returns every page's items, in
      page order. */
  lemma {:induction false} PagesOfChain<T>(ps: seq<seq<T>>, j: nat)
    requires j < |ps|
    ensures Pages(ChainPage(ps, j), ChainCalls(ps)[j..]) == Fetched(Flatten(ps[j..]))
    decreases |ps| - j
  {
    var calls := ChainCalls(ps)[j..];
    assert ps[j..][0] == ps[j] && ps[j..][1..] == ps[j + 1..];
    assert Flatten(ps[j..]) == ps[j] + Flatten(ps[j + 1..]);
    if j + 1 < |ps| {
      PagesOfChain(ps, j + 1);
      assert calls[0] == Returned(ChainPage(ps, j + 1));
      assert calls[1..] == ChainCalls(ps)[j + 1..];
    } else {
      assert ps[j + 1..] == [];
      assert ps[j] + [] == ps[j];
    }
  }

  /** The page loop itself never raises a `RuntimeError`; any exception it
      propagates is the outcome of one of the `next` calls, and a fetched
      list starts with the first page's items. */
  lemma {:induction false} PagesOutcome<T>(r: Response<T>, nexts: seq<Call<Response<T>>>)
    ensures !Pages(r, nexts).Error?
    ensures Pages(r, nexts).Propagated? ==> exists k :: 0 <= k < |nexts| && nexts[k] == Raised(Pages(r, nexts).failure)
    ensures Pages(r, nexts).Fetched? && r.Page? ==> r.items <= Pages(r, nexts).value
    ensures !r.Page? ==> Pages(r, nexts) == Fetched([])
    decreases |nexts|
  {
    if r.Page? && r.hasNext && nexts != [] && nexts[0].Returned? {
      PagesOutcome(nexts[0].value, nexts[1..]);
      var o := Pages(nexts[0].value, nexts[1..]);
      if o.Propagated? {
        var k :| 0 <= k < |nexts[1..]| && nexts[1..][k] == Raised(o.failure);
        assert nexts[k + 1] == Raised(o.failure);
      }
    } else if r.Page? && r.hasNext && nexts != [] {
      assert nexts[0] == Raised(Pages(r, nexts).failure);
    }
  }

  /** The tracks of playlist entries whose `track` is set, in order. */
  function Present<T>(xs: seq<Option<T>>): (r: seq<T>)
    decreases |xs|
  {
    if xs == [] then []
    else if xs[|xs| - 1].Some? then Present(xs[..|xs| - 1]) + [xs[|xs| - 1].value]
    else Present(xs[..|xs| - 1])
  }

  lemma {:induction false} PresentAppend<T>(a: seq<Option<T>>, b: seq<Option<T>>)
    ensures Present(a + b) == Present(a) + Present(b)
    decreases |b|
  {
    if b != [] {
      var b' := b[..|b| - 1];
      assert (a + b)[..|a + b| - 1] == a + b';
      PresentAppend(a, b');
    } else {
      assert a + b == a;
    }
  }

  lemma PresentSnoc<T>(xs: seq<Option<T>>, x: Option<T>)
    ensures Present(xs + [x]) == if x.Some? then Present(xs) + [x.value] else Present(xs)
  {
    assert (xs + [x])[..|xs|] == xs;
  }

  /** Exactly the set entries are kept, and nothing else. */
  lemma {:induction false} PresentMembers<T>(xs: seq<Option<T>>, t: T)
    ensures t in Present(xs) <==> Some(t) in xs
    ensures |Present(xs)| <= |xs|
    decreases |xs|
  {
    if xs != [] {
      var xs' := xs[..|xs| - 1];
      PresentMembers(xs', t);
      assert xs == xs' + [xs[|xs| - 1]];
    }
  }

  function PresentOutcome<T>(o: Outcome<seq<Option<T>>>): Outcome<seq<T>> {
    match o
    case Fetched(x) => Fetched(Present(x))
    case Propagated(f) => Propagated(f)
    case Error(m) => Error(m)
  }

  /** A whole fetch from the client's state before it: the guard, the
      retry loop, the `results is None` check and the page loop. */
  function FetchOutcome<T>(hadClient: bool, creds: bool, authOk: bool, maxRetries: int, op: string,
                           failMsg: string, calls: nat -> Call<Response<T>>,
                           nexts: seq<Call<Response<T>>>): (Outcome<seq<T>>, seq<nat>)
  {
    if !hadClient && !(creds && authOk) then (Error(NoClientMessage), [])
    else
      var r := Retry(calls, authOk, op, maxRetries, 0);
      var o := match r.result
        case GaveUp => Error(failMsg)
        case Threw(f) => Propagated(f)
        case Got(resp) => if resp.NoResult? then Error(failMsg) else Pages(resp, nexts);
      (o, r.waits)
  }

  /** The fetch raises the credential error, without waiting, exactly when
      there was no client and none could be made; past the guard, a
      non-positive `max_retries` makes it raise the retries error, and
      otherwise it waits fewer than `max_retries` times. */
  lemma FetchGuards<T>(hadClient: bool, creds: bool, authOk: bool, maxRetries: int, op: string,
                       failMsg: string, calls: nat -> Call<Response<T>>, nexts: seq<Call<Response<T>>>)
    requires failMsg != NoClientMessage
    ensures var (o, waits) := FetchOutcome(hadClient, creds, authOk, maxRetries, op, failMsg, calls, nexts);
      && (o == Error(NoClientMessage) <==> !hadClient && !(creds && authOk))
      && (!hadClient && !(creds && authOk) ==> waits == [])
      && ((hadClient || (creds && authOk)) && maxRetries <= 0 ==> o == Error(failMsg) && waits == [])
      && ((hadClient || (creds && authOk)) && maxRetries > 0 ==> |waits| < maxRetries)
  {
    RetryWaits(calls, authOk, op, maxRetries, 0);
    if hadClient || (creds && authOk) {
      var r := Retry(calls, authOk, op, maxRetries, 0);
      if r.result.Got? && !r.result.value.NoResult? {
        PagesOutcome(r.result.value, nexts);
      }
    }
  }

  /** `fetch_user_playlists`'s page loop. */
  method CollectPages<T>(first: Response<T>, nexts: seq<Call<Response<T>>>) returns (o: Outcome<seq<T>>)
    ensures o == Pages(first, nexts)
  {
    var acc: seq<T> := [];
    var cur := first;
    var k := 0;
    PrefixedSteps(acc, [], Pages(first, nexts));
    while cur.Page?
      invariant k <= |nexts|
      invariant Pages(first, nexts) == Prefixed(acc, Pages(cur, nexts[k..]))
      decreases |nexts| - k
    {
      ghost var rest := if cur.hasNext && k < |nexts| && nexts[k].Returned? then Pages(nexts[k].value, nexts[k + 1..]) else Fetched([]);
      PrefixedSteps(acc, cur.items, rest);
      acc := acc + cur.items;
      if !cur.hasNext || k == |nexts| {
        return Fetched(acc);
      }
      match nexts[k] {
        case Raised(f) =>
          return Propagated(f);
        case Returned(r) =>
          assert nexts[k..][1..] == nexts[k + 1..];
          cur := r;
          k := k + 1;
      }
    }
    PrefixedSteps(acc, [], Fetched([]));
    return Fetched(acc);
  }

  /** One page of `fetch_playlist_items`: append the set tracks of `items`
      to the list kept so far for the entries `seen`. */
  method AppendPresent<T>(acc: seq<T>, ghost seen: seq<Option<T>>, items: seq<Option<T>>) returns (r: seq<T>)
    requires acc == Present(seen)
    ensures r == Present(seen + items)
  {
    r := acc;
    assert seen + items[..0] == seen;
    for i := 0 to |items|
      invariant r == Present(seen + items[..i])
    {
      assert seen + items[..i + 1] == (seen + items[..i]) + [items[i]];
      PresentSnoc(seen + items[..i], items[i]);
      if items[i].Some? {
        r := r + [items[i].value];
      }
    }
    assert items[..|items|] == items;
  }

  /** `fetch_playlist_items`'s page loop: entries without a track are
      skipped page by page. */
  method CollectTracks<T>(first: Response<Option<T>>, nexts: seq<Call<Response<Option<T>>>>) returns (o: Outcome<seq<T>>)
    ensures o == PresentOutcome(Pages(first, nexts))
  {
    var acc: seq<T> := [];
    var cur := first;
    var k := 0;
    ghost var seen: seq<Option<T>> := [];
    PrefixedSteps(seen, [], Pages(first, nexts));
    while cur.Page?
      invariant k <= |nexts|
      invariant acc == Present(seen)
      invariant Pages(first, nexts) == Prefixed(seen, Pages(cur, nexts[k..]))
      decreases |nexts| - k
    {
      ghost var rest := if cur.hasNext && k < |nexts| && nexts[k].Returned? then Pages(nexts[k].value, nexts[k + 1..]) else Fetched([]);
      PrefixedSteps(seen, cur.items, rest);
      acc := AppendPresent(acc, seen, cur.items);
      seen := seen + cur.items;
      if !cur.hasNext || k == |nexts| {
        return Fetched(acc);
      }
      match nexts[k] {
        case Raised(f) =>
          return Propagated(f);
        case Returned(r) =>
          assert nexts[k..][1..] == nexts[k + 1..];
          cur := r;
          k := k + 1;
      }
    }
    PrefixedSteps(seen, [], Fetched([]));
    return Fetched(acc);
  }

  class SpotifyClient {
    const cfg: map<string, Value>
    /** `self.sp is not None`. */
    var hasClient: bool

    /** A client only exists when the credentials are set. */
    ghost predicate Valid()
      reads this
    {
      hasClient ==> HasCredentials(cfg)
    }

    constructor (config: map<string, Value>)
      ensures Valid() && cfg == config && !hasClient
    {
      cfg := config;
      hasClient := false;
    }

    /** `ensure_client`; `authOk` says whether building the OAuth manager
        and the client succeeds. Without credentials it returns false and
        leaves the client as it was. */
    method EnsureClient(authOk: bool) returns (ok: bool)
      requires Valid()
      modifies this
      ensures Valid()
      ensures ok <==> HasCredentials(cfg) && authOk
      ensures !HasCredentials(cfg) ==> hasClient == old(hasClient)
      ensures HasCredentials(cfg) ==> hasClient == authOk
    {
      if !HasCredentials(cfg) {
        return false;
      }
      hasClient := authOk;
      return authOk;
    }

    /** The retry loop shared by both fetches; `op` names the remote call. */
    method RetryLoop<R>(calls: nat -> Call<R>, authOk: bool, op: string, maxRetries: int)
      returns (res: Tried<R>, waits: seq<nat>)
      requires Valid() && hasClient
      modifies this
      ensures Valid()
      ensures Retried(res, waits) == Retry(calls, authOk, op, maxRetries, 0)
      ensures hasClient == (waits == [] || authOk)
    {
      var attempt: nat := 0;
      waits := [];
      while attempt < maxRetries
        invariant Valid() && HasCredentials(cfg)
        invariant |waits| == attempt
        invariant hasClient == (attempt == 0 || authOk)
        invariant Retry(calls, authOk, op, maxRetries, 0)
                  == Retried(Retry(calls, authOk, op, maxRetries, attempt).result,
                             waits + Retry(calls, authOk, op, maxRetries, attempt).waits)
        decreases maxRetries - attempt
      {
        var call := if hasClient then calls(attempt) else Raised(DeadClient(op));
        if call.Returned? {
          assert waits + [] == waits;
          return Got(call.value), waits;
        }
        var f := call.failure;
        if IsTransient(f) && attempt + 1 < maxRetries {
          assert waits + Retry(calls, authOk, op, maxRetries, attempt).waits
              == (waits + [Backoff(attempt)]) + Retry(calls, authOk, op, maxRetries, attempt + 1).waits;
          waits := waits + [Backoff(attempt)];
          var _ := EnsureClient(authOk);
          attempt := attempt + 1;
        } else {
          assert waits + [] == waits;
          return Threw(f), waits;
        }
      }
      assert waits + [] == waits;
      return GaveUp, waits;
    }

    /** `fetch_user_playlists`. */
    method FetchUserPlaylists<P>(maxRetries: int, authOk: bool, calls: nat -> Call<Response<P>>,
                                 nexts: seq<Call<Response<P>>>)
      returns (o: Outcome<seq<P>>, waits: seq<nat>)
      requires Valid()
      modifies this
      ensures Valid()
      ensures (o, waits) == FetchOutcome(old(hasClient), HasCredentials(cfg), authOk, maxRetries,
                                         "current_user_playlists", PlaylistsMessage, calls, nexts)
      ensures hasClient == if old(hasClient) then waits == [] || authOk else HasCredentials(cfg) && authOk
    {
      if !hasClient {
        var ok := EnsureClient(authOk);
        if !ok {
          return Error(NoClientMessage), [];
        }
      }
      var res;
      res, waits := RetryLoop(calls, authOk, "current_user_playlists", maxRetries);
      match res {
        case GaveUp =>
          o := Error(PlaylistsMessage);
        case Threw(f) =>
          o := Propagated(f);
        case Got(resp) =>
          if resp.NoResult? {
            o := Error(PlaylistsMessage);
          } else {
            o := CollectPages(resp, nexts);
          }
      }
    }

    /** `fetch_playlist_items`. */
    method FetchPlaylistItems(maxRetries: int, authOk: bool, calls: nat -> Call<Response<Option<Track>>>,
                              nexts: seq<Call<Response<Option<Track>>>>)
      returns (o: Outcome<seq<Track>>, waits: seq<nat>)
      requires Valid()
      modifies this
      ensures Valid()
      ensures var (raw, w) := FetchOutcome(old(hasClient), HasCredentials(cfg), authOk, maxRetries,
                                           "playlist_items", ItemsMessage, calls, nexts);
              o == PresentOutcome(raw) && waits == w
      ensures hasClient == if old(hasClient) then waits == [] || authOk else HasCredentials(cfg) && authOk
    {
      if !hasClient {
        var ok := EnsureClient(authOk);
        if !ok {
          return Error(NoClientMessage), [];
        }
      }
      var res;
      res, waits := RetryLoop(calls, authOk, "playlist_items", maxRetries);
      match res {
        case GaveUp =>
          o := Error(ItemsMessage);
        case Threw(f) =>
          o := Propagated(f);
        case Got(resp) =>
          if resp.NoResult? {
            o := Error(ItemsMessage);
          } else {
            o := CollectTracks(resp, nexts);
          }
      }
    }
  }
}
