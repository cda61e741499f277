/** Helpers of `spotcomps/utils.py`: file-name sanitising, the history cap
    applied on save, the default merge of `load_config`, and the message
    rule of the transient-network-error test. */
module Utils {
  import opened Common

  // ---------------------------------------------------------------------
  // sanitize_filename

  /** The nine characters the file-name pattern deletes: backslash, slash,
      star, question mark, colon, double quote, less, greater, bar. */
  predicate IllegalChar(c: char) {
    c == '\\' || c == '/' || c == '*' || c == '?' || c == ':' || c == '"' || c == '<' || c == '>' || c == '|'
  }

  /** Python's `str.isspace()`: the characters `str.strip()` removes. */
  predicate IsSpace(c: char) {
    c == ' ' || ('\t' <= c <= '\r') || ('\U{1C}' <= c <= '\U{1F}')
    || c == '\U{85}' || c == '\U{A0}' || c == '\U{1680}'
    || ('\U{2000}' <= c <= '\U{200A}') || c == '\U{2028}' || c == '\U{2029}'
    || c == '\U{202F}' || c == '\U{205F}' || c == '\U{3000}'
  }

  /** The first position at or after `i` that is not whitespace (or `|s|`). */
  function FirstNonSpace(s: string, i: nat): (r: nat)
    requires i <= |s|
    ensures i <= r <= |s|
    ensures forall k :: i <= k < r ==> IsSpace(s[k])
    ensures r < |s| ==> !IsSpace(s[r])
    decreases |s| - i
  {
    if i == |s| || !IsSpace(s[i]) then i else FirstNonSpace(s, i + 1)
  }

  /** The end of `s[lo..j]` once its trailing whitespace is cut off. */
  function EndNonSpace(s: string, lo: nat, j: nat): (r: nat)
    requires lo <= j <= |s|
    ensures lo <= r <= j
    ensures forall k :: r <= k < j ==> IsSpace(s[k])
    ensures r > lo ==> !IsSpace(s[r - 1])
    decreases j
  {
    if j == lo || !IsSpace(s[j - 1]) then j else EndNonSpace(s, lo, j - 1)
  }

  /** `str.strip()`: the contiguous part of `s` left once leading and
      trailing whitespace is removed. */
  function Strip(s: string): (r: string)
    ensures r == [] || (!IsSpace(r[0]) && !IsSpace(r[|r| - 1]))
    ensures exists i :: OccursAt(s, r, i)
                        && (forall k :: 0 <= k < i ==> IsSpace(s[k]))
                        && (forall k :: i + |r| <= k < |s| ==> IsSpace(s[k]))
  {
    var i := FirstNonSpace(s, 0);
    var j := EndNonSpace(s, i, |s|);
    assert OccursAt(s, s[i..j], i);
    s[i..j]
  }

  /** The regular-expression substitution that deletes every illegal
      character. */
  function RemoveIllegal(s: string): (r: string)
    ensures |r| <= |s|
    ensures forall k :: 0 <= k < |r| ==> !IllegalChar(r[k])
    decreases |s|
  {
    if s == [] then []
    else if IllegalChar(s[|s| - 1]) then RemoveIllegal(s[..|s| - 1])
    else RemoveIllegal(s[..|s| - 1]) + [s[|s| - 1]]
  }

  const MaxNameLength := 240

  /** `sanitize_filename`: strip, delete the illegal characters, keep at
      most 240 characters. */
  function SanitizeFilename(name: string): (r: string)
    ensures name == "" ==> r == ""
    ensures |r| <= MaxNameLength
    ensures forall k :: 0 <= k < |r| ==> !IllegalChar(r[k])
    ensures StartsWith(RemoveIllegal(Strip(name)), r)
    ensures |RemoveIllegal(Strip(name))| <= MaxNameLength ==> r == RemoveIllegal(Strip(name))
    ensures |RemoveIllegal(Strip(name))| > MaxNameLength ==> |r| == MaxNameLength
  {
    if name == "" then ""
    else
      var cleaned := RemoveIllegal(Strip(name));
      if |cleaned| <= MaxNameLength then cleaned else cleaned[..MaxNameLength]
  }

  /** Deleting illegal characters distributes over concatenation, so the
      legal characters keep their relative order. */
  lemma {:induction false} RemoveIllegalAppend(a: string, b: string)
    ensures RemoveIllegal(a + b) == RemoveIllegal(a) + RemoveIllegal(b)
    decreases |b|
  {
    if b == [] {
      assert a + b == a;
    } else {
      var b' := b[..|b| - 1];
      assert (a + b)[..|a + b| - 1] == a + b';
      RemoveIllegalAppend(a, b');
    }
  }

  /** Every legal character occurs in the result exactly as often as in
      the input; illegal characters do not occur at all. */
  lemma {:induction false} RemoveIllegalCounts(s: string, c: char)
    ensures multiset(RemoveIllegal(s))[c] == if IllegalChar(c) then 0 else multiset(s)[c]
    decreases |s|
  {
    if s != [] {
      var s' := s[..|s| - 1];
      assert s == s' + [s[|s| - 1]];
      RemoveIllegalCounts(s', c);
    }
  }

  /** A string without illegal characters passes through unchanged. */
  lemma {:induction false} RemoveIllegalKeepsLegal(s: string)
    requires forall k :: 0 <= k < |s| ==> !IllegalChar(s[k])
    ensures RemoveIllegal(s) == s
    decreases |s|
  {
    if s != [] {
      RemoveIllegalKeepsLegal(s[..|s| - 1]);
    }
  }

  /** A string that neither starts nor ends with whitespace is its own strip. */
  lemma StripUnchanged(s: string)
    requires s == [] || (!IsSpace(s[0]) && !IsSpace(s[|s| - 1]))
    ensures Strip(s) == s
  {
    assert FirstNonSpace(s, 0) == 0;
    assert EndNonSpace(s, 0, |s|) == |s|;
    assert s[0..|s|] == s;
  }

  /** Separators vanish: `sanitize_filename("A/B:C")` is `"ABC"`. */
  lemma SanitizeDropsSeparators()
    ensures SanitizeFilename("A/B:C") == "ABC"
  {
    StripUnchanged("A/B:C");
    RemovedSeparators();
  }

  lemma RemovedSeparators()
    ensures RemoveIllegal("A/B:C") == "ABC"
  {
    assert "A/B:C"[..4] == "A/B:" && "A/B:"[..3] == "A/B" && "A/B"[..2] == "A/" && "A/"[..1] == "A" && "A"[..0] == "";
    assert RemoveIllegal("A") == "A";
    assert RemoveIllegal("A/") == "A";
    assert RemoveIllegal("A/B") == "AB";
    assert RemoveIllegal("A/B:") == "AB";
  }

  /** A 300-character legal name is cut to its first 240 characters. */
  lemma SanitizeTruncates()
    ensures SanitizeFilename(seq(300, _ => 'a')) == seq(240, _ => 'a')
  {
    var long := seq(300, _ => 'a');
    StripUnchanged(long);
    RemoveIllegalKeepsLegal(long);
    assert long[..240] == seq(240, _ => 'a');
  }

  /** Stripping happens before deletion, so deleting a character can expose
      whitespace that a second call removes: the function is not idempotent. */
  lemma SanitizeNotIdempotent()
    ensures SanitizeFilename("a *") == "a "
    ensures SanitizeFilename(SanitizeFilename("a *")) == "a"
  {
    StripUnchanged("a *");
    RemovedStar();
    StripTrailing();
    RemoveIllegalKeepsLegal("a");
    StripUnchanged("a");
  }

  lemma RemovedStar()
    ensures RemoveIllegal("a *") == "a "
  {
    assert "a *"[..2] == "a " && "a "[..1] == "a" && "a"[..0] == "";
    assert RemoveIllegal("a") == "a";
  }

  lemma StripTrailing()
    ensures Strip("a ") == "a"
  {
    assert FirstNonSpace("a ", 0) == 0;
    assert EndNonSpace("a ", 0, 2) == 1;
    assert "a "[0..1] == "a";
  }

  // ---------------------------------------------------------------------
  // History and save_history

  /** One history record; entries of the `downloads` list have no error. */
  datatype Entry = Entry(title: string, artist: string, status: string, date: string, error: Option<string>)

  /** The history dict, whose two lists are updated in place. */
  class History {
    var downloads: seq<Entry>
    var failed: seq<Entry>

    /** The empty history `load_history` falls back to. */
    constructor ()
      ensures downloads == [] && failed == []
    {
      downloads, failed := [], [];
    }
  }

  const MaxDownloads := 1000

  /** `downloads[-1000:]` when the list is longer than 1000, else the list. */
  function Capped<T>(s: seq<T>): (r: seq<T>)
    ensures |r| <= MaxDownloads
    ensures |s| <= MaxDownloads ==> r == s
    ensures |s| > MaxDownloads ==> |r| == MaxDownloads
    ensures r == s[|s| - |r|..]
  {
    if |s| > MaxDownloads then s[|s| - MaxDownloads..] else s
  }

  /** Capping after every append keeps the same entries as capping once at
      the end: the oldest entries are the ones evicted. */
  lemma CappedAppend<T>(s: seq<T>, e: T)
    ensures Capped(Capped(s) + [e]) == Capped(s + [e])
  {
    if |s| > MaxDownloads {
      assert (s[|s| - MaxDownloads..] + [e])[1..] == (s + [e])[|s| + 1 - MaxDownloads..];
    }
  }

  /** `save_history`: the cap on `downloads`; writing the JSON file is not
      part of this model. */
  method SaveHistory(h: History)
    modifies h
    ensures h.downloads == Capped(old(h.downloads))
    ensures h.failed == old(h.failed)
  {
    if |h.downloads| > MaxDownloads {
      h.downloads := h.downloads[|h.downloads| - MaxDownloads..];
    }
  }

  // ---------------------------------------------------------------------
  // load_config

  /** `DEFAULTS`, in its declaration order; `home` is `Path.home()`. */
  function Defaults(home: string): seq<(string, Value)> {
    [ ("output_dir", Str(home + "/Music/SpotifyMusic")),
      ("concurrency", Int(3)),
      ("cache_path", Str(home + "/.spotload/.spotify_cache")),
      ("client_id", Str("")),
      ("client_secret", Str("")),
      ("redirect_uri", Str("http://127.0.0.1:8888/callback")),
      ("audio_quality", Str("320")),
      ("add_metadata", Bool(true)),
      ("organize_by_artist", Bool(false)),
      ("skip_existing", Bool(true)) ]
  }

  /** The dict built by `setdefault` over `pairs`, starting empty: the first
      pair with a given key wins. */
  function FirstWins(pairs: seq<(string, Value)>): (m: map<string, Value>)
    ensures forall j :: 0 <= j < |pairs| ==> pairs[j].0 in m
    ensures forall k :: k in m ==> exists j :: 0 <= j < |pairs| && pairs[j] == (k, m[k])
    decreases |pairs|
  {
    if pairs == [] then map[]
    else
      var m := FirstWins(pairs[..|pairs| - 1]);
      var last := pairs[|pairs| - 1];
      assert forall j :: 0 <= j < |pairs| - 1 ==> pairs[..|pairs| - 1][j] == pairs[j];
      if last.0 in m then m else m[last.0 := last.1]
  }

  /** What the config file held when it was read. */
  datatype StoredConfig =
    | NoFile                                // the file does not exist
    | Unreadable                            // reading or parsing raised, or the JSON is not an object
    | Parsed(entries: map<string, Value>)

  /** The `for k, v in DEFAULTS.items(): cfg.setdefault(k, v)` loop. */
  method SetDefaults(start: map<string, Value>, pairs: seq<(string, Value)>) returns (cfg: map<string, Value>)
    ensures cfg == FirstWins(pairs) + start
  {
    cfg := start;
    for i := 0 to |pairs|
      invariant cfg == FirstWins(pairs[..i]) + start
    {
      var (k, v) := pairs[i];
      FirstWinsNext(pairs, i);
      SetDefaultStep(FirstWins(pairs[..i]), start, k, v);
      if k !in cfg {
        cfg := cfg[k := v];
      }
    }
    assert pairs[..|pairs|] == pairs;
  }

  lemma FirstWinsNext(pairs: seq<(string, Value)>, i: nat)
    requires i < |pairs|
    ensures var before := FirstWins(pairs[..i]);
      FirstWins(pairs[..i + 1]) == if pairs[i].0 in before then before else before[pairs[i].0 := pairs[i].1]
  {
    assert pairs[..i + 1][..i] == pairs[..i];
  }

  /** One `setdefault` on the merged dict is one first-wins step under it. */
  lemma SetDefaultStep(before: map<string, Value>, start: map<string, Value>, k: string, v: Value)
    ensures var cfg := before + start;
      (if k in cfg then cfg else cfg[k := v]) == (if k in before then before else before[k := v]) + start
  {
    var cfg := before + start;
    if k !in cfg {
      assert cfg[k := v] == before[k := v] + start;
    } else if k !in before {
      assert before[k := v] + start == cfg;
    }
  }

  /** `load_config`: defaults fill every missing key; stored values win. */
  method LoadConfig(home: string, stored: StoredConfig) returns (cfg: map<string, Value>)
    ensures cfg == if stored.Parsed? then FirstWins(Defaults(home)) + stored.entries
                   else FirstWins(Defaults(home))
    ensures forall j :: 0 <= j < |Defaults(home)| ==> Defaults(home)[j].0 in cfg
    ensures stored.Parsed? ==> forall k :: k in stored.entries ==> cfg[k] == stored.entries[k]
  {
    var defaults := Defaults(home);
    match stored {
      case Unreadable =>
        cfg := FirstWins(defaults);
      case NoFile =>
        // DEFAULTS.copy(), written back to disk (not modelled), then merged
        var copy := FirstWins(defaults);
        cfg := SetDefaults(copy, defaults);
        assert cfg == copy;
      case Parsed(entries) =>
        cfg := SetDefaults(entries, defaults);
    }
  }

  // ---------------------------------------------------------------------
  // is_transient_network_error (message rule)

  /** The message rule: the lowercased text mentions a reset, an abort or a
      timeout. */
  predicate IsTransientMessage(msg: string) {
    var m := Lower(msg);
    Contains(m, "connection reset") || Contains(m, "connection aborted") || Contains(m, "timeout")
  }

  /** The rule ignores case. */
  lemma {:induction false} TransientMessageIgnoresCase(msg: string)
    ensures IsTransientMessage(Lower(msg)) == IsTransientMessage(msg)
  {
    LowerIdempotent(msg);
  }

  /** The rule looks for its phrases anywhere in the text: a transient
      message stays transient inside any longer one. */
  lemma TransientMessageWithin(before: string, msg: string, after: string)
    requires IsTransientMessage(msg)
    ensures IsTransientMessage(before + msg + after)
  {
    LowerConcat(before, msg);
    LowerConcat(before + msg, after);
    var m := Lower(msg);
    assert Lower(before + msg + after) == Lower(before) + m + Lower(after);
    if Contains(m, "connection reset") {
      ContainsWithin(Lower(before), m, Lower(after), "connection reset");
    } else if Contains(m, "connection aborted") {
      ContainsWithin(Lower(before), m, Lower(after), "connection aborted");
    } else {
      ContainsWithin(Lower(before), m, Lower(after), "timeout");
    }
  }

  lemma LowerConcat(a: string, b: string)
    ensures Lower(a + b) == Lower(a) + Lower(b)
  {
  }

  lemma LowerIdempotent(s: string)
    ensures Lower(Lower(s)) == Lower(s)
  {
  }
}
