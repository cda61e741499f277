/** Shared vocabulary: an Option type, the few Python value rules the
    program relies on (truthiness, `str()`), and the string operations it
    uses (`lower`, `in` on strings, `", ".join`). */
module Common {

  datatype Option<+T> = None | Some(value: T) {
    function GetOr(default: T): T {
      match this
      case Some(v) => v
      case None => default
    }
  }

  /** A JSON-like scalar as it appears in config files and metadata dicts.
      A missing key and an explicit `null` are both `Null` (`dict.get`
      returns `None` for either). */
  datatype Value = Null | Bool(b: bool) | Int(i: int) | Str(s: string)

  /** `d.get(key, default)` on a dict of scalars. */
  function Setting(d: map<string, Value>, key: string, default: Value): Value {
    if key in d then d[key] else default
  }

  /** Python truthiness of a scalar. */
  predicate Truthy(v: Value) {
    match v
    case Null => false
    case Bool(b) => b
    case Int(i) => i != 0
    case Str(s) => s != ""
  }

  /** Truthiness of an optional string (`None` and `""` are falsy). */
  predicate TruthyText(t: Option<string>) {
    t.Some? && t.value != ""
  }

  function DigitChar(d: nat): char
    requires d < 10
  {
    "0123456789"[d]
  }

  /** Decimal notation of a natural number, as Python's `str(int)`. */
  function NatToString(n: nat): (r: string)
    ensures |r| > 0
    ensures forall k :: 0 <= k < |r| ==> '0' <= r[k] <= '9'
    decreases n
  {
    if n < 10 then [DigitChar(n)] else NatToString(n / 10) + [DigitChar(n % 10)]
  }

  /** `str(i)` for a Python int. */
  function IntToString(i: int): (r: string)
    ensures |r| > 0
    ensures (r[0] == '-') <==> i < 0
  {
    if i < 0 then "-" + NatToString(-i) else NatToString(i)
  }

  /** `str(v)` for a scalar. */
  function Repr(v: Value): string {
    match v
    case Null => "None"
    case Bool(b) => if b then "True" else "False"
    case Int(i) => IntToString(i)
    case Str(s) => s
  }

  /** `str(x)` for an optional int, as an f-string renders it. */
  function OptIntToString(x: Option<int>): string {
    match x
    case Some(i) => IntToString(i)
    case None => "None"
  }

  /** `str.lower()` restricted to ASCII letters. */
  function LowerChar(c: char): char {
    if 'A' <= c <= 'Z' then (c as int + 32) as char else c
  }

  function Lower(s: string): (r: string)
    ensures |r| == |s|
    ensures forall k :: 0 <= k < |s| ==> r[k] == LowerChar(s[k])
  {
    if s == [] then [] else [LowerChar(s[0])] + Lower(s[1..])
  }

  predicate StartsWith(s: string, prefix: string) {
    |prefix| <= |s| && s[..|prefix|] == prefix
  }

  /** `sub in s` for Python strings: a search from the left. */
  predicate Contains(s: string, sub: string)
    decreases |s|
  {
    StartsWith(s, sub) || (|s| > 0 && Contains(s[1..], sub))
  }

  /** `sub` occurs in `s` starting at position `i`. */
  predicate OccursAt(s: string, sub: string, i: int) {
    0 <= i <= |s| - |sub| && s[i..i + |sub|] == sub
  }

  /** The left-to-right search agrees with the positional definition. */
  lemma {:induction false} ContainsAt(s: string, sub: string)
    ensures Contains(s, sub) <==> exists i :: OccursAt(s, sub, i)
    decreases |s|
  {
    if StartsWith(s, sub) {
      assert OccursAt(s, sub, 0);
    } else if |s| == 0 {
    } else {
      ContainsAt(s[1..], sub);
      if exists i :: OccursAt(s, sub, i) {
        var i :| OccursAt(s, sub, i);
        assert i != 0;
        assert s[1..][i - 1..i - 1 + |sub|] == s[i..i + |sub|];
        assert OccursAt(s[1..], sub, i - 1);
      }
      if Contains(s[1..], sub) {
        var j :| OccursAt(s[1..], sub, j);
        assert s[1..][j..j + |sub|] == s[j + 1..j + 1 + |sub|];
        assert OccursAt(s, sub, j + 1);
      }
    }
  }

  /** A substring of the middle part is a substring of the whole. */
  lemma ContainsWithin(a: string, b: string, c: string, sub: string)
    requires Contains(b, sub)
    ensures Contains(a + b + c, sub)
  {
    ContainsAt(b, sub);
    var i :| OccursAt(b, sub, i);
    var s := a + b + c;
    assert s[|a| + i..|a| + i + |sub|] == b[i..i + |sub|];
    assert OccursAt(s, sub, |a| + i);
    ContainsAt(s, sub);
  }

  /** `sep.join(parts)`. */
  function Join(parts: seq<string>, sep: string): string
    decreases |parts|
  {
    if parts == [] then ""
    else if |parts| == 1 then parts[0]
    else Join(parts[..|parts| - 1], sep) + sep + parts[|parts| - 1]
  }

  /** `int(a / b)` for ints: true division, then truncation toward zero. */
  function TruncDiv(a: int, b: int): (q: int)
    requires b > 0
  {
    if a >= 0 then a / b else -((-a) / b)
  }

  /** 2 ** k. */
  function Pow2(k: nat): (r: nat)
    ensures r >= 1
  {
    if k == 0 then 1 else 2 * Pow2(k - 1)
  }
}
