/**
 * JavaScript values as the pipeline sees them: what JSON.parse returns,
 * truthiness and `||`, object spread, and the few string operations the
 * pipeline relies on (`trim`, `startsWith`, `toLowerCase`, `\s`).
 */
module JsValues {
  import opened Outcomes

  /** A decoded JSON value. JSON text has no NaN or infinities, so numbers are exact reals. */
  datatype Json =
    | Null
    | Bool(b: bool)
    | Num(n: real)
    | Str(s: string)
    | Arr(items: seq<Json>)
    | Obj(fields: map<string, Json>)

  /** A plain object as a map from key to value; key order is not modelled. */
  type Object = map<string, Json>

  /** Reading `o.key`; `None` stands for `undefined`. */
  function Prop(o: Object, key: string): Option<Json> {
    if key in o then Some(o[key]) else None
  }

  /** JavaScript's ToBoolean: `undefined`, `null`, `false`, `0` and `""` are falsy. */
  predicate Truthy(v: Option<Json>) {
    match v
    case None => false
    case Some(j) =>
      match j
      case Null => false
      case Bool(b) => b
      case Num(n) => n != 0.0
      case Str(s) => s != ""
      case Arr(_) => true
      case Obj(_) => true
  }

  /** `a || b`: truthy exactly when one operand is, and then the first truthy one. */
  function Or(a: Option<Json>, b: Option<Json>): (r: Option<Json>)
    ensures Truthy(r) <==> Truthy(a) || Truthy(b)
    ensures Truthy(a) ==> r == a
    ensures !Truthy(a) ==> r == b
  {
    if Truthy(a) then a else b
  }

  /** ToBoolean of the optional fields of a typed upstream response body. */
  predicate HasText(o: Option<string>) {
    o.Some? && o.value != ""
  }

  predicate HasCount(o: Option<int>) {
    o.Some? && o.value != 0
  }

  predicate HasAmount(o: Option<real>) {
    o.Some? && o.value != 0.0
  }

  /** `Response.ok`: a status in the 2xx range. */
  predicate IsOkStatus(status: int) {
    200 <= status <= 299
  }

  /* ---------------------------- strings ---------------------------- */

  /** `s.startsWith(prefix)`. */
  predicate StartsWith(s: string, prefix: string) {
    |prefix| <= |s| && s[..|prefix|] == prefix
  }

  /** The characters matched by the regular-expression class `\s`, which are also those `trim` removes. */
  predicate IsJsSpace(c: char) {
    var n := c as int;
    || (0x09 <= n <= 0x0D) || n == 0x20 || n == 0xA0 || n == 0x1680
    || (0x2000 <= n <= 0x200A) || n == 0x2028 || n == 0x2029
    || n == 0x202F || n == 0x205F || n == 0x3000 || n == 0xFEFF
  }

  /** The first index at or after `from` whose character does not satisfy `p`, or `|s|`. */
  function SkipWhile(s: string, from: nat, p: char -> bool): (n: nat)
    requires from <= |s|
    ensures from <= n <= |s|
    ensures forall i :: from <= i < n ==> p(s[i])
    ensures n < |s| ==> !p(s[n])
    decreases |s| - from
  {
    if from == |s| || !p(s[from]) then from else SkipWhile(s, from + 1, p)
  }

  /** The skip is the only index with its three properties: a maximal run is determined by where it stops. */
  lemma SkipWhileStopsAt(s: string, from: nat, p: char -> bool, n: nat)
    requires from <= n <= |s|
    requires forall i :: from <= i < n ==> p(s[i])
    requires n < |s| ==> !p(s[n])
    ensures SkipWhile(s, from, p) == n
  {
  }

  /** The length of the longest suffix of `s` whose characters all satisfy `p`. */
  function SpanBack(s: string, p: char -> bool): (n: nat)
    ensures n <= |s|
    ensures forall i :: |s| - n <= i < |s| ==> p(s[i])
    ensures n < |s| ==> !p(s[|s| - n - 1])
    decreases |s|
  {
    if |s| == 0 || !p(s[|s| - 1]) then 0 else 1 + SpanBack(s[..|s| - 1], p)
  }

  /** `r` is `s` with the first `i` characters and everything after `r` removed, all of them spaces. */
  ghost predicate TrimmedAt(s: string, r: string, i: int) {
    && 0 <= i <= i + |r| <= |s|
    && r == s[i..i + |r|]
    && (forall k :: 0 <= k < i ==> IsJsSpace(s[k]))
    && (forall k :: i + |r| <= k < |s| ==> IsJsSpace(s[k]))
  }

  /** A run of spaces at the end of `s[i..]` is one at the end of `s`. */
  lemma SpanBackOfSuffix(s: string, i: nat, n: nat)
    requires i <= |s| && n == SpanBack(s[i..], IsJsSpace)
    ensures i <= |s| - n
    ensures forall k :: |s| - n <= k < |s| ==> IsJsSpace(s[k])
    ensures i < |s| - n ==> !IsJsSpace(s[|s| - n - 1])
  {
    var t := s[i..];
    assert forall k :: |s| - n <= k < |s| ==> s[k] == t[k - i];
  }

  /** `String.prototype.trim`: the slice of `s` left after stripping spaces from both ends. */
  function Trim(s: string): (r: string)
    ensures exists i :: TrimmedAt(s, r, i)
    ensures |r| > 0 ==> !IsJsSpace(r[0]) && !IsJsSpace(r[|r| - 1])
  {
    var i := SkipWhile(s, 0, IsJsSpace);
    var n := SpanBack(s[i..], IsJsSpace);
    SpanBackOfSuffix(s, i, n);
    var r := s[i..|s| - n];
    assert TrimmedAt(s, r, i);
    r
  }

  /** ASCII case folding; see `LowerAscii`. */
  function AsciiLower(c: char): char {
    if 'A' <= c <= 'Z' then (c as int + 32) as char else c
  }

  /**
   * `s.toLowerCase()` restricted to ASCII letters. The pipeline only compares
   * the lower-cased text with an all-ASCII constant. The non-ASCII characters
   * whose lower case involves an ASCII letter either give `k` (U+212A), which
   * the constant lacks, or add a combining mark (U+0130 gives `i` and U+0307),
   * which no ASCII constant contains; so the comparison is the same as with
   * full Unicode case mapping.
   */
  function LowerAscii(s: string): string {
    seq(|s|, i requires 0 <= i < |s| => AsciiLower(s[i]))
  }

  /* ------------------------- decimal indices ------------------------- */

  function DigitChar(d: nat): char
    requires d < 10
  {
    ('0' as int + d) as char
  }

  predicate IsDigit(c: char) {
    '0' <= c <= '9'
  }

  /** The canonical decimal form of an array index, as used for property keys. */
  function NatToString(n: nat): (s: string)
    ensures |s| > 0
    ensures forall i :: 0 <= i < |s| ==> IsDigit(s[i])
    decreases n
  {
    if n < 10 then [DigitChar(n)] else NatToString(n / 10) + [DigitChar(n % 10)]
  }

  /** Reads a string of decimal digits back as a number. */
  function DecimalValue(s: string): nat
    requires forall i :: 0 <= i < |s| ==> IsDigit(s[i])
    decreases |s|
  {
    if |s| == 0 then 0
    else
      assert IsDigit(s[|s| - 1]);
      DecimalValue(s[..|s| - 1]) * 10 + (s[|s| - 1] as int - '0' as int)
  }

  lemma {:induction false} DecimalRoundTrip(n: nat)
    ensures DecimalValue(NatToString(n)) == n
    decreases n
  {
    if n >= 10 {
      var s := NatToString(n);
      assert s[..|s| - 1] == NatToString(n / 10);
      DecimalRoundTrip(n / 10);
    }
  }

  /** Distinct indices have distinct keys. */
  lemma NatToStringInjective()
    ensures forall m: nat, n: nat :: NatToString(m) == NatToString(n) ==> m == n
  {
    forall m: nat, n: nat | NatToString(m) == NatToString(n)
      ensures m == n
    {
      DecimalRoundTrip(m);
      DecimalRoundTrip(n);
    }
  }

  /** The keys `"0"`, `"1"`, … of the first `len` indices. */
  function IndexKeys(len: nat): set<string> {
    set i: nat | i < len :: NatToString(i)
  }

  /** The entries `{"0": xs[0], "1": xs[1], …}` an array contributes to a spread. */
  function IndexedEntries(xs: seq<Json>): (r: Object)
    ensures r.Keys == IndexKeys(|xs|)
    ensures forall i: nat :: i < |xs| ==> r[NatToString(i)] == xs[i]
    decreases |xs|
  {
    if |xs| == 0 then map[]
    else
      var last: nat := |xs| - 1;
      var r := IndexedEntries(xs[..last])[NatToString(last) := xs[last]];
      NatToStringInjective();
      assert IndexKeys(|xs|) == IndexKeys(last) + {NatToString(last)} by {
        forall k | k in IndexKeys(|xs|)
          ensures k in IndexKeys(last) + {NatToString(last)}
        {
          var i: nat :| i < |xs| && k == NatToString(i);
          if i < last {
            assert k in IndexKeys(last);
          }
        }
      }
      r
  }

  /** A string's characters as one-character strings (what indexing a string yields). */
  function Characters(s: string): seq<Json> {
    seq(|s|, i requires 0 <= i < |s| => Str([s[i]]))
  }

  /**
   * The own enumerable properties `{...v}` copies: an object's entries, an
   * array's elements and a string's characters under their decimal indices,
   * and nothing for `null`, booleans and numbers.
   */
  function Spread(v: Json): (r: Object)
    ensures v.Obj? ==> r == v.fields
    ensures v.Arr? ==> r.Keys == IndexKeys(|v.items|)
    ensures v.Arr? ==> forall i: nat :: i < |v.items| ==> r[NatToString(i)] == v.items[i]
    ensures v.Str? ==> r.Keys == IndexKeys(|v.s|)
    ensures v.Str? ==> forall i: nat :: i < |v.s| ==> r[NatToString(i)] == Str([v.s[i]])
    ensures v.Null? || v.Bool? || v.Num? ==> r == map[]
  {
    match v
    case Obj(o) => o
    case Arr(xs) => IndexedEntries(xs)
    case Str(s) => IndexedEntries(Characters(s))
    case _ => map[]
  }

  /**
   * `{...a, ...b}` on two spread objects: every key of either, and on a key
   * both carry, the value from `b`.
   */
  function Merge(a: Object, b: Object): (r: Object)
    ensures r.Keys == a.Keys + b.Keys
    ensures forall k :: k in b ==> r[k] == b[k]
    ensures forall k :: k in a && k !in b ==> r[k] == a[k]
  {
    a + b
  }
}
