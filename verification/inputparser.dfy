/**
 * `parseInput` (functions/api/process.js:300-330): four input formats tried
 * in a fixed order, the first that succeeds giving the parsed object. A
 * strategy that fails, including by a JSON.parse that throws, falls through to
 * the next one.
 */
module InputParser {
  import opened Outcomes
  import opened JsValues

  /** JSON.parse, supplied by the caller; `None` where it would throw. */
  type JsonDecoder = string -> Option<Json>

  const RefreshTokenKey := "refreshToken"

  /** The marker every refresh token starts with; an access token with it is not reused. */
  const RefreshPrefix := "aor"

  /** The `{50,}` lower bound on both halves of a bare refresh token. */
  const MinRunLength := 50

  /** The labels `账号：` ("account:") and `登录token：` ("login token:"), each ending in a full-width colon. */
  const AccountLabel := "\U{8D26}\U{53F7}\U{FF1A}"
  const TokenLabel := "\U{767B}\U{5F55}token\U{FF1A}"

  /* ------------------------- 1. bare refresh token ------------------------- */

  /** The class `[A-Za-z0-9_+-]`. */
  predicate IsHeadChar(c: char) {
    ('A' <= c <= 'Z') || ('a' <= c <= 'z') || ('0' <= c <= '9') || c == '_' || c == '+' || c == '-'
  }

  /** The class `[A-Za-z0-9+/=]`. */
  predicate IsTailChar(c: char) {
    ('A' <= c <= 'Z') || ('a' <= c <= 'z') || ('0' <= c <= '9') || c == '+' || c == '/' || c == '='
  }

  /** `s` matches `^aor[A-Za-z0-9_+-]{50,}:[A-Za-z0-9+/=]{50,}$` with its colon at index `k`. */
  ghost predicate BareTokenAt(s: string, k: int) {
    && StartsWith(s, RefreshPrefix)
    && |RefreshPrefix| + MinRunLength <= k < |s|
    && (forall i :: |RefreshPrefix| <= i < k ==> IsHeadChar(s[i]))
    && s[k] == ':'
    && |s| - (k + 1) >= MinRunLength
    && (forall i :: k < i < |s| ==> IsTailChar(s[i]))
  }

  /** The bare-token pattern, as a regular expression reads it: some split point works. */
  ghost predicate BareTokenShape(s: string) {
    exists k :: BareTokenAt(s, k)
  }

  /** A greedy matcher for the bare-token pattern: the head run ends where the colon must be. */
  predicate IsBareToken(s: string) {
    && StartsWith(s, RefreshPrefix)
    && var k := SkipWhile(s, |RefreshPrefix|, IsHeadChar);
    && k - |RefreshPrefix| >= MinRunLength
    && k < |s|
    && s[k] == ':'
    && |s| - (k + 1) >= MinRunLength
    && SkipWhile(s, k + 1, IsTailChar) == |s|
  }

  /** The greedy matcher accepts exactly the strings the pattern matches. */
  lemma BareTokenMatchesPattern(s: string)
    ensures IsBareToken(s) <==> BareTokenShape(s)
  {
    if StartsWith(s, RefreshPrefix) {
      var k := SkipWhile(s, |RefreshPrefix|, IsHeadChar);
      if IsBareToken(s) {
        assert BareTokenAt(s, k);
      }
      if BareTokenShape(s) {
        var k' :| BareTokenAt(s, k');
        SkipWhileStopsAt(s, |RefreshPrefix|, IsHeadChar, k');
        SkipWhileStopsAt(s, k' + 1, IsTailChar, |s|);
      }
    }
  }

  /* ------------------------- 3. labelled fragments ------------------------- */

  predicate NotCloseBrace(c: char) {
    c != '}'
  }

  /**
   * `marker\s*(\{[^}]+\})` matches at index `i`, with the brace-delimited
   * capture running from index `b` to index `j` inclusive.
   */
  ghost predicate FragmentSpan(s: string, marker: string, i: int, b: int, j: int) {
    && 0 <= i
    && i + |marker| <= b < j < |s|
    && s[i..i + |marker|] == marker
    && (forall t :: i + |marker| <= t < b ==> IsJsSpace(s[t]))
    && s[b] == '{'
    && b + 1 < j
    && (forall t :: b < t < j ==> s[t] != '}')
    && s[j] == '}'
  }

  /** The regular expression matches at index `i` and captures `cap`. */
  ghost predicate FragmentMatch(s: string, marker: string, i: int, cap: string) {
    exists b, j :: FragmentSpan(s, marker, i, b, j) && cap == s[b..j + 1]
  }

  /**
   * Matches the fragment regular expression at index `i` deterministically:
   * after the marker, skip all spaces, require `{`, then run to the first `}`.
   */
  function FragmentAt(s: string, marker: string, i: nat): Option<string> {
    if i + |marker| <= |s| && s[i..i + |marker|] == marker then
      var b := SkipWhile(s, i + |marker|, IsJsSpace);
      if b < |s| && s[b] == '{' then
        var j := SkipWhile(s, b + 1, NotCloseBrace);
        if b + 1 < j < |s| then Some(s[b..j + 1]) else None
      else None
    else None
  }

  /** What the deterministic matcher captures is a match of the regular expression. */
  lemma FragmentAtSound(s: string, marker: string, i: nat)
    ensures FragmentAt(s, marker, i).Some? ==> FragmentMatch(s, marker, i, FragmentAt(s, marker, i).value)
  {
    var l := |marker|;
    if i + l <= |s| && s[i..i + l] == marker {
      var b := SkipWhile(s, i + l, IsJsSpace);
      if b < |s| && s[b] == '{' {
        var j := SkipWhile(s, b + 1, NotCloseBrace);
        if b + 1 < j < |s| {
          assert FragmentSpan(s, marker, i, b, j);
        }
      }
    }
  }

  /** Every match of the regular expression is found by the deterministic matcher, with the same capture. */
  lemma FragmentAtComplete(s: string, marker: string, i: nat, b: int, j: int)
    requires FragmentSpan(s, marker, i, b, j)
    ensures FragmentAt(s, marker, i) == Some(s[b..j + 1])
  {
    assert !IsJsSpace(s[b]);
    SkipWhileStopsAt(s, i + |marker|, IsJsSpace, b);
    SkipWhileStopsAt(s, b + 1, NotCloseBrace, j);
  }

  /** Matching at a fixed index succeeds exactly as the regular expression does there. */
  lemma FragmentAtMatches(s: string, marker: string, i: nat, cap: string)
    ensures FragmentAt(s, marker, i) == Some(cap) <==> FragmentMatch(s, marker, i, cap)
  {
    FragmentAtSound(s, marker, i);
    if FragmentMatch(s, marker, i, cap) {
      var b, j :| FragmentSpan(s, marker, i, b, j) && cap == s[b..j + 1];
      FragmentAtComplete(s, marker, i, b, j);
    }
  }

  /** `s.match(regex)`: the capture of the leftmost index at or after `from` where the expression matches. */
  function FindFragment(s: string, marker: string, from: nat): Option<string>
    decreases |s| - from
  {
    if from > |s| then None
    else
      match FragmentAt(s, marker, from)
      case Some(cap) => Some(cap)
      case None => FindFragment(s, marker, from + 1)
  }

  /** No index in `[lo, hi)` matches. */
  ghost predicate NoFragmentIn(s: string, marker: string, lo: int, hi: int) {
    forall i: nat :: lo <= i < hi ==> FragmentAt(s, marker, i).None?
  }

  /** The search fails exactly when no index at or after `from` matches. */
  lemma {:induction false} FindFragmentNone(s: string, marker: string, from: nat)
    ensures FindFragment(s, marker, from).None? <==> NoFragmentIn(s, marker, from, |s| + 1)
    decreases |s| - from
  {
    if from <= |s| {
      FindFragmentNone(s, marker, from + 1);
    }
  }

  /** A matching index with no match before it (from `from` on) is the one whose capture the search returns. */
  lemma {:induction false} FindFragmentFirst(s: string, marker: string, from: nat, i: nat)
    requires from <= i <= |s|
    requires FragmentAt(s, marker, i).Some?
    requires NoFragmentIn(s, marker, from, i)
    ensures FindFragment(s, marker, from) == FragmentAt(s, marker, i)
    decreases i - from
  {
    if from < i {
      assert FragmentAt(s, marker, from).None?;
      FindFragmentFirst(s, marker, from + 1, i);
    }
  }

  /** Whatever the search returns is the capture of some index with no match before it. */
  lemma {:induction false} FindFragmentSome(s: string, marker: string, from: nat)
    requires FindFragment(s, marker, from).Some?
    ensures exists i: nat :: from <= i <= |s| && FragmentAt(s, marker, i) == FindFragment(s, marker, from)
                             && NoFragmentIn(s, marker, from, i)
    decreases |s| - from
  {
    if FragmentAt(s, marker, from).Some? {
      assert NoFragmentIn(s, marker, from, from);
    } else {
      FindFragmentSome(s, marker, from + 1);
      var i: nat :| from + 1 <= i <= |s| && FragmentAt(s, marker, i) == FindFragment(s, marker, from + 1)
                    && NoFragmentIn(s, marker, from + 1, i);
      assert NoFragmentIn(s, marker, from, i);
    }
  }

  /** In the terms of the regular expression: what the search yields is the capture of the leftmost match. */
  lemma SearchYieldsLeftmostMatch(s: string, marker: string, cap: string)
    requires FindFragment(s, marker, 0) == Some(cap)
    ensures exists i: nat :: FragmentMatch(s, marker, i, cap)
                             && forall i': nat, c' :: i' < i ==> !FragmentMatch(s, marker, i', c')
  {
    FindFragmentSome(s, marker, 0);
    var i: nat :| i <= |s| && FragmentAt(s, marker, i) == Some(cap) && NoFragmentIn(s, marker, 0, i);
    FragmentAtSound(s, marker, i);
    forall i': nat, c' | i' < i
      ensures !FragmentMatch(s, marker, i', c')
    {
      FragmentAtMatches(s, marker, i', c');
    }
  }

  /** Conversely, the leftmost match of the regular expression is what the search yields. */
  lemma LeftmostMatchIsFound(s: string, marker: string, i: nat, cap: string)
    requires FragmentMatch(s, marker, i, cap)
    requires forall i': nat, c' :: i' < i ==> !FragmentMatch(s, marker, i', c')
    ensures FindFragment(s, marker, 0) == Some(cap)
  {
    FragmentAtMatches(s, marker, i, cap);
    forall i': nat | i' < i
      ensures FragmentAt(s, marker, i').None?
    {
      FragmentAtSound(s, marker, i');
    }
    var b, j :| FragmentSpan(s, marker, i, b, j) && cap == s[b..j + 1];
    FindFragmentFirst(s, marker, 0, i);
  }

  /** The search fails exactly when the regular expression matches nowhere. */
  lemma SearchFailsWithoutMatch(s: string, marker: string)
    ensures FindFragment(s, marker, 0).None? <==> forall i: nat, c :: !FragmentMatch(s, marker, i, c)
  {
    FindFragmentNone(s, marker, 0);
    forall i: nat, c
      ensures FragmentAt(s, marker, i) == Some(c) <==> FragmentMatch(s, marker, i, c)
    {
      FragmentAtMatches(s, marker, i, c);
    }
    forall i: nat
      ensures FragmentAt(s, marker, i).Some? ==> i <= |s|
    {
    }
  }

  /* ------------------------- 4. pipe-separated parts ------------------------- */

  /** `s.split(sep)`: the pieces between occurrences of `sep`, empty pieces included. */
  function Split(s: string, sep: char): (parts: seq<string>)
    ensures |parts| >= 1
    ensures forall p :: p in parts ==> sep !in p
    ensures sep in s <==> |parts| >= 2
    decreases |s|
  {
    if |s| == 0 then [""]
    else if s[0] == sep then [""] + Split(s[1..], sep)
    else
      var rest := Split(s[1..], sep);
      assert sep in s <==> sep in s[1..] by {
        assert s == [s[0]] + s[1..];
      }
      [[s[0]] + rest[0]] + rest[1..]
  }

  /** `parts.join(sep)`. */
  function Join(parts: seq<string>, sep: char): string
    requires |parts| >= 1
    decreases |parts|
  {
    if |parts| == 1 then parts[0] else parts[0] + [sep] + Join(parts[1..], sep)
  }

  /** Joining the pieces back with the separator gives the original text. */
  lemma {:induction false} JoinSplit(s: string, sep: char)
    ensures Join(Split(s, sep), sep) == s
    decreases |s|
  {
    if |s| > 0 {
      JoinSplit(s[1..], sep);
      var rest := Split(s[1..], sep);
      if s[0] != sep && |rest| > 1 {
        assert rest == [rest[0]] + rest[1..];
      }
    }
  }

  /** Splitting a text that continues past a separator-free piece `p`. */
  lemma {:induction false} SplitAfterPiece(p: string, sep: char, t: string)
    requires sep !in p
    ensures Split(p + [sep] + t, sep) == [p] + Split(t, sep)
    decreases |p|
  {
    if |p| > 0 {
      assert (p + [sep] + t)[1..] == p[1..] + [sep] + t;
      assert p[0] != sep;
      SplitAfterPiece(p[1..], sep, t);
      assert [p[0]] + p[1..] == p;
    }
  }

  /** Splitting a join of separator-free pieces gives the pieces back. */
  lemma {:induction false} SplitJoin(parts: seq<string>, sep: char)
    requires |parts| >= 1
    requires forall p :: p in parts ==> sep !in p
    ensures Split(Join(parts, sep), sep) == parts
    decreases |parts|
  {
    if |parts| == 1 {
      SplitWithoutSeparator(parts[0], sep);
    } else {
      SplitJoin(parts[1..], sep);
      SplitAfterPiece(parts[0], sep, Join(parts[1..], sep));
    }
  }

  lemma {:induction false} SplitWithoutSeparator(s: string, sep: char)
    requires sep !in s
    ensures Split(s, sep) == [s]
    decreases |s|
  {
    if |s| > 0 {
      assert s[0] != sep;
      assert sep !in s[1..];
      SplitWithoutSeparator(s[1..], sep);
      assert [s[0]] + s[1..] == s;
    }
  }

  /**
   * `parts.map(p => JSON.parse(p.trim()))`: every trimmed piece decoded, or
   * `None` as soon as one of them fails to.
   */
  function DecodeParts(parts: seq<string>, decode: JsonDecoder): (r: Option<seq<Json>>)
    ensures r.Some? <==> forall i :: 0 <= i < |parts| ==> decode(Trim(parts[i])).Some?
    ensures r.Some? ==> |r.value| == |parts|
    ensures r.Some? ==> forall i :: 0 <= i < |parts| ==> decode(Trim(parts[i])) == Some(r.value[i])
    decreases |parts|
  {
    if |parts| == 0 then Some([])
    else
      match decode(Trim(parts[0]))
      case None => None
      case Some(v) =>
        match DecodeParts(parts[1..], decode)
        case None => None
        case Some(vs) => Some([v] + vs)
  }

  /* ------------------------- the four strategies ------------------------- */

  /** Strategy 1: a bare refresh token stands for `{refreshToken: input}`. */
  function BareStrategy(input: string): (r: Option<Object>)
    ensures r.Some? <==> BareTokenShape(input)
    ensures r.Some? ==> r.value == map[RefreshTokenKey := Str(input)]
  {
    BareTokenMatchesPattern(input);
    if IsBareToken(input) then Some(map[RefreshTokenKey := Str(input)]) else None
  }

  /**
   * Strategy 2: the whole input is JSON with a truthy `refreshToken`. Only an
   * object can carry one: reading it from `null` throws, and other values have
   * no such property.
   */
  function DirectJsonStrategy(input: string, decode: JsonDecoder): (r: Option<Object>)
    ensures r.Some? <==> decode(input).Some? && decode(input).value.Obj? && Truthy(Prop(decode(input).value.fields, RefreshTokenKey))
    ensures r.Some? ==> r.value == decode(input).value.fields
  {
    match decode(input)
    case Some(Obj(o)) => if Truthy(Prop(o, RefreshTokenKey)) then Some(o) else None
    case _ => None
  }

  /** Strategy 3: two labelled brace fragments, decoded and merged, the token fragment winning. */
  function LabelledStrategy(input: string, decode: JsonDecoder): (r: Option<Object>)
    ensures r.Some? <==>
              && FindFragment(input, AccountLabel, 0).Some? && FindFragment(input, TokenLabel, 0).Some?
              && decode(FindFragment(input, AccountLabel, 0).value).Some?
              && decode(FindFragment(input, TokenLabel, 0).value).Some?
  {
    var account := FindFragment(input, AccountLabel, 0);
    var token := FindFragment(input, TokenLabel, 0);
    if account.Some? && token.Some? then
      match (decode(account.value), decode(token.value))
      case (Some(a), Some(t)) => Some(Merge(Spread(a), Spread(t)))
      case _ => None
    else None
  }

  /** Strategy 4: split on every `|`, decode every piece, merge the first two, the second winning. */
  function PipeStrategy(input: string, decode: JsonDecoder): (r: Option<Object>)
    ensures r.Some? <==> '|' in input && DecodeParts(Split(input, '|'), decode).Some?
  {
    if '|' !in input then None
    else
      var parts := Split(input, '|');
      match DecodeParts(parts, decode)
      case None => None
      case Some(vs) => Some(Merge(Spread(vs[0]), Spread(vs[1])))
  }

  /** `parseInput`: the first strategy that succeeds, or `None` (`null`). */
  function ParseInput(input: string, decode: JsonDecoder): (r: Option<Object>)
    ensures r.Some? <==>
              || BareStrategy(input).Some? || DirectJsonStrategy(input, decode).Some?
              || LabelledStrategy(input, decode).Some? || PipeStrategy(input, decode).Some?
    ensures BareStrategy(input).Some? ==> r == BareStrategy(input)
    ensures BareStrategy(input).None? && DirectJsonStrategy(input, decode).Some? ==> r == DirectJsonStrategy(input, decode)
    ensures BareStrategy(input).None? && DirectJsonStrategy(input, decode).None? && LabelledStrategy(input, decode).Some? ==>
              r == LabelledStrategy(input, decode)
    ensures r.Some? && r != BareStrategy(input) && r != DirectJsonStrategy(input, decode) && r != LabelledStrategy(input, decode) ==>
              r == PipeStrategy(input, decode)
  {
    if BareStrategy(input).Some? then BareStrategy(input)
    else if DirectJsonStrategy(input, decode).Some? then DirectJsonStrategy(input, decode)
    else if LabelledStrategy(input, decode).Some? then LabelledStrategy(input, decode)
    else PipeStrategy(input, decode)
  }

  /* ------------------------- properties ------------------------- */

  /**
   * A bare refresh token parses to exactly `{refreshToken: input}` whatever
   * JSON.parse would do: no later strategy is consulted.
   */
  lemma BareTokenShortCircuits(input: string, decode: JsonDecoder)
    requires BareTokenShape(input)
    ensures ParseInput(input, decode) == Some(map[RefreshTokenKey := Str(input)])
  {
    BareTokenMatchesPattern(input);
  }

  /**
   * Only the direct JSON format insists on a refresh token; when the parsed
   * object lacks a truthy one it came from the labelled or the pipe format.
   */
  lemma MissingRefreshTokenComesFromFragments(input: string, decode: JsonDecoder, o: Object)
    requires ParseInput(input, decode) == Some(o)
    requires !Truthy(Prop(o, RefreshTokenKey))
    ensures !BareTokenShape(input)
    ensures LabelledStrategy(input, decode) == Some(o) || PipeStrategy(input, decode) == Some(o)
  {
    BareTokenMatchesPattern(input);
  }

  /**
   * The labelled format's result holds every key of both fragments, and the
   * token fragment's value on a key both carry.
   */
  lemma LabelledMergeKeepsBoth(input: string, decode: JsonDecoder, a: Object, t: Object)
    requires FindFragment(input, AccountLabel, 0).Some? && FindFragment(input, TokenLabel, 0).Some?
    requires decode(FindFragment(input, AccountLabel, 0).value) == Some(Obj(a))
    requires decode(FindFragment(input, TokenLabel, 0).value) == Some(Obj(t))
    ensures LabelledStrategy(input, decode).Some?
    ensures LabelledStrategy(input, decode).value.Keys == a.Keys + t.Keys
    ensures forall k :: k in t ==> LabelledStrategy(input, decode).value[k] == t[k]
    ensures forall k :: k in a && k !in t ==> LabelledStrategy(input, decode).value[k] == a[k]
  {
  }

  /** The pipe format needs every piece, not only the first two, to decode. */
  lemma PipeNeedsEveryPiece(input: string, decode: JsonDecoder)
    requires '|' in input
    ensures PipeStrategy(input, decode).Some? <==>
              forall i :: 0 <= i < |Split(input, '|')| ==> decode(Trim(Split(input, '|')[i])).Some?
  {
  }

  /**
   * The pipe format's result holds every key of the first two pieces, and the
   * second piece's value on a key both carry.
   */
  lemma PipeMergeKeepsBoth(input: string, decode: JsonDecoder, a: Json, t: Json)
    requires PipeStrategy(input, decode).Some?
    requires decode(Trim(Split(input, '|')[0])) == Some(a)
    requires decode(Trim(Split(input, '|')[1])) == Some(t)
    ensures PipeStrategy(input, decode).value.Keys == Spread(a).Keys + Spread(t).Keys
    ensures forall k :: k in Spread(t) ==> PipeStrategy(input, decode).value[k] == Spread(t)[k]
    ensures forall k :: k in Spread(a) && k !in Spread(t) ==> PipeStrategy(input, decode).value[k] == Spread(a)[k]
  {
    var vs := DecodeParts(Split(input, '|'), decode).value;
    assert vs[0] == a && vs[1] == t;
  }
}
