/** The handful of java.lang.String, Character and commons-lang StringUtils
  * operations the plugin relies on, over `seq<char>`. */
module Strings {
  import opened Common

  predicate StartsWith(s: string, prefix: string) {
    prefix <= s
  }

  predicate EndsWith(s: string, suffix: string) {
    |suffix| <= |s| && s[|s| - |suffix|..] == suffix
  }

  /** `sub` occurs in `s` starting at index `i`. */
  predicate OccursAt(s: string, sub: string, i: int) {
    0 <= i && i + |sub| <= |s| && s[i..i + |sub|] == sub
  }

  /** Where the five pieces of a concatenation sit in it. */
  lemma Pieces(a: string, b: string, c: string, d: string, e: string)
    ensures var t := a + b + c + d + e;
      && StartsWith(t, a) && EndsWith(t, e) && OccursAt(t, c, |a| + |b|)
      && t[|a|..|a| + |b|] == b && t[|a| + |b| + |c|..|t| - |e|] == d
  {
    var t := a + b + c + d + e;
    assert t == a + (b + c + d + e);
    assert t == (a + b) + c + d + e;
    assert t == (a + b + c + d) + e;
    assert t[|a|..|a| + |b|] == (b + c + d + e)[..|b|];
    assert t[|a| + |b| + |c|..|t| - |e|] == (a + b + c + d)[|a| + |b| + |c|..];
  }

  /** `String.contains`. */
  predicate Contains(s: string, sub: string) {
    exists i :: 0 <= i <= |s| - |sub| && OccursAt(s, sub, i)
  }

  /** The largest index in `lo..hi` where `pat` occurs: the choice a greedy
    * regular-expression group makes before a literal. */
  function LastOccurrence(s: string, pat: string, lo: nat, hi: int): (r: Option<nat>)
    ensures r.Some? ==> lo <= r.value <= hi
    decreases hi - lo
  {
    if hi < lo then None
    else if OccursAt(s, pat, hi) then Some(hi)
    else LastOccurrence(s, pat, lo, hi - 1)
  }

  /** The index found is an occurrence and no later one is in range; none found
    * means none in range. */
  lemma {:induction false} LastOccurrenceSpec(s: string, pat: string, lo: nat, hi: int)
    ensures var r := LastOccurrence(s, pat, lo, hi);
      && (r.Some? ==> OccursAt(s, pat, r.value) && forall q :: r.value < q <= hi ==> !OccursAt(s, pat, q))
      && (r.None? ==> forall q :: lo <= q <= hi ==> !OccursAt(s, pat, q))
    decreases hi - lo
  {
    if lo <= hi && !OccursAt(s, pat, hi) {
      LastOccurrenceSpec(s, pat, lo, hi - 1);
    }
  }

  /** An occurrence with none after it in range is the one found. */
  lemma {:induction false} LastOccurrenceIs(s: string, pat: string, lo: nat, hi: int, p: nat)
    requires lo <= p <= hi && OccursAt(s, pat, p)
    requires forall q :: p < q <= hi ==> !OccursAt(s, pat, q)
    ensures LastOccurrence(s, pat, lo, hi) == Some(p)
    decreases hi - p
  {
    if p < hi {
      LastOccurrenceIs(s, pat, lo, hi - 1, p);
    }
  }

  /** A text that starts with `pre`, ends with `post` and has `mid` at `p` in
    * between is the five pieces around them. */
  lemma Around(t: string, pre: string, mid: string, post: string, p: nat)
    requires StartsWith(t, pre) && EndsWith(t, post) && OccursAt(t, mid, p)
    requires |pre| <= p && p + |mid| <= |t| - |post|
    ensures t == pre + t[|pre|..p] + mid + t[p + |mid|..|t| - |post|] + post
  {
    assert t == t[..|pre|] + t[|pre|..p] + t[p..p + |mid|] + t[p + |mid|..|t| - |post|] + t[|t| - |post|..];
  }

  /** An occurrence of `pat` cannot take the last character of `t` when that
    * character differs from the last one of `pat`. */
  lemma OccursBeforeLast(t: string, pat: string, q: int)
    requires |pat| >= 1 && |t| >= 1 && pat[|pat| - 1] != t[|t| - 1] && OccursAt(t, pat, q)
    ensures q + |pat| < |t|
  {
    assert t[q..q + |pat|][|pat| - 1] == t[q + |pat| - 1];
  }

  /** In `a + pat + b`, no occurrence of `pat` starts after `a` when the first
    * character of `pat` does not recur in it and `b` does not contain it. */
  lemma NoLaterOccurrence(a: string, c: char, tail: string, b: string, q: int)
    requires c !in tail && !Contains(b, [c] + tail) && |a| < q
    ensures !OccursAt(a + ([c] + tail) + b, [c] + tail, q)
  {
    var pat := [c] + tail;
    var t := a + pat + b;
    if q + |pat| <= |t| {
      assert t[q..q + |pat|][0] == t[q];
      if q < |a| + |pat| {
        assert t[q] == tail[q - |a| - 1];
      } else {
        var q' := q - |a| - |pat|;
        assert b[q'..q' + |pat|] == t[q..q + |pat|];
        assert !OccursAt(b, pat, q');
      }
    }
  }

  /** A text lacking one of the characters of `sub` cannot contain `sub`. */
  lemma NotContainsMissingChar(s: string, sub: string, c: char)
    requires c in sub && c !in s
    ensures !Contains(s, sub)
  {
    var k :| 0 <= k < |sub| && sub[k] == c;
    forall i | 0 <= i <= |s| - |sub| ensures !OccursAt(s, sub, i) {
      assert s[i..i + |sub|][k] == s[i + k];
    }
  }

  /** `String.replace(char, char)`: every `from` becomes `to`. */
  function ReplaceChar(s: string, from: char, to: char): (r: string)
    ensures |r| == |s|
    ensures forall i :: 0 <= i < |s| ==> r[i] == (if s[i] == from then to else s[i])
  {
    seq(|s|, i requires 0 <= i < |s| => if s[i] == from then to else s[i])
  }

  /** `StringUtils.replaceChars(s, from, to)` with a single replacement character. */
  function ReplaceAny(s: string, from: set<char>, to: char): (r: string)
    ensures |r| == |s|
    ensures forall i :: 0 <= i < |s| ==> r[i] == (if s[i] in from then to else s[i])
  {
    seq(|s|, i requires 0 <= i < |s| => if s[i] in from then to else s[i])
  }

  /** Replacing a character that no longer occurs changes nothing, so a second
    * identical `replace` is a no-op. */
  lemma ReplaceCharTwice(s: string, from: char, to: char)
    requires from != to
    ensures ReplaceChar(ReplaceChar(s, from, to), from, to) == ReplaceChar(s, from, to)
    ensures from !in ReplaceChar(s, from, to)
  {
  }

  /** Undoing a replacement restores the input when the target character did not occur in it. */
  lemma ReplaceCharRoundTrip(s: string, from: char, to: char)
    requires to !in s
    ensures ReplaceChar(ReplaceChar(s, from, to), to, from) == s
  {
  }

  /** `String.indexOf(char)`: the first index of `c`, or -1. */
  function IndexOfChar(s: string, c: char): (r: int)
    ensures -1 <= r < |s|
    ensures r >= 0 ==> s[r] == c
    ensures forall j :: 0 <= j < |s| && (r < 0 || j < r) ==> s[j] != c
  {
    if |s| == 0 then -1
    else if s[0] == c then 0
    else
      var k := IndexOfChar(s[1..], c);
      if k < 0 then -1 else k + 1
  }

  /** `String.lastIndexOf(char)`: the last index of `c`, or -1. */
  function LastIndexOfChar(s: string, c: char): (r: int)
    ensures -1 <= r < |s|
    ensures r >= 0 ==> s[r] == c
    ensures forall j :: r < j < |s| ==> s[j] != c
  {
    if |s| == 0 then -1
    else if s[|s| - 1] == c then |s| - 1
    else LastIndexOfChar(s[..|s| - 1], c)
  }

  /** `StringUtils.substringAfter(s, sep)` for a one-character separator:
    * the text after the first `sep`, or "" when there is none. */
  function SubstringAfterChar(s: string, sep: char): (r: string)
    ensures sep in s ==> exists i :: 0 <= i < |s| && s[i] == sep && sep !in s[..i] && r == s[i + 1..]
    ensures sep !in s ==> r == ""
  {
    var i := IndexOfChar(s, sep);
    if i < 0 then "" else
      assert sep !in s[..i] by {
        forall j | 0 <= j < i ensures s[..i][j] != sep { }
      }
      s[i + 1..]
  }

  /** `StringUtils.substringAfterLast(s, sep)` for a one-character separator:
    * the text after the last `sep`, or "" when there is none. */
  function SubstringAfterLastChar(s: string, sep: char): (r: string)
    ensures sep !in r
    ensures sep in s ==> |r| < |s| && s == s[..|s| - |r| - 1] + [sep] + r
    ensures sep !in s ==> r == ""
  {
    var i := LastIndexOfChar(s, sep);
    if i < 0 then "" else
      assert s == s[..i] + [sep] + s[i + 1..];
      s[i + 1..]
  }

  /** `StringUtils.substringBeforeLast(s, sep)` for a one-character separator:
    * the text before the last `sep`, or all of `s` when there is none. */
  function SubstringBeforeLastChar(s: string, sep: char): (r: string)
    ensures sep !in s ==> r == s
    ensures sep in s ==> exists tail :: sep !in tail && s == r + [sep] + tail
  {
    var i := LastIndexOfChar(s, sep);
    if i < 0 then s else
      assert s == s[..i] + [sep] + s[i + 1..];
      assert sep !in s[i + 1..] by {
        forall j | i + 1 <= j < |s| ensures s[j] != sep { }
      }
      s[..i]
  }

  /** ASCII upper case letters become lower case (`String.toLowerCase` on ASCII text). */
  function LowerChar(c: char): char {
    if 'A' <= c <= 'Z' then (c as int - 'A' as int + 'a' as int) as char else c
  }

  function ToLower(s: string): (r: string)
    ensures |r| == |s|
    ensures forall i :: 0 <= i < |s| ==> r[i] == LowerChar(s[i])
  {
    seq(|s|, i requires 0 <= i < |s| => LowerChar(s[i]))
  }

  lemma ToLowerIdempotent(s: string)
    ensures ToLower(ToLower(s)) == ToLower(s)
  {
  }

  /** The characters of the regular-expression class `\s`. */
  predicate IsSpace(c: char) {
    c == ' ' || c == '\t' || c == '\n' || c == '\U{000B}' || c == '\U{000C}' || c == '\r'
  }

  /** `\d`. */
  predicate IsDigit(c: char) {
    '0' <= c <= '9'
  }

  /** `\w`: ASCII letters, digits and the underscore. */
  predicate IsWordChar(c: char) {
    'a' <= c <= 'z' || 'A' <= c <= 'Z' || IsDigit(c) || c == '_'
  }

  predicate AllDigits(s: string) {
    forall i :: 0 <= i < |s| ==> IsDigit(s[i])
  }

  /** `Character.isWhitespace`: the Unicode space, line and paragraph
    * separators other than the non-breaking ones (U+00A0, U+2007, U+202F),
    * and the controls tab, line feed, U+000B, form feed, carriage return and
    * U+001C to U+001F. */
  predicate IsWhitespace(c: char) {
    || c == ' ' || c == '\t' || c == '\n' || c == '\U{000B}' || c == '\U{000C}' || c == '\r'
    || '\U{001C}' <= c <= '\U{001F}'
    || c == '\U{1680}'
    || ('\U{2000}' <= c <= '\U{200A}' && c != '\U{2007}')
    || c == '\U{2028}' || c == '\U{2029}' || c == '\U{205F}' || c == '\U{3000}'
  }

  /** `StringUtils.isBlank`: empty or only whitespace. */
  predicate IsBlank(s: string) {
    forall i :: 0 <= i < |s| ==> IsWhitespace(s[i])
  }

  /** `StringUtils.defaultIfBlank`. */
  function DefaultIfBlank(s: string, default: string): (r: string)
    ensures IsBlank(s) ==> r == default
    ensures !IsBlank(s) ==> r == s
  {
    if IsBlank(s) then default else s
  }

  /** Splits `s` at every `sep`; there is always one more piece than separators. */
  function SplitOn(s: string, sep: char): (r: seq<string>)
    ensures |r| >= 1
    ensures forall k :: 0 <= k < |r| ==> sep !in r[k]
    decreases |s|
  {
    var i := IndexOfChar(s, sep);
    if i < 0 then [s]
    else
      var head, rest := s[..i], SplitOn(s[i + 1..], sep);
      assert sep !in head by {
        forall j | 0 <= j < |head| ensures head[j] != sep {
          assert head[j] == s[j];
        }
      }
      assert forall k :: 1 <= k <= |rest| ==> ([head] + rest)[k] == rest[k - 1];
      [head] + rest
  }

  /** There is a single piece exactly when the separator does not occur. */
  lemma SplitOnSingle(s: string, sep: char)
    ensures (|SplitOn(s, sep)| == 1) == (sep !in s)
    ensures sep !in s ==> SplitOn(s, sep) == [s]
  {
    var i := IndexOfChar(s, sep);
    if i >= 0 {
      assert s[i] == sep;
    }
  }

  /** Joins pieces with a separator between neighbours (`String.join`). */
  function Join(pieces: seq<string>, sep: string): string {
    if |pieces| == 0 then ""
    else if |pieces| == 1 then pieces[0]
    else pieces[0] + sep + Join(pieces[1..], sep)
  }

  /** Splitting loses nothing: joining the pieces again gives the input back. */
  lemma {:induction false} JoinSplitOn(s: string, sep: char)
    ensures Join(SplitOn(s, sep), [sep]) == s
    decreases |s|
  {
    var i := IndexOfChar(s, sep);
    if i >= 0 {
      var head, tail := s[..i], s[i + 1..];
      var rest := SplitOn(tail, sep);
      JoinSplitOn(tail, sep);
      JoinCons(head, rest, [sep]);
      assert s == head + [sep] + tail;
    }
  }

  lemma JoinCons(head: string, rest: seq<string>, sep: string)
    requires |rest| >= 1
    ensures Join([head] + rest, sep) == head + sep + Join(rest, sep)
  {
    assert ([head] + rest)[1..] == rest;
  }

  /** Splitting a joined text at a separator no piece contains gives the pieces back. */
  lemma {:induction false} SplitOnJoin(pieces: seq<string>, sep: char)
    requires |pieces| >= 1
    requires forall k :: 0 <= k < |pieces| ==> sep !in pieces[k]
    ensures SplitOn(Join(pieces, [sep]), sep) == pieces
    decreases |pieces|
  {
    var s := Join(pieces, [sep]);
    if |pieces| == 1 {
      assert IndexOfChar(s, sep) < 0;
    } else {
      var rest := Join(pieces[1..], [sep]);
      assert pieces == [pieces[0]] + pieces[1..];
      JoinCons(pieces[0], pieces[1..], [sep]);
      var i := IndexOfChar(s, sep);
      assert s[|pieces[0]|] == sep;
      assert i == |pieces[0]| by {
        forall j | 0 <= j < |pieces[0]| ensures s[j] != sep {
          assert s[j] == pieces[0][j];
        }
      }
      assert s[..i] == pieces[0];
      assert s[i + 1..] == rest;
      SplitOnJoin(pieces[1..], sep);
    }
  }

  /** The index of the first character of `s` in `cs`, or `|s|` when there is none. */
  function FirstIn(s: string, cs: set<char>): (r: nat)
    ensures r <= |s|
    ensures r < |s| ==> s[r] in cs
    ensures forall j :: 0 <= j < r ==> s[j] !in cs
  {
    if |s| == 0 then 0
    else if s[0] in cs then 0
    else 1 + FirstIn(s[1..], cs)
  }

  /** The index of the first character of `s` outside `cs`, or `|s|`. */
  function FirstNotIn(s: string, cs: set<char>): (r: nat)
    ensures r <= |s|
    ensures r < |s| ==> s[r] !in cs
    ensures forall j :: 0 <= j < r ==> s[j] in cs
  {
    if |s| == 0 then 0
    else if s[0] !in cs then 0
    else 1 + FirstNotIn(s[1..], cs)
  }

  /** The decimal digits of a natural number. */
  function NatToString(n: nat): (r: string)
    ensures |r| >= 1 && AllDigits(r)
  {
    var d := ['0' + ((n % 10) as char)];
    if n < 10 then d else NatToString(n / 10) + d
  }

  /** `Integer.toString`. */
  function IntToString(n: int): string {
    if n < 0 then "-" + NatToString(-n) else NatToString(n)
  }

  /** In `prefix + [c] + tail` with no `c` in `tail`, the `c` shown is the last one. */
  lemma LastIndexAt(prefix: string, c: char, tail: string)
    requires c !in tail
    ensures LastIndexOfChar(prefix + [c] + tail, c) == |prefix|
  {
    var s := prefix + [c] + tail;
    var i := LastIndexOfChar(s, c);
    assert s[|prefix|] == c;
    assert i >= |prefix|;
  }

  lemma SplitAtLast(prefix: string, c: char, tail: string)
    requires c !in tail
    ensures SubstringAfterLastChar(prefix + [c] + tail, c) == tail
    ensures SubstringBeforeLastChar(prefix + [c] + tail, c) == prefix
  {
    var s := prefix + [c] + tail;
    LastIndexAt(prefix, c, tail);
    assert s[..|prefix|] == prefix && s[|prefix| + 1..] == tail;
  }
}
