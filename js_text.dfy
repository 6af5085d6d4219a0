/**
 * The JavaScript string operations the notifier is built from: `trim`,
 * `includes`, `split`, `join`, template interpolation of a possibly
 * undefined value and the `||` fallback on strings.
 */
module JsText {
  import opened Wrappers

  /** The code points `String.prototype.trim` strips: ECMAScript WhiteSpace and LineTerminator. */
  predicate IsJsSpace(c: char) {
    || c == '\t' || c == '\n' || c == '\U{B}' || c == '\U{C}' || c == '\r' || c == ' '
    || c == '\U{A0}' || c == '\U{1680}' || ('\U{2000}' <= c <= '\U{200A}')
    || c == '\U{2028}' || c == '\U{2029}' || c == '\U{202F}' || c == '\U{205F}'
    || c == '\U{3000}' || c == '\U{FEFF}'
  }

  /** The length of the white-space run at the start of `s`. */
  function LeadingSpace(s: string): (k: nat)
    ensures k <= |s|
    ensures forall j :: 0 <= j < k ==> IsJsSpace(s[j])
    ensures k < |s| ==> !IsJsSpace(s[k])
  {
    if s == [] || !IsJsSpace(s[0]) then 0 else 1 + LeadingSpace(s[1..])
  }

  /** The length of the white-space run at the end of `s`. */
  function TrailingSpace(s: string): (k: nat)
    ensures k <= |s|
    ensures forall j :: |s| - k <= j < |s| ==> IsJsSpace(s[j])
    ensures k < |s| ==> !IsJsSpace(s[|s| - 1 - k])
  {
    if s == [] || !IsJsSpace(s[|s| - 1]) then 0 else 1 + TrailingSpace(s[..|s| - 1])
  }

  /** `s.trim()`: `s` without its leading and trailing white space. */
  function Trim(s: string): (r: string)
    ensures LeadingSpace(s) + |r| <= |s| && r == s[LeadingSpace(s)..LeadingSpace(s) + |r|]
    ensures forall j :: LeadingSpace(s) + |r| <= j < |s| ==> IsJsSpace(s[j])
    ensures r != [] ==> !IsJsSpace(r[0]) && !IsJsSpace(r[|r| - 1])
    ensures r == [] <==> forall j :: 0 <= j < |s| ==> IsJsSpace(s[j])
  {
    var t := s[LeadingSpace(s)..];
    t[..|t| - TrailingSpace(t)]
  }

  /** Trimming is idempotent: a trimmed string has nothing left to strip. */
  lemma TrimIdempotent(s: string)
    ensures Trim(Trim(s)) == Trim(s)
  {
    var r := Trim(s);
    assert LeadingSpace(r) == 0;
    assert TrailingSpace(r) == 0;
  }

  /** True iff `line.trim()` is falsy, that is, the trimmed line is the empty string. */
  predicate IsBlank(s: string) {
    Trim(s) == ""
  }

  predicate StartsWith(s: string, prefix: string) {
    |prefix| <= |s| && s[..|prefix|] == prefix
  }

  predicate EndsWith(s: string, suffix: string) {
    |suffix| <= |s| && s[|s| - |suffix|..] == suffix
  }

  /** True iff `pattern` occurs in `s` at position `i`. */
  predicate OccursAt(s: string, pattern: string, i: nat) {
    i + |pattern| <= |s| && s[i..i + |pattern|] == pattern
  }

  /** `s.indexOf(pattern)`: the first position where `pattern` occurs, if any. */
  function IndexOf(s: string, pattern: string): (r: Option<nat>)
    ensures r.Some? ==> OccursAt(s, pattern, r.value)
    ensures r.Some? ==> forall j :: 0 <= j < r.value ==> !OccursAt(s, pattern, j)
    ensures r.None? ==> forall j :: 0 <= j <= |s| ==> !OccursAt(s, pattern, j)
  {
    if StartsWith(s, pattern) then Some(0)
    else if s == [] then None
    else
      match IndexOf(s[1..], pattern)
      case None =>
        assert forall j :: 1 <= j <= |s| ==> (OccursAt(s, pattern, j) <==> OccursAt(s[1..], pattern, j - 1));
        None
      case Some(i) =>
        assert forall j :: 1 <= j <= |s| ==> (OccursAt(s, pattern, j) <==> OccursAt(s[1..], pattern, j - 1));
        Some(i + 1)
  }

  /** `s.includes(pattern)`. */
  predicate Contains(s: string, pattern: string) {
    IndexOf(s, pattern).Some?
  }

  /** `s.split(separator)` for a non-empty separator: the pieces between successive occurrences. */
  function Split(s: string, separator: string): (pieces: seq<string>)
    requires separator != ""
    ensures |pieces| >= 1
    ensures forall k :: 0 <= k < |pieces| ==> !Contains(pieces[k], separator)
    decreases |s|
  {
    match IndexOf(s, separator)
    case None => [s]
    case Some(i) =>
      var head := s[..i];
      assert forall j :: 0 <= j <= |head| ==> !OccursAt(head, separator, j) by {
        forall j | 0 <= j <= |head| ensures !OccursAt(head, separator, j) {
          if OccursAt(head, separator, j) {
            assert s[j..j + |separator|] == head[j..j + |separator|];
            assert OccursAt(s, separator, j);
          }
        }
      }
      [head] + Split(s[i + |separator|..], separator)
  }

  /** `pieces.join(separator)`. */
  function Join(pieces: seq<string>, separator: string): string {
    if |pieces| == 0 then ""
    else if |pieces| == 1 then pieces[0]
    else pieces[0] + separator + Join(pieces[1..], separator)
  }

  /** A join of a first piece and more: the piece, the separator, the join of the rest. */
  lemma JoinCons(piece: string, rest: seq<string>, separator: string)
    ensures Join([piece] + rest, separator) == if rest == [] then piece else piece + separator + Join(rest, separator)
  {
    assert ([piece] + rest)[0] == piece;
    assert ([piece] + rest)[1..] == rest;
  }

  lemma Join2(a: string, b: string, separator: string)
    ensures Join([a, b], separator) == a + separator + b
  {
    JoinCons(a, [b], separator);
    assert [a] + [b] == [a, b];
  }

  lemma Join3(a: string, b: string, c: string, separator: string)
    ensures Join([a, b, c], separator) == a + separator + b + separator + c
  {
    JoinCons(a, [b, c], separator);
    assert [a] + [b, c] == [a, b, c];
    Join2(b, c, separator);
  }

  lemma Join4(a: string, b: string, c: string, d: string, separator: string)
    ensures Join([a, b, c, d], separator) == a + separator + b + separator + c + separator + d
  {
    JoinCons(a, [b, c, d], separator);
    assert [a] + [b, c, d] == [a, b, c, d];
    Join3(b, c, d, separator);
  }

  /** A join of two non-empty lists of pieces: the first join, the separator, the second. */
  lemma {:induction false} JoinAppend(a: seq<string>, b: seq<string>, separator: string)
    requires a != [] && b != []
    ensures Join(a + b, separator) == Join(a, separator) + separator + Join(b, separator)
  {
    assert a + b == [a[0]] + (a[1..] + b);
    JoinCons(a[0], a[1..] + b, separator);
    JoinCons(a[0], a[1..], separator);
    assert a == [a[0]] + a[1..];
    if a[1..] != [] {
      JoinAppend(a[1..], b, separator);
    }
  }

  /** Joining the pieces of a split with the same separator gives back the original string. */
  lemma {:induction false} JoinSplit(s: string, separator: string)
    requires separator != ""
    ensures Join(Split(s, separator), separator) == s
    decreases |s|
  {
    match IndexOf(s, separator)
    case None =>
    case Some(i) =>
      var rest := s[i + |separator|..];
      var tail := Split(rest, separator);
      assert Split(s, separator) == [s[..i]] + tail;
      assert ([s[..i]] + tail)[1..] == tail;
      JoinSplit(rest, separator);
      assert s[i..i + |separator|] == separator;
      assert s == s[..i] + s[i..i + |separator|] + rest;
  }

  /**
   * Splitting on a one-character separator undoes a join of pieces that do not
   * contain that character; a join of no pieces is "" and splits into [""].
   */
  lemma {:induction false} SplitJoin(pieces: seq<string>, c: char)
    requires |pieces| >= 1
    requires forall k :: 0 <= k < |pieces| ==> c !in pieces[k]
    ensures Split(Join(pieces, [c]), [c]) == pieces
  {
    var s := Join(pieces, [c]);
    var p := pieces[0];
    if |pieces| == 1 {
      assert s == p;
      forall j | 0 <= j <= |p| ensures !OccursAt(p, [c], j) {
        if j < |p| {
          assert p[j] in p;
          assert p[j..j + 1] == [p[j]];
        }
      }
      assert IndexOf(s, [c]).None?;
    } else {
      var rest := Join(pieces[1..], [c]);
      assert s == p + [c] + rest;
      assert OccursAt(s, [c], |p|);
      forall j | 0 <= j < |p| ensures !OccursAt(s, [c], j) {
        assert s[j] == p[j];
      }
      assert IndexOf(s, [c]) == Some(|p|);
      assert s[..|p|] == p;
      assert s[|p| + 1..] == rest;
      assert Split(s, [c]) == [p] + Split(rest, [c]);
      SplitJoin(pieces[1..], c);
      assert pieces == [p] + pieces[1..];
    }
  }

  /** The pieces of `xs` that are not blank, in order: `xs.filter(x => x.trim())`. */
  function NonBlank(xs: seq<string>): (r: seq<string>)
    ensures |r| <= |xs|
    ensures forall k :: 0 <= k < |r| ==> !IsBlank(r[k]) && r[k] in xs
  {
    if xs == [] then []
    else if IsBlank(xs[0]) then NonBlank(xs[1..])
    else [xs[0]] + NonBlank(xs[1..])
  }

  /** The filter keeps exactly the entries that are not blank. */
  lemma {:induction false} NonBlankMembers(xs: seq<string>, x: string)
    ensures x in NonBlank(xs) <==> x in xs && !IsBlank(x)
  {
    if xs != [] {
      NonBlankMembers(xs[1..], x);
      assert xs == [xs[0]] + xs[1..];
    }
  }

  /** A list with no blank entry passes the filter unchanged. */
  lemma {:induction false} NonBlankOfClean(xs: seq<string>)
    requires forall k :: 0 <= k < |xs| ==> !IsBlank(xs[k])
    ensures NonBlank(xs) == xs
  {
    if xs != [] {
      NonBlankOfClean(xs[1..]);
      assert xs == [xs[0]] + xs[1..];
    }
  }

  /** `x.trim()` of every element. */
  function TrimEach(xs: seq<string>): (r: seq<string>)
    ensures |r| == |xs|
    ensures forall k :: 0 <= k < |xs| ==> r[k] == Trim(xs[k])
  {
    if xs == [] then [] else [Trim(xs[0])] + TrimEach(xs[1..])
  }

  /** `${v}` in a template literal: an undefined value prints as "undefined". */
  function Interp(v: Option<string>): string {
    match v
    case Some(s) => s
    case None => "undefined"
  }

  /** True iff `v` is truthy: defined and not the empty string. */
  predicate Truthy(v: Option<string>) {
    v.Some? && v.value != ""
  }

  /** `v || fallback` for a string that may be undefined. */
  function Or(v: Option<string>, fallback: string): string {
    if Truthy(v) then v.value else fallback
  }
}
