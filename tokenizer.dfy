/**
 * The console app's tokenizer, `[s.strip() for s in symptoms_input.split(',')]`: Python's
 * `str.split` with an explicit separator and `str.strip` without arguments, on code points.
 */
module Tokenizer {

  /**
   * `str.isspace()` of a one-character string: the Unicode White_Space characters together with
   * the information separators U+001C .. U+001F, which Python also treats as whitespace.
   */
  predicate IsSpace(c: char) {
    ('\t' <= c <= '\r') || ('\U{1C}' <= c <= ' ') || c == '\U{85}' || c == '\U{A0}' || c == '\U{1680}' ||
    ('\U{2000}' <= c <= '\U{200A}') || c == '\U{2028}' || c == '\U{2029}' || c == '\U{202F}' ||
    c == '\U{205F}' || c == '\U{3000}'
  }

  /** The first position at or after `i` that does not hold whitespace (or the end). */
  function SpaceEnd(s: string, i: nat): (e: nat)
    requires i <= |s|
    ensures i <= e <= |s|
    ensures forall k :: i <= k < e ==> IsSpace(s[k])
    ensures e == |s| || !IsSpace(s[e])
    decreases |s| - i
  {
    if i < |s| && IsSpace(s[i]) then SpaceEnd(s, i + 1) else i
  }

  /** Going back from `j` no further than `lo`, the start of the whitespace that ends at `j`. */
  function SpaceStart(s: string, lo: nat, j: nat): (b: nat)
    requires lo <= j <= |s|
    ensures lo <= b <= j
    ensures forall k :: b <= k < j ==> IsSpace(s[k])
    ensures b == lo || !IsSpace(s[b - 1])
    decreases j
  {
    if j > lo && IsSpace(s[j - 1]) then SpaceStart(s, lo, j - 1) else j
  }

  /** `r` is the part of `s` at offset `i`, and everything of `s` before and after it is whitespace. */
  predicate TrimmedFrom(s: string, r: string, i: int) {
    0 <= i <= |s| - |r| && r == s[i..i + |r|] &&
    (forall k :: 0 <= k < i ==> IsSpace(s[k])) &&
    (forall k :: i + |r| <= k < |s| ==> IsSpace(s[k]))
  }

  /**
   * `s.strip()`: skip whitespace from the front, then from the back, and keep what lies
   * between; the result neither starts nor ends with whitespace.
   */
  function Strip(s: string): (r: string)
    ensures TrimmedFrom(s, r, SpaceEnd(s, 0))
    ensures r == [] || (!IsSpace(r[0]) && !IsSpace(r[|r| - 1]))
  {
    var i := SpaceEnd(s, 0);
    var j := SpaceStart(s, i, |s|);
    s[i..j]
  }

  /** Stripping keeps no character that the string did not have. */
  lemma StripKeepsOut(s: string, c: char)
    requires c !in s
    ensures c !in Strip(s)
  {
  }

  /** Stripping a string that neither starts nor ends with whitespace leaves it as it is. */
  lemma StripTrimmed(s: string)
    requires s == [] || (!IsSpace(s[0]) && !IsSpace(s[|s| - 1]))
    ensures Strip(s) == s
  {
  }

  /** Stripping twice strips no more than stripping once. */
  lemma StripIdempotent(s: string)
    ensures Strip(Strip(s)) == Strip(s)
  {
    StripTrimmed(Strip(s));
  }

  /** How many times `c` occurs in `s`. */
  function Count(s: string, c: char): nat {
    if s == [] then 0 else (if s[0] == c then 1 else 0) + Count(s[1..], c)
  }

  /** The pieces put back together with the separator between neighbours: `sep.join(parts)`. */
  function Join(parts: seq<string>, sep: char): string
    requires |parts| >= 1
  {
    if |parts| == 1 then parts[0] else parts[0] + [sep] + Join(parts[1..], sep)
  }

  /**
   * `s.split(sep)` for a one-character separator: the pieces between separators, empty pieces
   * included, so there is always one piece more than separators and the empty string gives
   * `['']`.
   */
  function Split(s: string, sep: char): (parts: seq<string>)
    ensures |parts| == Count(s, sep) + 1
    ensures forall i :: 0 <= i < |parts| ==> sep !in parts[i]
    ensures Join(parts, sep) == s
  {
    if s == [] then [""]
    else
      var rest := Split(s[1..], sep);
      if s[0] == sep then
        assert [s[0]] + s[1..] == s;
        [""] + rest
      else
        var parts := [[s[0]] + rest[0]] + rest[1..];
        assert parts[1..] == rest[1..];
        assert forall i :: 1 <= i < |parts| ==> parts[i] == rest[i];
        assert [s[0]] + s[1..] == s;
        parts
  }

  /** Splitting undoes joining pieces that hold no separator. */
  lemma {:induction false} SplitJoin(parts: seq<string>, sep: char)
    requires |parts| >= 1
    requires forall i :: 0 <= i < |parts| ==> sep !in parts[i]
    ensures Split(Join(parts, sep), sep) == parts
  {
    if |parts| == 1 {
      SplitNoSeparator(parts[0], sep);
    } else {
      var tail := Join(parts[1..], sep);
      SplitJoin(parts[1..], sep);
      SplitPrefix(parts[0], sep, tail);
      assert parts == [parts[0]] + parts[1..];
    }
  }

  /** A string without the separator is one piece. */
  lemma {:induction false} SplitNoSeparator(s: string, sep: char)
    requires sep !in s
    ensures Split(s, sep) == [s]
  {
    if s != [] {
      SplitNoSeparator(s[1..], sep);
      assert [s[0]] + s[1..] == s;
    }
  }

  /** A separator-free prefix followed by a separator becomes the first piece. */
  lemma {:induction false} SplitPrefix(p: string, sep: char, tail: string)
    requires sep !in p
    ensures Split(p + [sep] + tail, sep) == [p] + Split(tail, sep)
  {
    var s := p + [sep] + tail;
    if p == [] {
      assert s[1..] == tail;
    } else {
      assert s[1..] == p[1..] + [sep] + tail;
      SplitPrefix(p[1..], sep, tail);
      assert [p[0]] + p[1..] == p;
    }
  }

  /**
   * `[s.strip() for s in symptoms_input.split(',')]`: token i is the stripped i-th piece between
   * commas, so there is one token per comma plus one, none holding a comma, none starting or
   * ending with whitespace.
   */
  function Tokenize(input: string): (tokens: seq<string>)
    ensures |tokens| == |Split(input, ',')| == Count(input, ',') + 1
    ensures forall i :: 0 <= i < |tokens| ==> tokens[i] == Strip(Split(input, ',')[i])
    ensures forall i :: 0 <= i < |tokens| ==> ',' !in tokens[i]
    ensures forall i :: 0 <= i < |tokens| ==> tokens[i] == [] || (!IsSpace(tokens[i][0]) && !IsSpace(tokens[i][|tokens[i]| - 1]))
  {
    var pieces := Split(input, ',');
    var tokens := seq(|pieces|, i requires 0 <= i < |pieces| => Strip(pieces[i]));
    assert forall i :: 0 <= i < |tokens| ==> ',' !in tokens[i] by {
      forall i | 0 <= i < |tokens| ensures ',' !in tokens[i] {
        StripKeepsOut(pieces[i], ',');
      }
    }
    tokens
  }
}
