/**
 * The JavaScript string operations that p-info.ts applies to command output:
 * `slice` with negative indices, `trim`, `replace(/,/g, " ")`, `split` on a
 * one-character separator, and `Array.prototype.join`.
 */
module JsText {

  /** The characters `String.prototype.trim` removes: ECMAScript's WhiteSpace and LineTerminator. */
  predicate IsWhite(c: char) {
    || c == '\t' || c == '\n' || c == '\U{000B}' || c == '\U{000C}' || c == '\r' || c == ' '
    || c == '\U{00A0}' || c == '\U{1680}' || ('\U{2000}' <= c <= '\U{200A}')
    || c == '\U{2028}' || c == '\U{2029}' || c == '\U{202F}' || c == '\U{205F}'
    || c == '\U{3000}' || c == '\U{FEFF}'
  }

  predicate AllWhite(s: string) {
    forall i :: 0 <= i < |s| ==> IsWhite(s[i])
  }

  /** No whitespace at either end: what `trim` leaves behind. */
  predicate IsTrimmed(s: string) {
    s == [] || (!IsWhite(s[0]) && !IsWhite(s[|s| - 1]))
  }

  /** How `slice` turns a possibly negative index into a position in a string of length `len`. */
  function RelativeIndex(len: nat, k: int): (r: nat)
    ensures r <= len
    ensures k >= 0 ==> r == if k <= len then k else len
    ensures k < 0 ==> r == if len + k >= 0 then len + k else 0
  {
    if k < 0 then (if len + k < 0 then 0 else len + k)
    else if k > len then len
    else k
  }

  /** Whether `text` ends with `suffix`. */
  predicate EndsWith(text: string, suffix: string) {
    |suffix| <= |text| && text[|text| - |suffix|..] == suffix
  }

  /** A text ends with whatever was appended to it last. */
  lemma EndsWithAppended(pre: string, suffix: string)
    ensures EndsWith(pre + suffix, suffix)
  {
    assert (pre + suffix)[|pre|..] == suffix;
  }

  /** `s.slice(start, end)`: an empty string when the clamped start is not before the clamped end. */
  function Slice(s: string, start: int, end: int): (r: string)
    ensures var from, to := RelativeIndex(|s|, start), RelativeIndex(|s|, end);
      && |r| == (if from < to then to - from else 0)
      && forall i :: 0 <= i < |r| ==> r[i] == s[from + i]
  {
    var from, to := RelativeIndex(|s|, start), RelativeIndex(|s|, end);
    if from < to then s[from..to] else ""
  }

  /** `s.slice(6, -2)` keeps exactly the characters between a 6-character head and a 2-character tail. */
  lemma SliceBetween(head: string, mid: string, tail: string)
    requires |head| == 6 && |tail| == 2
    ensures Slice(head + mid + tail, 6, -2) == mid
  {
    var s := head + mid + tail;
    if mid == [] {
      assert RelativeIndex(|s|, -2) == 6;
    } else {
      assert s[6..|s| - 2] == mid;
    }
  }

  /** On a string of at most 8 characters, `s.slice(6, -2)` is empty. */
  lemma SliceOfShort(s: string)
    requires |s| <= 8
    ensures Slice(s, 6, -2) == ""
  {
  }

  /** The leading-whitespace half of `trim`: what is left does not start with whitespace. */
  function TrimStart(s: string): (r: string)
    ensures r == [] || !IsWhite(r[0])
  {
    if |s| > 0 && IsWhite(s[0]) then TrimStart(s[1..]) else s
  }

  /** The trailing-whitespace half of `trim`: what is left does not end with whitespace. */
  function TrimEnd(s: string): (r: string)
    ensures r == [] || !IsWhite(r[|r| - 1])
  {
    if |s| > 0 && IsWhite(s[|s| - 1]) then TrimEnd(s[..|s| - 1]) else s
  }

  /** `TrimStart` keeps a suffix and drops only whitespace before it. */
  lemma {:induction false} TrimStartDrops(s: string)
    ensures var r := TrimStart(s); |r| <= |s| && r == s[|s| - |r|..] && AllWhite(s[..|s| - |r|])
  {
    if |s| > 0 && IsWhite(s[0]) {
      var tail := s[1..];
      TrimStartDrops(tail);
      var r := TrimStart(tail);
      assert TrimStart(s) == r;
      assert tail[|tail| - |r|..] == s[|s| - |r|..];
      var dropped := s[..|s| - |r|];
      forall i | 0 <= i < |dropped| ensures IsWhite(dropped[i]) {
        if i > 0 {
          assert dropped[i] == tail[..|tail| - |r|][i - 1];
        }
      }
    }
  }

  /** `TrimEnd` keeps a prefix and drops only whitespace after it. */
  lemma {:induction false} TrimEndDrops(s: string)
    ensures var r := TrimEnd(s); |r| <= |s| && r == s[..|r|] && AllWhite(s[|r|..])
  {
    if |s| > 0 && IsWhite(s[|s| - 1]) {
      var init := s[..|s| - 1];
      TrimEndDrops(init);
      var r := TrimEnd(init);
      assert TrimEnd(s) == r;
      assert init[..|r|] == s[..|r|];
      var dropped := s[|r|..];
      forall i | 0 <= i < |dropped| ensures IsWhite(dropped[i]) {
        if i < |dropped| - 1 {
          assert dropped[i] == init[|r|..][i];
        }
      }
    }
  }

  /** `s.trim()`: no whitespace remains at either end. */
  function Trim(s: string): (r: string)
    ensures IsTrimmed(r)
  {
    var t := TrimStart(s);
    TrimEndDrops(t);
    TrimEnd(t)
  }

  /** `trim` removes whitespace and nothing else, and only from the two ends: `s` is whitespace, `Trim(s)`, whitespace. */
  lemma TrimRemovesWhitespace(s: string)
    ensures var t, r := TrimStart(s), Trim(s);
      && |r| <= |t| <= |s|
      && s == s[..|s| - |t|] + (r + t[|r|..])
      && AllWhite(s[..|s| - |t|]) && AllWhite(t[|r|..])
  {
    var t := TrimStart(s);
    TrimStartDrops(s);
    TrimEndDrops(t);
    var r := TrimEnd(t);
    assert Trim(s) == r;
    Reassemble(s, t, r);
  }

  /** A suffix `t` of `s` whose prefix is `r` splits `s` into what precedes `t`, `r`, and the rest of `t`. */
  lemma Reassemble(s: string, t: string, r: string)
    requires |r| <= |t| <= |s| && t == s[|s| - |t|..] && r == t[..|r|]
    ensures s == s[..|s| - |t|] + (r + t[|r|..])
  {
    assert t == r + t[|r|..];
    assert s == s[..|s| - |t|] + t;
  }

  /** Trimming only removes characters, so a character absent before is absent after. */
  lemma TrimKeepsAbsent(s: string, c: char)
    requires c !in s
    ensures c !in Trim(s)
  {
    var t := TrimStart(s);
    TrimStartDrops(s);
    TrimEndDrops(t);
    SliceKeepsAbsent(s, |s| - |t|, |s|, c);
    SliceKeepsAbsent(t, 0, |TrimEnd(t)|, c);
  }

  lemma SliceKeepsAbsent(s: string, from: nat, to: nat, c: char)
    requires from <= to <= |s| && c !in s
    ensures c !in s[from..to]
  {
    var t := s[from..to];
    forall k | 0 <= k < |t| ensures t[k] != c {
      assert t[k] == s[from + k] && s[from + k] in s;
    }
  }

  /** A string of whitespace alone trims to the empty string. */
  lemma TrimOfBlank(s: string)
    requires AllWhite(s)
    ensures Trim(s) == ""
  {
    TrimStartOfBlank(s);
  }

  lemma {:induction false} TrimStartOfBlank(s: string)
    requires AllWhite(s)
    ensures TrimStart(s) == ""
  {
    if |s| > 0 {
      TrimStartOfBlank(s[1..]);
    }
  }

  /** Trimming a string that has no whitespace at its ends changes nothing. */
  lemma TrimOfTrimmed(s: string)
    requires IsTrimmed(s)
    ensures Trim(s) == s
  {
    assert TrimStart(s) == s;
    assert TrimEnd(s) == s;
  }

  /** Whitespace after a trimmed string is all `trim` removes. */
  lemma TrimTrailing(s: string, post: string)
    requires AllWhite(post) && IsTrimmed(s)
    ensures Trim(s + post) == s
  {
    if s == [] {
      assert s + post == post;
      TrimOfBlank(post);
      return;
    }
    assert TrimStart(s + post) == s + post;
    TrimEndPadded(s, post);
  }

  lemma {:induction false} TrimEndPadded(s: string, post: string)
    requires AllWhite(post) && (s == [] || !IsWhite(s[|s| - 1]))
    ensures TrimEnd(s + post) == s
  {
    if post != [] {
      var p := post[..|post| - 1];
      assert (s + post)[..|s + post| - 1] == s + p;
      TrimEndPadded(s, p);
    } else {
      assert s + post == s;
    }
  }

  /** `s.replace(/,/g, " ")`: every comma becomes a space and every other character is kept. */
  function ReplaceCommas(s: string): (r: string)
    ensures |r| == |s| && ',' !in r
    ensures forall i :: 0 <= i < |s| ==> r[i] == if s[i] == ',' then ' ' else s[i]
  {
    if s == [] then []
    else
      var rest := ReplaceCommas(s[1..]);
      var r := [if s[0] == ',' then ' ' else s[0]] + rest;
      assert forall i :: 0 < i < |s| ==> r[i] == rest[i - 1] && s[i] == s[1..][i - 1];
      r
  }

  /** A string with no comma is left as it is by the replacement. */
  lemma ReplaceCommasOfCommaFree(s: string)
    requires ',' !in s
    ensures ReplaceCommas(s) == s
  {
  }

  /** `parts.join(sep)`. */
  function Join(parts: seq<string>, sep: string): string {
    if |parts| == 0 then ""
    else if |parts| == 1 then parts[0]
    else parts[0] + sep + Join(parts[1..], sep)
  }

  /** `s.split(sep)` for a one-character separator: never empty, even for the empty string. */
  function Split(s: string, sep: char): (r: seq<string>)
    ensures |r| >= 1
  {
    if |s| == 0 then [""]
    else
      var rest := Split(s[1..], sep);
      if s[0] == sep then [""] + rest
      else [[s[0]] + rest[0]] + rest[1..]
  }

  /** No piece of a split holds the separator, and joining the pieces with it gives the string back. */
  lemma {:induction false} SplitJoin(s: string, sep: char)
    ensures var r := Split(s, sep);
      && (forall i :: 0 <= i < |r| ==> sep !in r[i])
      && Join(r, [sep]) == s
  {
    if |s| > 0 {
      var rest := Split(s[1..], sep);
      SplitJoin(s[1..], sep);
      var r := Split(s, sep);
      if s[0] == sep {
        assert r == [""] + rest;
        assert r[1..] == rest;
        assert s == [sep] + s[1..];
      } else {
        assert r == [[s[0]] + rest[0]] + rest[1..];
        assert r[1..] == rest[1..];
        assert s == [s[0]] + s[1..];
        assert forall i :: 1 <= i < |r| ==> r[i] == rest[i];
      }
    }
  }

  /** The first piece of a split is the text before the first separator. */
  lemma {:induction false} FirstPieceBeforeSeparator(a: string, sep: char, b: string)
    requires sep !in a
    ensures Split(a + [sep] + b, sep)[0] == a
  {
    var s := a + [sep] + b;
    if a != [] {
      assert s[1..] == a[1..] + [sep] + b;
      FirstPieceBeforeSeparator(a[1..], sep, b);
      assert [a[0]] + a[1..] == a;
    }
  }

  /** Splitting a string that holds no separator gives that string alone. */
  lemma {:induction false} SplitWithoutSeparator(a: string, sep: char)
    requires sep !in a
    ensures Split(a, sep) == [a]
  {
    if a != [] {
      SplitWithoutSeparator(a[1..], sep);
      assert [a[0]] + a[1..] == a;
    }
  }
}
