/**
 * The string primitives the two programs lean on: JavaScript's String.prototype.trim,
 * Python's str.strip, str.upper, str.endswith and str.split with a one-character
 * separator.
 */
module Text {

  /** The two runtimes disagree on which characters count as white space. */
  datatype Runtime = JavaScript | Python

  /**
   * JavaScript: the WhiteSpace and LineTerminator productions (including U+FEFF);
   * Python: the characters for which str.isspace holds (including U+001C..U+001F and U+0085).
   */
  predicate IsWhitespace(c: char, rt: Runtime)
    ensures IsWhitespace(c, rt) ==> c <= ' ' || '\U{0085}' <= c
  {
    || c == ' ' || c == '\t' || c == '\n' || c == '\r'
    || c == '\U{000B}' || c == '\U{000C}' || c == '\U{00A0}' || c == '\U{1680}'
    || ('\U{2000}' <= c <= '\U{200A}')
    || c == '\U{2028}' || c == '\U{2029}' || c == '\U{202F}' || c == '\U{205F}' || c == '\U{3000}'
    || (rt == JavaScript && c == '\U{FEFF}')
    || (rt == Python && (('\U{001C}' <= c <= '\U{001F}') || c == '\U{0085}'))
  }

  /** Every character of `s` is white space (the empty string included). */
  predicate IsBlank(s: string, rt: Runtime) {
    forall j :: 0 <= j < |s| ==> IsWhitespace(s[j], rt)
  }

  /** The length of the white-space prefix of `s`. */
  function LeadingBlanks(s: string, rt: Runtime): (k: nat)
    ensures k <= |s|
    ensures forall j :: 0 <= j < k ==> IsWhitespace(s[j], rt)
    ensures k < |s| ==> !IsWhitespace(s[k], rt)
  {
    if |s| == 0 || !IsWhitespace(s[0], rt) then 0 else 1 + LeadingBlanks(s[1..], rt)
  }

  /** The length of the white-space suffix of `s`. */
  function TrailingBlanks(s: string, rt: Runtime): (k: nat)
    ensures k <= |s|
    ensures forall j :: |s| - k <= j < |s| ==> IsWhitespace(s[j], rt)
    ensures k < |s| ==> !IsWhitespace(s[|s| - 1 - k], rt)
  {
    if |s| == 0 || !IsWhitespace(s[|s| - 1], rt) then 0 else 1 + TrailingBlanks(s[..|s| - 1], rt)
  }

  /**
   * `s` without its leading and trailing white space: `trim()` for JavaScript,
   * `strip()` for Python.
   */
  function Trim(s: string, rt: Runtime): (r: string)
    ensures |r| <= |s|
    ensures r == [] <==> IsBlank(s, rt)
    ensures r != [] ==> !IsWhitespace(r[0], rt) && !IsWhitespace(r[|r| - 1], rt)
  {
    var i := LeadingBlanks(s, rt);
    if i == |s| then [] else s[i..|s| - TrailingBlanks(s, rt)]
  }

  /** Trimming removes white space from the two ends of `s` and nothing else. */
  lemma TrimIsInnerSlice(s: string, rt: Runtime)
    ensures var i := LeadingBlanks(s, rt);
      var r := Trim(s, rt);
      && i + |r| <= |s|
      && r == s[i..i + |r|]
      && (forall j :: 0 <= j < i ==> IsWhitespace(s[j], rt))
      && (forall j :: i + |r| <= j < |s| ==> IsWhitespace(s[j], rt))
  {
  }

  /** Trimming an already trimmed string changes nothing. */
  lemma TrimIdempotent(s: string, rt: Runtime)
    ensures Trim(Trim(s, rt), rt) == Trim(s, rt)
  {
    var r := Trim(s, rt);
    if r != [] {
      assert LeadingBlanks(r, rt) == 0;
    }
  }

  /** ASCII upper-casing of one character: `a`..`z` map to `A`..`Z`, all else is kept. */
  function UpperChar(c: char): (u: char)
    ensures 'a' <= c <= 'z' ==> 'A' <= u <= 'Z' && u as int - 'A' as int == c as int - 'a' as int
    ensures !('a' <= c <= 'z') ==> u == c
  {
    if 'a' <= c <= 'z' then (c as int - 'a' as int + 'A' as int) as char else c
  }

  /** Python's `str.upper()` restricted to ASCII letters. */
  function Upper(s: string): (r: string)
    ensures |r| == |s|
  {
    if s == [] then [] else [UpperChar(s[0])] + Upper(s[1..])
  }

  /** Upper-casing maps every character on its own and leaves no lower-case ASCII letter. */
  lemma {:induction false} UpperPointwise(s: string)
    ensures forall j :: 0 <= j < |s| ==> Upper(s)[j] == UpperChar(s[j])
    ensures forall j :: 0 <= j < |s| ==> !('a' <= Upper(s)[j] <= 'z')
    decreases |s|
  {
    if s != [] {
      UpperPointwise(s[1..]);
      assert forall j :: 1 <= j < |s| ==> Upper(s)[j] == Upper(s[1..])[j - 1];
    }
  }

  /** Upper-casing twice is upper-casing once. */
  lemma {:induction false} UpperIdempotent(s: string)
    ensures Upper(Upper(s)) == Upper(s)
    decreases |s|
  {
    if s != [] {
      UpperIdempotent(s[1..]);
      var u := Upper(s);
      assert u[1..] == Upper(s[1..]);
    }
  }

  /** Python's `str.endswith(suffix)`. */
  predicate EndsWith(s: string, suffix: string)
    ensures EndsWith(s, suffix) ==> |suffix| <= |s| && s == s[..|s| - |suffix|] + suffix
  {
    |suffix| <= |s| && s[|s| - |suffix|..] == suffix
  }

  /** How many times `c` occurs in `s`. */
  function Occurrences(s: string, c: char): nat {
    if s == [] then 0 else (if s[0] == c then 1 else 0) + Occurrences(s[1..], c)
  }

  /**
   * Python's `s.split(sep)`: the maximal separator-free pieces between separators,
   * so that the empty string yields one empty piece and `n` separators yield `n + 1` pieces.
   */
  function Split(s: string, sep: char): (parts: seq<string>)
    ensures |parts| >= 1
    ensures forall k :: 0 <= k < |parts| ==> sep !in parts[k]
    ensures |parts| == 1 + Occurrences(s, sep)
  {
    if s == [] then [[]]
    else
      var rest := Split(s[1..], sep);
      if s[0] == sep then [[]] + rest
      else [[s[0]] + rest[0]] + rest[1..]
  }

  /** The inverse of Split: the pieces glued back together with the separator. */
  function Join(parts: seq<string>, sep: char): (s: string)
    requires |parts| >= 1
  {
    if |parts| == 1 then parts[0] else parts[0] + [sep] + Join(parts[1..], sep)
  }

  /** Gluing the pieces of a split back together gives the original string. */
  lemma {:induction false} JoinSplit(s: string, sep: char)
    ensures Join(Split(s, sep), sep) == s
    decreases |s|
  {
    if s != [] {
      var rest := Split(s[1..], sep);
      JoinSplit(s[1..], sep);
      var parts := Split(s, sep);
      if s[0] == sep {
        assert parts[1..] == rest;
      } else if |rest| > 1 {
        assert parts[1..] == rest[1..];
      }
    }
  }

  /** A separator-free string splits into itself alone. */
  lemma {:induction false} SplitSeparatorFree(p: string, sep: char)
    requires sep !in p
    ensures Split(p, sep) == [p]
    decreases |p|
  {
    if p != [] {
      SplitSeparatorFree(p[1..], sep);
      assert [p[0]] + p[1..] == p;
    }
  }

  /** Splitting stops at the first separator and continues after it. */
  lemma {:induction false} SplitAtFirst(p: string, t: string, sep: char)
    requires sep !in p
    ensures Split(p + [sep] + t, sep) == [p] + Split(t, sep)
    decreases |p|
  {
    var s := p + [sep] + t;
    if p == [] {
      assert s[1..] == t;
    } else {
      SplitAtFirst(p[1..], t, sep);
      assert s[1..] == p[1..] + [sep] + t;
      assert [p[0]] + p[1..] == p;
    }
  }

  /** Splitting what Join produced from separator-free pieces gives the pieces back. */
  lemma {:induction false} SplitJoin(parts: seq<string>, sep: char)
    requires |parts| >= 1
    requires forall k :: 0 <= k < |parts| ==> sep !in parts[k]
    ensures Split(Join(parts, sep), sep) == parts
    decreases |parts|
  {
    if |parts| == 1 {
      SplitSeparatorFree(parts[0], sep);
    } else {
      SplitJoin(parts[1..], sep);
      SplitAtFirst(parts[0], Join(parts[1..], sep), sep);
    }
  }
}
