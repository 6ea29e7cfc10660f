/**
 * The string primitives the preset format is built from: GLib's ASCII
 * whitespace trimming (g_strchug, g_strchomp, g_strstrip), strcasecmp
 * under the C locale, g_strsplit_set, and g_str_has_suffix.  Strings are
 * sequences of characters; only the ASCII behaviour of the C library is
 * modelled.
 */
module Text {
  import opened Common

  /** g_ascii_isspace: space, tab, line feed, vertical tab, form feed, carriage return. */
  predicate IsSpace(c: char) {
    c == ' ' || c == '\t' || c == '\n' || c == '\U{B}' || c == '\U{C}' || c == '\r'
  }

  function Spaces(n: nat): (r: string)
    ensures |r| == n
    ensures forall i :: 0 <= i < n ==> r[i] == ' '
  {
    if n == 0 then [] else [' '] + Spaces(n - 1)
  }

  /** g_strchug: drops the leading whitespace, and only that. */
  function Chug(s: string): (r: string)
    ensures |r| <= |s| && r == s[|s| - |r|..]
    ensures forall i :: 0 <= i < |s| - |r| ==> IsSpace(s[i])
    ensures r == [] || !IsSpace(r[0])
  {
    if |s| > 0 && IsSpace(s[0]) then Chug(s[1..]) else s
  }

  /** g_strchomp: drops the trailing whitespace, and only that. */
  function Chomp(s: string): (r: string)
    ensures |r| <= |s| && r == s[..|r|]
    ensures forall i :: |r| <= i < |s| ==> IsSpace(s[i])
    ensures r == [] || !IsSpace(r[|r| - 1])
  {
    if |s| > 0 && IsSpace(s[|s| - 1]) then Chomp(s[..|s| - 1]) else s
  }

  /** g_strstrip is g_strchomp (g_strchug (s)). */
  function Strip(s: string): string {
    Chomp(Chug(s))
  }

  /** A value with no whitespace at either end. */
  predicate Trimmed(s: string) {
    s != [] && !IsSpace(s[0]) && !IsSpace(s[|s| - 1])
  }

  lemma StripTrimmed(s: string)
    requires Trimmed(s)
    ensures Chug(s) == s && Chomp(s) == s && Strip(s) == s
  {
  }

  /** Whitespace padding in front of a value that starts with a non-space is exactly what Chug removes. */
  lemma {:induction false} ChugPadded(n: nat, s: string)
    requires s != [] && !IsSpace(s[0])
    ensures Chug(Spaces(n) + s) == s
  {
    var t := Spaces(n) + s;
    if n == 0 {
      assert t == s;
    } else {
      assert t[0] == ' ';
      assert t[1..] == Spaces(n - 1) + s;
      ChugPadded(n - 1, s);
    }
  }

  /** Whitespace padding in front of a trimmed value is exactly what Strip removes. */
  lemma StripPadded(n: nat, s: string)
    requires Trimmed(s)
    ensures Strip(Spaces(n) + s) == s
  {
    ChugPadded(n, s);
    StripTrimmed(s);
  }

  /** g_strchug adds no characters. */
  lemma ChugFrom(s: string, x: char)
    requires x in Chug(s)
    ensures x in s
  {
    var c := Chug(s);
    var i :| 0 <= i < |c| && c[i] == x;
    assert s[i + (|s| - |c|)] == x;
  }

  /** g_strchomp adds no characters. */
  lemma ChompFrom(s: string, x: char)
    requires x in Chomp(s)
    ensures x in s
  {
    var m := Chomp(s);
    var i :| 0 <= i < |m| && m[i] == x;
    assert s[i] == x;
  }

  /** g_strchug removes only whitespace. */
  lemma ChugKeeps(s: string, x: char)
    requires x in s && !IsSpace(x)
    ensures x in Chug(s)
  {
    var i :| 0 <= i < |s| && s[i] == x;
    var c := Chug(s);
    var k := |s| - |c|;
    assert !IsSpace(s[i]);
    assert k <= i;
    assert c[i - k] == s[i];
  }

  /** g_strchomp removes only whitespace. */
  lemma ChompKeeps(s: string, x: char)
    requires x in s && !IsSpace(x)
    ensures x in Chomp(s)
  {
    var i :| 0 <= i < |s| && s[i] == x;
    var m := Chomp(s);
    assert i < |m|;
    assert m[i] == x;
  }

  /** tolower of the C locale. */
  function LowerChar(c: char): (r: char)
    ensures 'A' <= c <= 'Z' ==> 'a' <= r <= 'z' && r as int - c as int == 32
    ensures !('A' <= c <= 'Z') ==> r == c
  {
    if 'A' <= c <= 'Z' then (c as int + 32) as char else c
  }

  function Lower(s: string): (r: string)
    ensures |r| == |s|
    ensures forall i :: 0 <= i < |s| ==> r[i] == LowerChar(s[i])
  {
    if s == [] then [] else [LowerChar(s[0])] + Lower(s[1..])
  }

  predicate IsLower(s: string) {
    forall i :: 0 <= i < |s| ==> !('A' <= s[i] <= 'Z')
  }

  /** strcasecmp (a, b) == 0, compared character by character. */
  predicate EqualsIgnoreCase(a: string, b: string) {
    |a| == |b| && forall i :: 0 <= i < |a| ==> LowerChar(a[i]) == LowerChar(b[i])
  }

  /** The comparison agrees with comparing the lower-cased strings. */
  lemma EqualsIgnoreCaseIsLowerEquality(a: string, b: string)
    ensures EqualsIgnoreCase(a, b) <==> Lower(a) == Lower(b)
  {
    if Lower(a) == Lower(b) {
      assert forall i :: 0 <= i < |a| ==> Lower(a)[i] == LowerChar(a[i]);
    }
  }

  /** Between two lower-case strings the comparison is plain equality. */
  lemma EqualsIgnoreCaseLower(a: string, b: string)
    requires IsLower(a) && IsLower(b)
    ensures EqualsIgnoreCase(a, b) <==> a == b
  {
    if EqualsIgnoreCase(a, b) {
      forall i | 0 <= i < |a| ensures a[i] == b[i] {
        assert LowerChar(a[i]) == a[i];
      }
    }
  }

  /**
   * g_strsplit_set (s, {sep}, 2) on a non-empty line: the text before the
   * first separator, and the text after it if there is one.
   */
  function SplitAtFirst(s: string, sep: char): (r: (string, Option<string>))
    ensures sep !in r.0
    ensures r.1.None? <==> sep !in s
    ensures r.1.None? ==> r.0 == s
    ensures r.1.Some? ==> s == r.0 + [sep] + r.1.value
  {
    if s == [] then (s, None)
    else if s[0] == sep then ([], Some(s[1..]))
    else
      var t := SplitAtFirst(s[1..], sep);
      assert s == [s[0]] + s[1..];
      ([s[0]] + t.0, t.1)
  }

  // ---------------------------------------------------------------------
  // Byte counts: a file holds the UTF-8 encoding of its characters

  /** The number of bytes c takes in UTF-8. */
  function Utf8Size(c: char): (n: nat)
    ensures 1 <= n <= 4
    ensures n == 1 <==> c < '\U{80}'
  {
    if c < '\U{80}' then 1 else if c < '\U{800}' then 2 else if c < '\U{10000}' then 3 else 4
  }

  /** The number of bytes s takes in UTF-8: the length fgets and the file see. */
  function ByteLength(s: string): (n: nat)
    ensures |s| <= n <= 4 * |s|
  {
    if s == [] then 0 else Utf8Size(s[0]) + ByteLength(s[1..])
  }

  lemma {:induction false} ByteLengthAppend(a: string, b: string)
    ensures ByteLength(a + b) == ByteLength(a) + ByteLength(b)
  {
    if a != [] {
      assert (a + b)[0] == a[0] && (a + b)[1..] == a[1..] + b;
      ByteLengthAppend(a[1..], b);
    } else {
      assert a + b == b;
    }
  }

  /** Bytes and characters agree exactly on ASCII text. */
  lemma {:induction false} ByteLengthIsLength(s: string)
    ensures ByteLength(s) == |s| <==> forall i :: 0 <= i < |s| ==> s[i] < '\U{80}'
  {
    if s != [] {
      ByteLengthIsLength(s[1..]);
      assert forall i :: 1 <= i < |s| ==> s[i] == s[1..][i - 1];
    }
  }

  /** No character of s is one of the delimiters. */
  predicate Free(s: string, delims: set<char>) {
    forall i :: 0 <= i < |s| ==> s[i] !in delims
  }

  function CountIn(s: string, delims: set<char>): nat {
    if s == [] then 0 else (if s[0] in delims then 1 else 0) + CountIn(s[1..], delims)
  }

  /**
   * The tokens g_strsplit_set (s, delims, -1) returns for a non-empty s:
   * every delimiter ends a token, and the text after the last one is the
   * final token.
   */
  function SplitAll(s: string, delims: set<char>): (r: seq<string>)
    ensures |r| == CountIn(s, delims) + 1
    ensures forall i :: 0 <= i < |r| ==> Free(r[i], delims)
  {
    if s == [] then [[]]
    else
      var rest := SplitAll(s[1..], delims);
      if s[0] in delims then [[]] + rest
      else [[s[0]] + rest[0]] + rest[1..]
  }

  /** g_strsplit_set (s, delims, -1): an empty string has no tokens at all. */
  function SplitSet(s: string, delims: set<char>): seq<string> {
    if s == [] then [] else SplitAll(s, delims)
  }

  /** Lines written one after another, each ended by a line feed. */
  function JoinLines(lines: seq<string>): string {
    if lines == [] then [] else lines[0] + "\n" + JoinLines(lines[1..])
  }

  lemma {:induction false} SplitAfterToken(a: string, d: char, rest: string, delims: set<char>)
    requires Free(a, delims) && d in delims
    ensures SplitAll(a + [d] + rest, delims) == [a] + SplitAll(rest, delims)
  {
    if a == [] {
      assert a + [d] + rest == [d] + rest;
      assert ([d] + rest)[1..] == rest;
    } else {
      assert (a + [d] + rest)[0] == a[0];
      assert (a + [d] + rest)[1..] == a[1..] + [d] + rest;
      SplitAfterToken(a[1..], d, rest, delims);
      assert [a[0]] + a[1..] == a;
    }
  }

  /** Splitting written lines at the line feed gives the lines back, plus the empty tail. */
  lemma {:induction false} SplitJoinLines(lines: seq<string>, delims: set<char>)
    requires '\n' in delims
    requires forall i :: 0 <= i < |lines| ==> Free(lines[i], delims)
    ensures SplitAll(JoinLines(lines), delims) == lines + [[]]
  {
    if lines != [] {
      SplitJoinLines(lines[1..], delims);
      assert JoinLines(lines) == lines[0] + ['\n'] + JoinLines(lines[1..]);
      SplitAfterToken(lines[0], '\n', JoinLines(lines[1..]), delims);
      assert lines == [lines[0]] + lines[1..];
    }
  }

  /** g_str_has_suffix. */
  predicate HasSuffix(s: string, suffix: string) {
    |suffix| <= |s| && s[|s| - |suffix|..] == suffix
  }
}
