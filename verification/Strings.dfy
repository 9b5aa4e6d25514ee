/** The parts of Go's `strings` package that the provider's text handling relies on. */
module Strings {

  predicate OccursAt(s: string, sub: string, i: nat) {
    i + |sub| <= |s| && s[i..i + |sub|] == sub
  }

  ghost predicate Contains(s: string, sub: string) {
    exists i: nat :: OccursAt(s, sub, i)
  }

  /** `strings.HasPrefix`. */
  predicate HasPrefix(s: string, prefix: string) {
    prefix <= s
  }

  /** `strings.Index`: the leftmost occurrence at or after `from`, or -1. */
  function IndexFrom(s: string, sub: string, from: nat): (r: int)
    ensures r == -1 || (from <= r && OccursAt(s, sub, r))
    ensures forall j: nat :: from <= j && OccursAt(s, sub, j) ==> 0 <= r <= j
    decreases |s| - from
  {
    if from + |sub| > |s| then -1
    else if OccursAt(s, sub, from) then from
    else IndexFrom(s, sub, from + 1)
  }

  function Index(s: string, sub: string): (r: int)
    ensures r == -1 <==> !Contains(s, sub)
    ensures r != -1 ==> 0 <= r && OccursAt(s, sub, r)
    ensures forall j: nat :: OccursAt(s, sub, j) ==> 0 <= r <= j
  {
    IndexFrom(s, sub, 0)
  }

  /** `strings.Split` for a non-empty separator. */
  function Split(s: string, sep: string): (parts: seq<string>)
    requires sep != ""
    ensures |parts| >= 1
    ensures |parts| == 1 <==> !Contains(s, sep)
    ensures |parts| == 1 ==> parts[0] == s
    decreases |s|
  {
    var i := Index(s, sep);
    if i == -1 then [s] else [s[..i]] + Split(s[i + |sep|..], sep)
  }

  /** The line and the tail of `strings.Cut(s, "\n")`. */
  function CutLine(s: string): (r: (string, string))
    ensures '\n' !in r.0
    ensures s == r.0 + "\n" + r.1 || (s == r.0 && r.1 == "")
  {
    if s == "" then ("", "")
    else if s[0] == '\n' then ("", s[1..])
    else
      var r := CutLine(s[1..]);
      ([s[0]] + r.0, r.1)
  }

  /** A text that starts with a terminated line is cut right there. */
  lemma {:induction false} CutOfLine(line: string, rest: string)
    requires '\n' !in line
    ensures CutLine(line + "\n" + rest) == (line, rest)
  {
    var s := line + "\n" + rest;
    if line == "" {
      assert s[1..] == rest;
    } else {
      CutOfLine(line[1..], rest);
      assert s[0] == line[0] && line[0] in line;
      assert line == [line[0]] + line[1..];
      assert s[1..] == line[1..] + "\n" + rest;
    }
  }

  /** `unicode.IsSpace`. */
  predicate IsSpace(c: char) {
    c in "\t\n\r " || c == '\U{0B}' || c == '\U{0C}' || c == '\U{85}' || c == '\U{A0}' || c == '\U{1680}'
    || '\U{2000}' <= c <= '\U{200A}' || c in "\U{2028}\U{2029}\U{202F}\U{205F}\U{3000}"
  }

  function TrimLeft(s: string): string {
    if s != "" && IsSpace(s[0]) then TrimLeft(s[1..]) else s
  }

  function TrimRight(s: string): string {
    if s != "" && IsSpace(s[|s| - 1]) then TrimRight(s[..|s| - 1]) else s
  }

  /** `strings.TrimSpace`. */
  function TrimSpace(s: string): string {
    TrimRight(TrimLeft(s))
  }

  predicate AllSpace(s: string) {
    forall i :: 0 <= i < |s| ==> IsSpace(s[i])
  }

  lemma {:induction false} TrimLeftExact(s: string) returns (a: string)
    ensures s == a + TrimLeft(s) && AllSpace(a) && (TrimLeft(s) != "" ==> !IsSpace(TrimLeft(s)[0]))
  {
    hide IsSpace;
    a := "";
    if s != "" && IsSpace(s[0]) {
      var rest := TrimLeftExact(s[1..]);
      a := [s[0]] + rest;
      assert s == [s[0]] + s[1..];
    }
  }

  lemma {:induction false} TrimRightExact(s: string) returns (b: string)
    ensures s == TrimRight(s) + b && AllSpace(b)
    ensures TrimRight(s) != "" ==> !IsSpace(TrimRight(s)[|TrimRight(s)| - 1])
  {
    hide IsSpace;
    b := "";
    if s != "" && IsSpace(s[|s| - 1]) {
      var init, last := s[..|s| - 1], s[|s| - 1];
      var rest := TrimRightExact(init);
      b := rest + [last];
      OneMoreSpace(TrimRight(init), rest, last);
      assert s == init + [last];
    }
  }

  lemma OneMoreSpace(a: string, b: string, c: char)
    ensures a + (b + [c]) == (a + b) + [c]
    ensures AllSpace(b) && IsSpace(c) ==> AllSpace(b + [c])
  {
    hide IsSpace;
  }

  /** TrimSpace takes off spaces at both ends, all of them and nothing else. */
  lemma TrimSpaceExact(s: string) returns (a: string, b: string)
    ensures s == a + TrimSpace(s) + b && AllSpace(a) && AllSpace(b)
    ensures TrimSpace(s) != "" ==> !IsSpace(TrimSpace(s)[0]) && !IsSpace(TrimSpace(s)[|TrimSpace(s)| - 1])
  {
    hide IsSpace;
    a := TrimLeftExact(s);
    b := TrimRightExact(TrimLeft(s));
    assert s == a + (TrimSpace(s) + b) == a + TrimSpace(s) + b;
    if TrimSpace(s) != "" { assert TrimLeft(s)[0] == TrimSpace(s)[0]; }
  }

  lemma {:induction false} TrimLeftOf(a: string, s: string)
    requires AllSpace(a) && s != "" && !IsSpace(s[0])
    ensures TrimLeft(a + s) == s
  {
    hide IsSpace;
    if a == "" {
      assert a + s == s;
    } else {
      assert (a + s)[0] == a[0] && (a + s)[1..] == a[1..] + s;
      TrimLeftOf(a[1..], s);
    }
  }

  lemma TrimRightKeeps(word: string, rest: string)
    requires word != "" && !IsSpace(word[|word| - 1])
    ensures word <= TrimRight(word + rest)
  {
    hide IsSpace, TrimRight;
    var s := word + rest;
    var b := TrimRightExact(s);
    var t := TrimRight(s);
    assert s[|word| - 1] == word[|word| - 1];
    assert word <= s && t <= s;
  }

  /** The text begins with the word after spaces, if any. */
  ghost predicate BeginsWith(s: string, word: string) {
    exists a, rest :: AllSpace(a) && s == a + word + rest
  }

  /** What a trimmed line begins with, said of the line itself, for a word without spaces at its ends. */
  lemma TrimmedBeginsWith(s: string, word: string)
    requires word != "" && !IsSpace(word[0]) && !IsSpace(word[|word| - 1])
    ensures HasPrefix(TrimSpace(s), word) <==> BeginsWith(s, word)
  {
    hide IsSpace;
    if HasPrefix(TrimSpace(s), word) {
      var a, b := TrimSpaceExact(s);
      var t := TrimSpace(s);
      assert t == word + t[|word|..];
      assert s == a + word + (t[|word|..] + b);
    }
    if BeginsWith(s, word) {
      var a, rest :| AllSpace(a) && s == a + word + rest;
      assert s == a + (word + rest);
      TrimLeftOf(a, word + rest);
      TrimRightKeeps(word, rest);
    }
  }

  /** A line that trims to nothing is all space. */
  lemma TrimmedIsEmpty(s: string)
    ensures TrimSpace(s) == "" <==> AllSpace(s)
  {
    hide IsSpace;
    var a, b := TrimSpaceExact(s);
    if TrimSpace(s) == "" {
      assert s == a + b;
    } else {
      assert s[|a|] == TrimSpace(s)[0];
    }
  }
}
