/**
 * Text as lines.  A generated file is a sequence of lines, each followed by a
 * newline (`Unlines`); `Lines` splits a text back at its newlines, so that
 * "the file contains this line" can be stated about the text itself.
 */
module Text {
  import opened Wrappers

  /** The first position of `c` in `s`: a character in a string, or a line among lines. */
  function IndexOf<T(==)>(s: seq<T>, c: T): (r: Option<nat>)
    ensures r.Some? ==> r.value < |s| && s[r.value] == c
    ensures r.Some? ==> forall k :: 0 <= k < r.value ==> s[k] != c
    ensures r.None? <==> c !in s
  {
    if s == [] then None
    else if s[0] == c then Some(0)
    else match IndexOf(s[1..], c)
      case None => None
      case Some(i) => Some(i + 1)
  }

  /** An element that does not occur before is found where it stands. */
  lemma IndexOfAfter<T>(a: seq<T>, c: T, b: seq<T>)
    requires c !in a
    ensures IndexOf(a + [c] + b, c) == Some(|a|)
  {
    var s := a + [c] + b;
    assert s[|a|] == c;
    assert forall k :: 0 <= k < |a| ==> s[k] == a[k];
  }

  /** The parts before and after the first `c`, if there is one. */
  function SplitAtFirst(s: string, c: char): (r: Option<(string, string)>)
    ensures r.Some? ==> s == r.value.0 + [c] + r.value.1 && c !in r.value.0
    ensures r.None? <==> c !in s
  {
    match IndexOf(s, c)
    case None => None
    case Some(i) =>
      assert s == s[..i] + [c] + s[i + 1..];
      Some((s[..i], s[i + 1..]))
  }

  /** Splitting at the first `c` gives back the two parts it was put between. */
  lemma SplitAtFirstOf(a: string, c: char, b: string)
    requires c !in a
    ensures SplitAtFirst(a + [c] + b, c) == Some((a, b))
  {
    IndexOfAfter(a, c, b);
    var s := a + [c] + b;
    assert s[..|a|] == a;
    assert s[|a| + 1..] == b;
  }

  /** The middle of `s` when it starts with `pre` and ends with `last`. */
  function Unwrap(s: string, pre: string, last: char): (r: Option<string>)
    ensures r.Some? <==> |s| > |pre| && s[..|pre|] == pre && s[|s| - 1] == last
    ensures r.Some? ==> s == pre + r.value + [last]
  {
    if |s| > |pre| && s[..|pre|] == pre && s[|s| - 1] == last then
      assert s == s[..|pre|] + s[|pre|..|s| - 1] + [last];
      Some(s[|pre|..|s| - 1])
    else None
  }

  lemma RegroupMiddle(a: string, b: string, c: string, d: string, e: string)
    ensures a + b + c + d + e == a + (b + c + d) + e
  {
  }

  /** Unwrapping a wrapped text gives back its middle. */
  lemma UnwrapOf(pre: string, mid: string, last: char)
    ensures Unwrap(pre + mid + [last], pre, last) == Some(mid)
  {
    var s := pre + mid + [last];
    assert s[..|pre|] == pre;
    assert s[|pre|..|s| - 1] == mid;
  }

  /** The last position of `c` in `s`, as Python's `str.rfind` (None for -1). */
  function LastIndexOf(s: string, c: char): (r: Option<nat>)
    ensures r.Some? ==> r.value < |s| && s[r.value] == c
    ensures r.Some? ==> forall k :: r.value < k < |s| ==> s[k] != c
    ensures r.None? <==> c !in s
    decreases |s|
  {
    if s == [] then None
    else if s[|s| - 1] == c then Some(|s| - 1)
    else LastIndexOf(s[..|s| - 1], c)
  }

  predicate OneLine(l: string) {
    '\n' !in l
  }

  predicate AllOneLine(ls: seq<string>) {
    forall l | l in ls :: OneLine(l)
  }

  /** The text of `ls`: every line followed by a newline. */
  function Unlines(ls: seq<string>): (s: string)
    ensures ls == [] <==> s == []
    ensures s != [] ==> s[|s| - 1] == '\n'
  {
    if ls == [] then "" else ls[0] + "\n" + Unlines(ls[1..])
  }

  /** The lines of `s`, split at each newline; a last unterminated piece is a line too. */
  function Lines(s: string): (ls: seq<string>)
    ensures AllOneLine(ls)
    decreases |s|
  {
    if s == [] then []
    else match IndexOf(s, '\n')
      case None => [s]
      case Some(i) => [s[..i]] + Lines(s[i + 1..])
  }

  /** A newline-free line followed by a newline is split off as the first line. */
  lemma LinesAfterLine(head: string, rest: string)
    requires OneLine(head)
    ensures Lines(head + "\n" + rest) == [head] + Lines(rest)
  {
    var s := head + "\n" + rest;
    assert s == head + ['\n'] + rest;
    IndexOfAfter(head, '\n', rest);
    assert s[..|head|] == head;
    assert s[|head| + 1..] == rest;
  }

  /** Splitting the text of newline-free lines gives back those lines. */
  lemma {:induction false} LinesOfUnlines(ls: seq<string>)
    requires AllOneLine(ls)
    ensures Lines(Unlines(ls)) == ls
  {
    if ls != [] {
      assert ls[0] in ls;
      LinesAfterLine(ls[0], Unlines(ls[1..]));
      assert forall l | l in ls[1..] :: l in ls;
      LinesOfUnlines(ls[1..]);
      assert ls == [ls[0]] + ls[1..];
    }
  }

  /** Joining the lines of a newline-terminated text gives back the text. */
  lemma {:induction false} UnlinesOfLines(s: string)
    requires s == [] || s[|s| - 1] == '\n'
    ensures Unlines(Lines(s)) == s
    decreases |s|
  {
    if s != [] {
      assert '\n' in s by { assert s[|s| - 1] == '\n'; }
      var i := IndexOf(s, '\n').value;
      var head, rest := s[..i], s[i + 1..];
      assert s == head + "\n" + rest;
      var ls := Lines(rest);
      assert Lines(s) == [head] + ls;
      assert rest == [] || rest[|rest| - 1] == '\n';
      UnlinesOfLines(rest);
      assert ([head] + ls)[1..] == ls;
    }
  }

  /** `l` is one of the lines of the text `s`. */
  predicate ContainsLine(s: string, l: string) {
    l in Lines(s)
  }
}
