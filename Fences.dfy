/**
 * Removing a Markdown code fence from the language model's reply before it is
 * parsed as JSON: when the stripped reply opens with three backticks, its
 * first line goes, and so does its last line when that line is a bare fence.
 * Strings are Python `str` values: `strip()` removes Unicode whitespace,
 * `split('\n')` and `'\n'.join` work on line feeds only.
 */
module Fences {

  const Fence: string := "```"

  /** Python's `str.isspace` for one character. */
  predicate IsSpace(c: char) {
    ('\U{9}' <= c <= '\U{D}') || ('\U{1C}' <= c <= '\U{20}')
    || c == '\U{85}' || c == '\U{A0}' || c == '\U{1680}'
    || ('\U{2000}' <= c <= '\U{200A}') || c == '\U{2028}' || c == '\U{2029}'
    || c == '\U{202F}' || c == '\U{205F}' || c == '\U{3000}'
  }

  predicate StartsWith(s: string, prefix: string) {
    |prefix| <= |s| && s[..|prefix|] == prefix
  }

  /** `s.lstrip()`: drops the leading whitespace and nothing else. */
  function TrimStart(s: string): (r: string)
    ensures |r| <= |s| && r == s[|s| - |r|..]
    ensures forall k :: 0 <= k < |s| - |r| ==> IsSpace(s[k])
    ensures r != [] ==> !IsSpace(r[0])
    decreases |s|
  {
    if s != [] && IsSpace(s[0]) then TrimStart(s[1..]) else s
  }

  /** `s.rstrip()`: drops the trailing whitespace and nothing else. */
  function TrimEnd(s: string): (r: string)
    ensures |r| <= |s| && r == s[..|r|]
    ensures forall k :: |r| <= k < |s| ==> IsSpace(s[k])
    ensures r != [] ==> !IsSpace(r[|r| - 1])
    decreases |s|
  {
    if s != [] && IsSpace(s[|s| - 1]) then TrimEnd(s[..|s| - 1]) else s
  }

  /** `s.strip()`. */
  function Strip(s: string): string {
    TrimEnd(TrimStart(s))
  }

  /** `s.split('\n')`: never empty; the pieces hold no line feed. */
  function Split(s: string): (r: seq<string>)
    ensures |r| >= 1
    ensures forall i :: 0 <= i < |r| ==> '\n' !in r[i]
    decreases |s|
  {
    if s == [] then [""]
    else
      var rest := Split(s[1..]);
      if s[0] == '\n' then [""] + rest
      else [[s[0]] + rest[0]] + rest[1..]
  }

  /** `'\n'.join(lines)`. */
  function Join(lines: seq<string>): string
    decreases |lines|
  {
    if lines == [] then ""
    else if |lines| == 1 then lines[0]
    else lines[0] + "\n" + Join(lines[1..])
  }

  /** Joining the pieces of a split gives the string back. */
  lemma {:induction false} JoinSplit(s: string)
    ensures Join(Split(s)) == s
    decreases |s|
  {
    if s != [] {
      var c, rest := s[0], Split(s[1..]);
      JoinSplit(s[1..]);
      assert s == [c] + s[1..];
      SplitCons(c, s[1..]);
      if c == '\n' {
        JoinFront("", rest);
      } else if |rest| == 1 {
        assert Join(Split(s)) == [c] + rest[0];
      } else {
        assert rest == [rest[0]] + rest[1..];
        JoinFront(rest[0], rest[1..]);
        JoinFront([c] + rest[0], rest[1..]);
        assert Join(Split(s)) == [c] + (rest[0] + "\n" + Join(rest[1..]));
      }
    }
  }

  /** Joining a line in front of at least one more. */
  lemma JoinFront(line: string, rest: seq<string>)
    requires |rest| >= 1
    ensures Join([line] + rest) == line + "\n" + Join(rest)
  {
    assert ([line] + rest)[1..] == rest;
  }

  /** A string without a line feed is one piece. */
  lemma {:induction false} SplitLine(s: string)
    requires '\n' !in s
    ensures Split(s) == [s]
    decreases |s|
  {
    if s != [] {
      assert '\n' !in s[1..];
      SplitLine(s[1..]);
      assert s == [s[0]] + s[1..];
    }
  }

  /** Splitting a string one character longer. */
  lemma SplitCons(c: char, t: string)
    ensures Split([c] + t) == if c == '\n' then [""] + Split(t)
                              else [[c] + Split(t)[0]] + Split(t)[1..]
  {
    assert ([c] + t)[1..] == t;
  }

  /** Splitting at a line feed splits the pieces on either side of it. */
  lemma {:induction false} SplitAround(a: string, b: string)
    ensures Split(a + "\n" + b) == Split(a) + Split(b)
    decreases |a|
  {
    if a == [] {
      assert a + "\n" + b == ['\n'] + b;
      SplitCons('\n', b);
    } else {
      var u := a[1..] + "\n" + b;
      assert a + "\n" + b == [a[0]] + u;
      assert a == [a[0]] + a[1..];
      SplitAround(a[1..], b);
      SplitPrefix(a[0], u, Split(a[1..]), Split(b));
      SplitCons(a[0], a[1..]);
    }
  }

  /** One more character in front of a string whose pieces are `front` then
      `back` changes only the pieces of `front`. */
  lemma SplitPrefix(c: char, u: string, front: seq<string>, back: seq<string>)
    requires Split(u) == front + back && |front| >= 1
    ensures Split([c] + u) == (if c == '\n' then [""] + front else [[c] + front[0]] + front[1..]) + back
  {
    SplitCons(c, u);
    if c != '\n' {
      assert (front + back)[0] == front[0];
      assert (front + back)[1..] == front[1..] + back;
    }
  }

  /** Splitting a join gives the lines back, when none holds a line feed. */
  lemma {:induction false} SplitJoin(lines: seq<string>)
    requires |lines| >= 1
    requires forall i :: 0 <= i < |lines| ==> '\n' !in lines[i]
    ensures Split(Join(lines)) == lines
    decreases |lines|
  {
    if |lines| == 1 {
      SplitLine(lines[0]);
    } else {
      SplitJoin(lines[1..]);
      SplitAround(lines[0], Join(lines[1..]));
      SplitLine(lines[0]);
    }
  }

  /** Splitting the join of a run of split pieces gives the run back. */
  lemma SplitJoinSlice(lines: seq<string>, lo: nat, hi: nat)
    requires lo < hi <= |lines|
    requires forall i :: 0 <= i < |lines| ==> '\n' !in lines[i]
    ensures Split(Join(lines[lo..hi])) == lines[lo..hi]
  {
    var run := lines[lo..hi];
    assert forall i :: 0 <= i < |run| ==> run[i] == lines[lo + i];
    SplitJoin(run);
  }

  /** The first piece of a split is the string up to its first line feed. */
  lemma {:induction false} SplitHead(s: string)
    ensures |Split(s)[0]| <= |s| && Split(s)[0] == s[..|Split(s)[0]|]
    ensures |Split(s)[0]| < |s| ==> s[|Split(s)[0]|] == '\n'
    decreases |s|
  {
    if s != [] {
      SplitHead(s[1..]);
    }
  }

  /** When the string opens with a fence, so does its first line. */
  lemma OpeningLine(s: string)
    requires StartsWith(s, Fence)
    ensures StartsWith(Split(s)[0], Fence)
  {
    SplitHead(s);
  }

  /** Whether a split reply ends in a line that is a bare fence (the opening
      line does not count). */
  predicate ClosesFence(lines: seq<string>) {
    |lines| >= 2 && Strip(lines[|lines| - 1]) == Fence
  }

  /** The reply with its fence removed: unchanged unless the stripped reply
      opens with a fence; otherwise the lines of the stripped reply without
      the opening line and, when it is a bare fence, the closing line. */
  function Unfenced(content: string): (r: string) {
    var trimmed := Strip(content);
    if !StartsWith(trimmed, Fence) then content
    else
      var lines := Split(trimmed);
      Join(lines[1..if ClosesFence(lines) then |lines| - 1 else |lines|])
  }

  /** The lines kept are consecutive lines of the stripped reply, in their
      order and unaltered. */
  lemma KeptLines(content: string)
    requires StartsWith(Strip(content), Fence)
    ensures var lines := Split(Strip(content));
            var k := if ClosesFence(lines) then |lines| - 1 else |lines|;
            1 < k ==> Split(Unfenced(content)) == lines[1..k]
  {
    var lines := Split(Strip(content));
    var k := if ClosesFence(lines) then |lines| - 1 else |lines|;
    if 1 < k {
      assert Unfenced(content) == Join(lines[1..k]);
      SplitJoinSlice(lines, 1, k);
    }
  }

  /** A reply wrapped as ```tag, body, ``` on lines of their own comes out as
      the body, whatever the body holds. */
  lemma Unwrap(tag: string, body: string)
    requires '\n' !in tag
    ensures Unfenced(Fence + tag + "\n" + body + "\n" + Fence) == body
  {
    var w := Fence + tag + "\n" + body + "\n" + Fence;
    assert w[0] == '`' && w[|w| - 1] == '`';
    assert TrimStart(w) == w;
    assert Strip(w) == w;
    assert StartsWith(w, Fence) by { assert w[..3] == Fence; }
    assert w == (Fence + tag) + "\n" + (body + "\n" + Fence);
    SplitAround(Fence + tag, body + "\n" + Fence);
    SplitAround(body, Fence);
    assert '\n' !in Fence + tag;
    SplitLine(Fence + tag);
    SplitLine(Fence);
    var lines := Split(w);
    assert lines == [Fence + tag] + Split(body) + [Fence];
    assert Strip(Fence) == Fence;
    assert ClosesFence(lines);
    assert lines[1..|lines| - 1] == Split(body);
    JoinSplit(body);
  }

  /** The method's test for a closing line, on the lines after the opening
      one, is `ClosesFence` on all the lines. */
  lemma ClosingLine(whole: seq<string>)
    requires |whole| >= 1
    ensures var rest := whole[1..];
            (|rest| > 0 && Strip(rest[|rest| - 1]) == Fence) == ClosesFence(whole)
    ensures ClosesFence(whole) ==> whole[1..][..|whole| - 2] == whole[1..|whole| - 1]
  {
  }

  /** The stripping block of the `generate` handler, step by step on a list of
      lines. */
  method StripCodeFence(content: string) returns (r: string)
    ensures r == Unfenced(content)
    ensures !StartsWith(Strip(content), Fence) ==> r == content
  {
    r := content;
    var trimmed := Strip(content);
    if StartsWith(trimmed, Fence) {
      var lines := Split(trimmed);
      ghost var whole := lines;
      OpeningLine(trimmed);
      if StartsWith(lines[0], Fence) {
        lines := lines[1..];
      }
      ClosingLine(whole);
      if |lines| > 0 && Strip(lines[|lines| - 1]) == Fence {
        lines := lines[..|lines| - 1];
      }
      assert lines == whole[1..if ClosesFence(whole) then |whole| - 1 else |whole|];
      r := Join(lines);
    }
  }
}
