/** String helpers for the attachment text: Python's `sep.join(parts)` (with an
    empty `sep`, plain concatenation), and the Markdown code fence that
    wraps a stack trace in a Slack attachment. `Split`, Python's
    `s.split(c)`, is a device for stating what the joined text says about
    its parts; it undoes the join only for parts without the separator. */
module Text {
  import opened Wrappers

  /** `sep.join(parts)`: the parts in order, with `sep` between neighbours. */
  function Join(sep: string, parts: seq<string>): (s: string)
    ensures |parts| == 0 ==> s == ""
    ensures |parts| >= 1 ==> |s| >= |parts[0]| && s[..|parts[0]|] == parts[0]
    ensures |parts| >= 1 ==> |s| >= |parts[|parts| - 1]| && s[|s| - |parts[|parts| - 1]|..] == parts[|parts| - 1]
  {
    if |parts| == 0 then ""
    else if |parts| == 1 then parts[0]
    else parts[0] + sep + Join(sep, parts[1..])
  }

  /** `s.split(c)` for a one-character separator: the maximal runs of
      characters other than `c`, always at least one (possibly empty) part. */
  function Split(s: string, c: char): (parts: seq<string>)
    ensures |parts| >= 1
    ensures |parts| == 1 <==> c !in s
    decreases |s|
  {
    if |s| == 0 then [""]
    else if s[0] == c then [""] + Split(s[1..], c)
    else
      var rest := Split(s[1..], c);
      [[s[0]] + rest[0]] + rest[1..]
  }

  /** The parts of each string, one string after the other. */
  function SplitEach(strings: seq<string>, c: char): (parts: seq<string>)
    ensures |parts| >= |strings|
  {
    if |strings| == 0 then [] else Split(strings[0], c) + SplitEach(strings[1..], c)
  }

  /** A string without the separator splits into itself. */
  lemma {:induction false} SplitWithoutSeparator(p: string, c: char)
    requires c !in p
    ensures Split(p, c) == [p]
  {
    if |p| > 0 {
      SplitWithoutSeparator(p[1..], c);
      assert [p[0]] + p[1..] == p;
    }
  }

  /** Splitting at a separator splits each side on its own. */
  lemma {:induction false} SplitAtSeparator(a: string, b: string, c: char)
    ensures Split(a + [c] + b, c) == Split(a, c) + Split(b, c)
    decreases |a|
  {
    var s := a + [c] + b;
    if |a| == 0 {
      assert s[0] == c && s[1..] == b;
    } else {
      assert s[0] == a[0] && s[1..] == a[1..] + [c] + b;
      SplitAtSeparator(a[1..], b, c);
    }
  }

  /** Splitting a joined text gives the pieces of every part, in order:
      nothing of any part is lost, reordered or merged with its neighbour. */
  lemma {:induction false} SplitJoin(parts: seq<string>, c: char)
    requires |parts| >= 1
    ensures Split(Join([c], parts), c) == SplitEach(parts, c)
  {
    if |parts| == 1 {
      assert SplitEach(parts, c) == Split(parts[0], c) + SplitEach([], c);
    } else {
      SplitJoin(parts[1..], c);
      SplitAtSeparator(parts[0], Join([c], parts[1..]), c);
    }
  }

  /** For parts without the separator, the split undoes the join. */
  lemma {:induction false} SplitJoinWithoutSeparator(parts: seq<string>, c: char)
    requires |parts| >= 1
    requires forall i :: 0 <= i < |parts| ==> c !in parts[i]
    ensures Split(Join([c], parts), c) == parts
  {
    SplitJoin(parts, c);
    SplitEachWithoutSeparator(parts, c);
  }

  lemma {:induction false} SplitEachWithoutSeparator(parts: seq<string>, c: char)
    requires forall i :: 0 <= i < |parts| ==> c !in parts[i]
    ensures SplitEach(parts, c) == parts
  {
    if |parts| > 0 {
      SplitWithoutSeparator(parts[0], c);
      SplitEachWithoutSeparator(parts[1..], c);
      assert [parts[0]] + parts[1..] == parts;
    }
  }

  /** For parts that may hold the separator, the joined text does not
      determine them: two newline-terminated lines and one line holding
      both join to the same text. */
  lemma JoinLosesLineBoundaries()
    ensures Join("\n", ["a\n", "b\n"]) == Join("\n", ["a\n\nb\n"])
  {
    JoinPair("\n", "a\n", "b\n");
    var joined: string := "a\n" + "\n" + "b\n";
    assert |joined| == 5;
    assert forall i :: 0 <= i < 5 ==> joined[i] == "a\n\nb\n"[i];
  }

  lemma JoinPair(sep: string, a: string, b: string)
    ensures Join(sep, [a, b]) == a + sep + b
  {
    assert [a, b][1..] == [b];
  }

  const FENCE := "```"

  /** A Markdown code block: the text between two triple back-ticks. */
  function Fence(text: string): (s: string)
    ensures |s| == |text| + 6
    ensures s[..3] == FENCE && s[|s| - 3..] == FENCE
    ensures s[3..|s| - 3] == text
  {
    FENCE + text + FENCE
  }

  /** The text inside a code block, if the string is one. */
  function Unfence(s: string): (text: Option<string>)
    ensures text.Some? ==> Fence(text.value) == s
  {
    if |s| >= 6 && s[..3] == FENCE && s[|s| - 3..] == FENCE then
      assert s == s[..3] + s[3..|s| - 3] + s[|s| - 3..];
      Some(s[3..|s| - 3])
    else None
  }

  lemma UnfenceFence(text: string)
    ensures Unfence(Fence(text)) == Some(text)
  {
  }
}
