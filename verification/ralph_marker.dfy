/** The completion marker on the final non-empty line of a handback (workflow-registry.ts). */
module RalphMarker {
  import opened JsText

  const GOAL_COMPLETE := "[[RALPH:GOAL-COMPLETE]]"
  const ITEM_DELIVERED := "[[RALPH:ITEM-DELIVERED]]"

  datatype FinalMarker = GoalComplete | ItemDelivered | NoMarker

  function SplitLines(s: string): (lines: seq<string>)
    ensures |lines| > 0
  {
    if s == "" then [""]
    else if s[0] == '\n' then [""] + SplitLines(s[1..])
    else if s[0] == '\r' && |s| > 1 && s[1] == '\n' then [""] + SplitLines(s[2..])
    else var rest := SplitLines(s[1..]); [[s[0]] + rest[0]] + rest[1..]
  }

  function LastNonEmpty(lines: seq<string>): string {
    if lines == [] then ""
    else if Trim(lines[|lines| - 1]) != "" then Trim(lines[|lines| - 1])
    else LastNonEmpty(lines[..|lines| - 1])
  }

  function MarkerOf(line: string): FinalMarker {
    if line == GOAL_COMPLETE then GoalComplete else if line == ITEM_DELIVERED then ItemDelivered else NoMarker
  }

  predicate ClaimsGoal(handback: string) {
    MarkerOf(LastNonEmpty(SplitLines(handback))) == GoalComplete
  }

  /** ralphFinalLineMarker: the backward search for the last line that is not blank. */
  method FinalLineMarker(handback: string) returns (marker: FinalMarker)
    ensures marker == MarkerOf(LastNonEmpty(SplitLines(handback)))
  {
    var lines := SplitLines(handback);
    var lastNonEmpty := "";
    var i := |lines|;
    assert lines[..i] == lines;
    while i > 0
      invariant 0 <= i <= |lines|
      invariant lastNonEmpty == ""
      invariant LastNonEmpty(lines[..i]) == LastNonEmpty(lines)
    {
      i := i - 1;
      assert lines[..i + 1][..i] == lines[..i];
      var trimmed := Trim(lines[i]);
      if trimmed != "" {
        return MarkerOf(trimmed);
      }
    }
    marker := MarkerOf(lastNonEmpty);
  }

  // ------------------------------------------------------------ what the marker means for the text

  /** The text ends in the marker on a line of its own, with nothing but white space around and after it. */
  ghost predicate EndsWithOwnLine(text: string, marker: string) {
    exists pre: string, left: string, right: string :: OwnLine(text, marker, pre, left, right)
  }

  ghost predicate OwnLine(text: string, marker: string, pre: string, left: string, right: string) {
    && text == pre + left + marker + right
    && (pre == "" || pre[|pre| - 1] == '\n')
    && Blank(left) && '\n' !in left
    && Blank(right)
  }

  lemma {:induction false} LastOfConcat(a: seq<string>, b: seq<string>)
    ensures LastNonEmpty(a + b) == if LastNonEmpty(b) != "" then LastNonEmpty(b) else LastNonEmpty(a)
    decreases |b|
  {
    if b == [] {
      assert a + b == a;
    } else {
      assert (a + b)[..|a + b| - 1] == a + b[..|b| - 1];
      LastOfConcat(a, b[..|b| - 1]);
    }
  }

  /** The same lines, except that the last may have lost a carriage return. */
  ghost predicate SameUpToReturn(front: seq<string>, lines: seq<string>) {
    && |front| == |lines| > 0
    && front[..|front| - 1] == lines[..|lines| - 1]
    && (lines[|lines| - 1] == front[|front| - 1] || lines[|lines| - 1] == front[|front| - 1] + "\r")
  }

  lemma {:induction false} SplitConcat(a: string, b: string) returns (front: seq<string>)
    ensures SplitLines(a + "\n" + b) == front + SplitLines(b) && SameUpToReturn(front, SplitLines(a))
    decreases |a|
  {
    var s := a + "\n" + b;
    var cut := LeadingBreak(a);
    if a == "" || a == "\r" {
      front := [""];
      ShortFront(a, b);
    } else if cut > 0 {
      assert s[cut..] == a[cut..] + "\n" + b;
      var f := SplitConcat(a[cut..], b);
      front := [""] + f;
      BreakFirst(s);
      BreakFirst(a);
      SameAfterBreak(f, SplitLines(a[cut..]));
    } else {
      assert s[1..] == a[1..] + "\n" + b;
      var f := SplitConcat(a[1..], b);
      front := [[a[0]] + f[0]] + f[1..];
      PlainChar(s);
      PlainChar(a);
      assert (f + SplitLines(b))[1..] == f[1..] + SplitLines(b);
      SameAfterChar(a[0], f, SplitLines(a[1..]));
    }
  }

  lemma ShortFront(a: string, b: string)
    requires a == "" || a == "\r"
    ensures SplitLines(a + "\n" + b) == [""] + SplitLines(b) && SameUpToReturn([""], SplitLines(a))
  {
    var s := a + "\n" + b;
    assert s[1 + |a|..] == b;
    BreakFirst(s);
    if a != "" {
      PlainChar(a);
      assert a[1..] == "";
    }
  }

  /** The length of the line break a string starts with. */
  function LeadingBreak(s: string): (n: nat)
    ensures n <= |s|
  {
    if s != "" && s[0] == '\n' then 1
    else if |s| > 1 && s[0] == '\r' && s[1] == '\n' then 2
    else 0
  }

  lemma BreakFirst(s: string)
    requires LeadingBreak(s) > 0
    ensures SplitLines(s) == [""] + SplitLines(s[LeadingBreak(s)..])
  {
  }

  lemma SameAfterBreak(front: seq<string>, lines: seq<string>)
    requires SameUpToReturn(front, lines)
    ensures SameUpToReturn([""] + front, [""] + lines)
  {
    assert ([""] + front)[..|front|] == [""] + front[..|front| - 1];
    assert ([""] + lines)[..|lines|] == [""] + lines[..|lines| - 1];
  }

  lemma PlainChar(s: string)
    requires s != "" && LeadingBreak(s) == 0
    ensures SplitLines(s) == [[s[0]] + SplitLines(s[1..])[0]] + SplitLines(s[1..])[1..]
  {
  }

  lemma SameAfterChar(c: char, front: seq<string>, lines: seq<string>)
    requires SameUpToReturn(front, lines)
    ensures SameUpToReturn([[c] + front[0]] + front[1..], [[c] + lines[0]] + lines[1..])
  {
    var f := [[c] + front[0]] + front[1..];
    var l := [[c] + lines[0]] + lines[1..];
    var n := |f| - 1;
    if n == 0 {
      assert [c] + (front[0] + "\r") == ([c] + front[0]) + "\r";
    } else {
      assert front[0] == front[..n][0] && lines[0] == lines[..n][0];
      assert f[..n] == [[c] + front[0]] + front[..n][1..];
      assert l[..n] == [[c] + lines[0]] + lines[..n][1..];
    }
  }

  /** Cut at a newline, the last non-empty line is in the tail unless the tail is blank. */
  lemma SplitAtNewline(a: string, b: string)
    ensures LastNonEmpty(SplitLines(a + "\n" + b)) ==
      if LastNonEmpty(SplitLines(b)) != "" then LastNonEmpty(SplitLines(b)) else LastNonEmpty(SplitLines(a))
  {
    var front := SplitConcat(a, b);
    LastOfConcat(front, SplitLines(b));
    TrimIgnoresEnd(front[|front| - 1], "\r");
  }

  lemma {:induction false} OneLine(s: string)
    requires '\n' !in s
    ensures SplitLines(s) == [s]
    decreases |s|
  {
    if s == "" {
    } else {
      assert s[0] in s && (|s| > 1 ==> s[1] in s);
      OneLine(s[1..]);
      PlainChar(s);
      assert [s[0]] + s[1..] == s;
    }
  }

  lemma OneLineLast(s: string)
    requires '\n' !in s
    ensures LastNonEmpty(SplitLines(s)) == Trim(s)
  {
    OneLine(s);
    assert LastNonEmpty([s][..0]) == "";
  }

  lemma {:induction false} LastNewline(s: string) returns (a: string, b: string)
    requires '\n' in s
    ensures s == a + "\n" + b && '\n' !in b
    decreases |s|
  {
    var n := |s| - 1;
    if s[n] == '\n' {
      a, b := s[..n], "";
    } else {
      var x, y := LastNewline(s[..n]);
      a, b := x, y + [s[n]];
    }
  }

  /** A text whose last non-empty line is the marker ends in the marker on a line of its own. */
  lemma {:induction false} LastLineIsOwnLine(text: string, marker: string)
    requires marker != "" && LastNonEmpty(SplitLines(text)) == marker
    ensures EndsWithOwnLine(text, marker)
    decreases |text|
  {
    hide SplitLines, LastNonEmpty, TrimStart, TrimEnd;
    if '\n' in text {
      var a, b := LastNewline(text);
      SplitAtNewline(a, b);
      OneLineLast(b);
      var l, r := TrimSplits(b);
      if Trim(b) != "" {
        assert OwnLine(text, marker, a + "\n", l, r);
      } else {
        LastLineIsOwnLine(a, marker);
        var pre, left, right :| OwnLine(a, marker, pre, left, right);
        TrimBlank(b);
        assert text == pre + left + marker + (right + "\n" + b);
        assert OwnLine(text, marker, pre, left, right + "\n" + b);
      }
    } else {
      OneLineLast(text);
      var l, r := TrimSplits(text);
      assert OwnLine(text, marker, "", l, r);
    }
  }

  lemma {:induction false} BlankTail(head: string, right: string)
    requires '\n' !in head && Blank(right)
    ensures LastNonEmpty(SplitLines(head + right)) == Trim(head)
    decreases |right|
  {
    if '\n' in right {
      var a, b := LastNewline(right);
      assert head + right == (head + a) + "\n" + b;
      SplitAtNewline(head + a, b);
      OneLineLast(b);
      assert Blank(a) by { assert a == right[..|a|]; }
      assert Blank(b) by { assert b == right[|a| + 1..]; }
      TrimBlank(b);
      BlankTail(head, a);
    } else {
      OneLineLast(head + right);
      TrimIgnoresEnd(head, right);
    }
  }

  /** A marker: no blank at its ends and no line break in it. */
  predicate IsMarker(marker: string) {
    marker != "" && '\n' !in marker && !IsSpace(marker[0]) && !IsSpace(marker[|marker| - 1])
  }

  lemma OwnLineIsLastLine(text: string, marker: string, pre: string, left: string, right: string)
    requires IsMarker(marker) && OwnLine(text, marker, pre, left, right)
    ensures LastNonEmpty(SplitLines(text)) == marker
  {
    hide SplitLines, LastNonEmpty, Trim;
    var line := left + marker;
    assert left + marker + "" == line;
    TrimCore(left, marker, "");
    BlankTail(line, right);
    if pre == "" {
      assert text == line + right;
    } else {
      assert text == pre[..|pre| - 1] + "\n" + (line + right);
      SplitAtNewline(pre[..|pre| - 1], line + right);
    }
  }

  lemma LastLineIffOwnLine(text: string, marker: string)
    requires IsMarker(marker)
    ensures LastNonEmpty(SplitLines(text)) == marker <==> EndsWithOwnLine(text, marker)
  {
    if LastNonEmpty(SplitLines(text)) == marker {
      LastLineIsOwnLine(text, marker);
    } else if EndsWithOwnLine(text, marker) {
      var pre, left, right :| OwnLine(text, marker, pre, left, right);
      OwnLineIsLastLine(text, marker, pre, left, right);
    }
  }

  /** Which marker a handback bears, read off the text: the one it ends in, on a line of its own, if any. */
  lemma MarkerIffOwnLine(handback: string)
    ensures var marker := MarkerOf(LastNonEmpty(SplitLines(handback)));
      && (marker == GoalComplete <==> EndsWithOwnLine(handback, "[[RALPH:GOAL-COMPLETE]]"))
      && (marker == ItemDelivered <==> EndsWithOwnLine(handback, "[[RALPH:ITEM-DELIVERED]]"))
  {
    hide SplitLines, LastNonEmpty, EndsWithOwnLine;
    LastLineIffOwnLine(handback, GOAL_COMPLETE);
    LastLineIffOwnLine(handback, ITEM_DELIVERED);
    assert GOAL_COMPLETE[8] != ITEM_DELIVERED[8];
  }

  /** The completion claim: the handback ends in the goal marker on a line of its own. */
  lemma ClaimsGoalIffOwnLine(handback: string)
    ensures ClaimsGoal(handback) <==> EndsWithOwnLine(handback, GOAL_COMPLETE)
  {
    hide SplitLines, LastNonEmpty, EndsWithOwnLine;
    LastLineIffOwnLine(handback, GOAL_COMPLETE);
  }
}
