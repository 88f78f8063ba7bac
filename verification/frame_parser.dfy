/** The chunked parser for framed broker replies (interactive-broker-protocol.ts). */
module FrameParser {
  import opened JsText
  import opened Wrappers

  const BEGIN_PREFIX := "AI_WHISPER_REPLY_BEGIN:"
  const END_PREFIX := "AI_WHISPER_REPLY_END:"
  const ESC := '\U{001B}'
  const BEL := '\U{0007}'

  datatype FrameState = FrameState(insideFrame: bool, buffer: string, textBuffer: string)

  const START := FrameState(false, "", "")

  // ------------------------------------------------------------ terminal escapes

  /** The end of the run of characters between lo and hi that begins at index i. */
  function Span(s: string, i: nat, lo: char, hi: char): (k: nat)
    requires i <= |s|
    ensures i <= k <= |s|
    decreases |s| - i
  {
    if i < |s| && lo <= s[i] <= hi then Span(s, i + 1, lo, hi) else i
  }

  function OscEnd(s: string, i: nat): (k: nat)
    requires i <= |s|
    ensures i <= k <= |s|
    decreases |s| - i
  {
    if i < |s| && s[i] != BEL && s[i] != ESC then OscEnd(s, i + 1) else i
  }

  /** The length of the operating-system command that s starts with; 0 when it starts with none. */
  function OscLength(s: string): (n: nat)
    ensures n <= |s| && (n > 0 ==> s[0] == ESC)
  {
    if |s| < 2 || s[0] != ESC || s[1] != ']' then 0
    else
      var k := OscEnd(s, 2);
      if k < |s| && s[k] == BEL then k + 1
      else if k + 1 < |s| && s[k] == ESC && s[k + 1] == '\\' then k + 2
      else 0
  }

  /** The length of the control sequence that s starts with; 0 when it starts with none. */
  function CsiLength(s: string): (n: nat)
    ensures n <= |s| && (n > 0 ==> s[0] == ESC)
  {
    if |s| < 2 || s[0] != ESC || s[1] != '[' then 0
    else
      var k := Span(s, Span(s, 2, '0', '?'), ' ', '/');
      if k < |s| && '@' <= s[k] <= '~' then k + 1 else 0
  }

  function StripOsc(s: string): string {
    if s == "" then ""
    else if OscLength(s) > 0 then StripOsc(s[OscLength(s)..])
    else [s[0]] + StripOsc(s[1..])
  }

  function StripCsi(s: string): string {
    if s == "" then ""
    else if CsiLength(s) > 0 then StripCsi(s[CsiLength(s)..])
    else [s[0]] + StripCsi(s[1..])
  }

  function DropReturns(s: string): string {
    if s == "" then "" else (if s[0] == '\r' then "" else [s[0]]) + DropReturns(s[1..])
  }

  function StripAnsi(s: string): string {
    DropReturns(StripCsi(StripOsc(s)))
  }

  lemma {:induction false} NothingToStrip(s: string)
    requires ESC !in s
    ensures StripOsc(s) == s && StripCsi(s) == s
  {
    if s == "" {
    } else {
      assert s[0] in s;
      NothingToStrip(s[1..]);
    }
  }

  lemma {:induction false} DropReturnsConcat(a: string, b: string)
    ensures DropReturns(a + b) == DropReturns(a) + DropReturns(b)
  {
    if a == "" {
      assert a + b == b;
    } else {
      assert (a + b)[1..] == a[1..] + b;
      DropReturnsConcat(a[1..], b);
    }
  }

  lemma StripConcat(a: string, b: string)
    requires ESC !in a && ESC !in b
    ensures StripAnsi(a + b) == StripAnsi(a) + StripAnsi(b)
  {
    NothingToStrip(a);
    NothingToStrip(b);
    NothingToStrip(a + b);
    DropReturnsConcat(a, b);
  }

  // ------------------------------------------------------------ one append

  predicate StartsWith(s: string, prefix: string) {
    prefix <= s
  }

  predicate IsMarkerLine(line: string, prefix: string) {
    var trimmed := Trim(line);
    && StartsWith(trimmed, prefix)
    && |trimmed| > |prefix|
    && forall i | |prefix| <= i < |trimmed| :: !IsSpace(trimmed[i])
  }

  /** The parser between two lines, with the frame completed so far in this call. */
  datatype Fed = Fed(insideFrame: bool, buffer: string, completed: Option<string>)

  function FeedLine(f: Fed, line: string): Fed {
    if !f.insideFrame then
      if IsMarkerLine(line, BEGIN_PREFIX) then f.(insideFrame := true, buffer := "") else f
    else if IsMarkerLine(line, END_PREFIX) then Fed(false, "", Some(Trim(f.buffer)))
    else f.(buffer := f.buffer + line + "\n")
  }

  function Feed(f: Fed, lines: seq<string>): Fed
    decreases lines
  {
    if lines == [] then f else Feed(FeedLine(f, lines[0]), lines[1..])
  }

  /** What one call does with the text it has, cut into lines: the last line is still open. */
  function Consume(insideFrame: bool, buffer: string, lines: seq<string>): (FrameState, Option<string>)
    requires lines != []
  {
    var trailing := lines[|lines| - 1];
    var fed := Feed(Fed(insideFrame, buffer, None), lines[..|lines| - 1]);
    if fed.insideFrame && IsMarkerLine(trailing, END_PREFIX) then (START, Some(Trim(fed.buffer)))
    else (FrameState(fed.insideFrame, fed.buffer, trailing), fed.completed)
  }

  function Append(state: FrameState, chunk: string): (FrameState, Option<string>) {
    Consume(state.insideFrame, state.buffer, Split(state.textBuffer + StripAnsi(chunk)))
  }

  /** appendInteractiveBrokerChunk. */
  method AppendChunk(state: FrameState, chunk: string) returns (after: FrameState, completed: Option<string>)
    ensures (after, completed) == Append(state, chunk)
  {
    var insideFrame, buffer := state.insideFrame, state.buffer;
    completed := None;
    var split := Split(state.textBuffer + StripAnsi(chunk));
    var lines, trailingLine := split[..|split| - 1], split[|split| - 1];
    var i := 0;
    while i < |lines|
      invariant i <= |lines|
      invariant Feed(Fed(insideFrame, buffer, completed), lines[i..]) == Feed(Fed(state.insideFrame, state.buffer, None), lines)
    {
      var line := lines[i];
      assert lines[i..][1..] == lines[i + 1..];
      i := i + 1;
      if !insideFrame {
        if IsMarkerLine(line, BEGIN_PREFIX) {
          insideFrame, buffer := true, "";
        }
        continue;
      }
      if IsMarkerLine(line, END_PREFIX) {
        completed := Some(Trim(buffer));
        insideFrame, buffer := false, "";
        continue;
      }
      buffer := buffer + line + "\n";
    }
    var textBuffer := trailingLine;
    if insideFrame && IsMarkerLine(trailingLine, END_PREFIX) {
      completed := Some(Trim(buffer));
      insideFrame, buffer, textBuffer := false, "", "";
    }
    after := FrameState(insideFrame, buffer, textBuffer);
  }

  // ------------------------------------------------------------ the frames of a text

  /** A reader of whole lines: whether it is in a frame, what that frame holds so far, and every frame completed. */
  datatype Scan = Scan(insideFrame: bool, buffer: string, bodies: seq<string>)

  const OUTSIDE := Scan(false, "", [])

  function ScanLine(s: Scan, line: string): Scan {
    if !s.insideFrame then
      if IsMarkerLine(line, BEGIN_PREFIX) then s.(insideFrame := true, buffer := "") else s
    else if IsMarkerLine(line, END_PREFIX) then Scan(false, "", s.bodies + [Trim(s.buffer)])
    else s.(buffer := s.buffer + line + "\n")
  }

  function ScanLines(s: Scan, lines: seq<string>): Scan
    decreases lines
  {
    if lines == [] then s else ScanLines(ScanLine(s, lines[0]), lines[1..])
  }

  /** The trimmed bodies of the frames in a text, its last line counting as a line. */
  function Bodies(text: string): seq<string> {
    ScanLines(OUTSIDE, Split(text)).bodies
  }

  predicate IsIdChar(c: char) {
    'a' <= c <= 'z' || '0' <= c <= '9' || c == '_'
  }

  /** /^work_[a-z0-9_]+$/. */
  predicate IsWorkItemId(id: string) {
    StartsWith(id, "work_") && |id| > 5 && forall c | c in id :: IsIdChar(c)
  }

  ghost predicate EndsFrame(end: string) {
    exists id :: IsWorkItemId(id) && Trim(end) == END_PREFIX + id
  }

  /** What follows the prefix of an END line is part of a work item id. */
  ghost predicate CleanEnd(line: string) {
    StartsWith(Trim(line), END_PREFIX) ==> forall i | |END_PREFIX| <= i < |Trim(line)| :: IsIdChar(Trim(line)[i])
  }

  /** Inside a frame, only END lines with a work item id, or a part of one, start with the END prefix. */
  ghost predicate WellEnded(s: Scan, lines: seq<string>)
    decreases lines
  {
    lines == [] || ((s.insideFrame ==> CleanEnd(lines[0])) && WellEnded(ScanLine(s, lines[0]), lines[1..]))
  }

  ghost predicate WellEndedText(text: string) {
    WellEnded(OUTSIDE, Split(text))
  }

  lemma {:induction false} ScanConcat(s: Scan, a: seq<string>, b: seq<string>)
    ensures ScanLines(s, a + b) == ScanLines(ScanLines(s, a), b)
    ensures WellEnded(s, a + b) <==> WellEnded(s, a) && WellEnded(ScanLines(s, a), b)
    decreases a
  {
    hide IsMarkerLine, CleanEnd;
    if a == [] {
      assert a + b == b;
    } else {
      assert (a + b)[1..] == a[1..] + b;
      ScanConcat(ScanLine(s, a[0]), a[1..], b);
    }
  }

  lemma {:induction false} ScanGrows(s: Scan, lines: seq<string>)
    ensures s.bodies <= ScanLines(s, lines).bodies
    decreases lines
  {
    hide IsMarkerLine;
    if lines == [] {
    } else {
      ScanGrows(ScanLine(s, lines[0]), lines[1..]);
    }
  }

  lemma ScanOne(s: Scan, line: string)
    ensures ScanLines(s, [line]) == ScanLine(s, line)
    ensures WellEnded(s, [line]) <==> (s.insideFrame ==> CleanEnd(line))
  {
    hide IsMarkerLine, CleanEnd;
    assert [line][1..] == [];
  }

  // ------------------------------------------------------------ markers and partial lines

  /** A trimmed prefix of a line is, up to trailing blanks, a prefix of the trimmed line. */
  lemma PartialMarker(partial: string, rest: string, prefix: string) returns (left: string)
    requires prefix != "" && !IsSpace(prefix[0]) && !IsSpace(prefix[|prefix| - 1]) && StartsWith(Trim(partial), prefix)
    ensures Blank(left) && left + prefix <= partial
    ensures StartsWith(Trim(partial + rest), prefix)
  {
    var l, r := TrimSplits(partial);
    left := l;
    var tail := partial[|left + prefix|..] + rest;
    assert partial + rest == left + (prefix + tail);
    TrimStartBlank(left, prefix + tail);
    TrimEndKeeps(prefix, tail);
  }

  lemma {:induction false} TrimEndKeeps(prefix: string, tail: string)
    requires prefix != "" && !IsSpace(prefix[|prefix| - 1])
    ensures StartsWith(TrimEnd(prefix + tail), prefix)
    decreases |tail|
  {
    var s := prefix + tail;
    if tail == "" {
      assert s == prefix;
    } else if IsSpace(s[|s| - 1]) {
      assert s[..|s| - 1] == prefix + tail[..|tail| - 1];
      TrimEndKeeps(prefix, tail[..|tail| - 1]);
    }
  }

  /** A part of a clean END line that is a marker stays one as the line grows. */
  lemma MarkerGrows(marker: string, rest: string)
    requires IsMarkerLine(marker, END_PREFIX) && CleanEnd(marker + rest)
    ensures IsMarkerLine(marker + rest, END_PREFIX)
  {
    var l, r := TrimSplits(marker);
    var left := PartialMarker(marker, rest, Trim(marker));
    var whole := Trim(marker + rest);
    assert Trim(marker) <= whole;
    assert StartsWith(whole, END_PREFIX);
  }

  lemma PartIsClean(part: string, rest: string)
    requires CleanEnd(part + rest)
    ensures CleanEnd(part)
  {
    if StartsWith(Trim(part), END_PREFIX) {
      var l, r := TrimSplits(part);
      var left := PartialMarker(part, rest, Trim(part));
      var whole := Trim(part + rest);
      assert Trim(part) <= whole && StartsWith(whole, END_PREFIX);
      forall i | |END_PREFIX| <= i < |Trim(part)| ensures IsIdChar(Trim(part)[i]) { assert Trim(part)[i] == whole[i]; }
    }
  }

  lemma AfterMarker(end: string, marker: string, rest: string)
    requires end == marker + rest && CleanEnd(end) && IsMarkerLine(marker, END_PREFIX)
    ensures 'A' !in rest
  {
    var l := PartialMarker(marker, rest, END_PREFIX);
    var left, right := TrimSplits(end);
    var trimmed := Trim(end);
    assert end == left + (trimmed + right);
    assert end == l + (marker[|l|..] + rest);
    SameIndent(left, trimmed + right, l, marker[|l|..] + rest);
    forall i | 0 <= i < |rest|
      ensures rest[i] != 'A'
    {
      var at := |marker| + i - |left|;
      assert rest[i] == end[|marker| + i] == (trimmed + right)[at];
      assert at >= |END_PREFIX|;
    }
  }

  lemma BeginHasCapital(line: string)
    ensures IsMarkerLine(line, BEGIN_PREFIX) ==> 'A' in line
  {
    if IsMarkerLine(line, BEGIN_PREFIX) {
      var left := PartialMarker(line, "", BEGIN_PREFIX);
      assert line[|left|] == BEGIN_PREFIX[0] == 'A';
    }
  }

  /** What is left of an END line once a part of it has closed the frame can never open another. */
  lemma RestIsNoBegin(marker: string, rest: string)
    requires CleanEnd(marker + rest) && IsMarkerLine(marker, END_PREFIX)
    ensures !IsMarkerLine(rest, BEGIN_PREFIX)
  {
    AfterMarker(marker + rest, marker, rest);
    BeginHasCapital(rest);
  }

  lemma SameIndent(a: string, x: string, b: string, y: string)
    requires a + x == b + y && Blank(a) && Blank(b) && x != "" && y != "" && !IsSpace(x[0]) && !IsSpace(y[0])
    ensures a == b
  {
    TrimStartBlank(a, x);
    TrimStartBlank(b, y);
    assert a == (a + x)[..|a|] && b == (b + y)[..|b|];
  }

  // ------------------------------------------------------------ one call keeps pace

  /** The frame was closed by a part of its END line: the rest of that line is read as text outside any frame. */
  ghost predicate ClosedEarly(partial: string, state: FrameState) {
    && !state.insideFrame && state.buffer == ""
    && exists marker: string :: IsMarkerLine(marker, END_PREFIX) && partial == marker + state.textBuffer
  }

  /** The parser's state when the complete lines so far lead to s and `open` is the line still open. */
  ghost predicate At(s: Scan, open: string, state: FrameState) {
    if s.insideFrame && IsMarkerLine(open, END_PREFIX) then ClosedEarly(open, state)
    else state == FrameState(s.insideFrame, s.buffer, open)
  }

  /** The last of the frames in `after` that are not in `before`. */
  function Newest(before: seq<string>, after: seq<string>): Option<string> {
    if |after| <= |before| then None else Some(after[|after| - 1])
  }

  /** One call feeds its lines as the reader scans them, but remembers only the last frame. */
  lemma {:induction false} FeedScans(s: Scan, lines: seq<string>, completed: Option<string>)
    ensures var after := ScanLines(s, lines);
      Feed(Fed(s.insideFrame, s.buffer, completed), lines)
      == Fed(after.insideFrame, after.buffer, if after.bodies == s.bodies then completed else Newest(s.bodies, after.bodies))
    decreases lines
  {
    hide IsMarkerLine, Trim;
    if lines == [] {
    } else {
      var next := ScanLine(s, lines[0]);
      FeedScans(next, lines[1..], if next.bodies == s.bodies then completed else Newest(s.bodies, next.bodies));
      ScanGrows(next, lines[1..]);
    }
  }

  ghost predicate Kept(s: Scan, before: seq<string>, lines: seq<string>, result: (FrameState, Option<string>))
    requires lines != []
  {
    && At(ScanLines(s, lines[..|lines| - 1]), lines[|lines| - 1], result.0)
    && result.1 == Newest(before, ScanLines(s, lines).bodies)
  }

  lemma ConsumeOpen(s: Scan, lines: seq<string>)
    requires lines != []
    ensures Kept(s, s.bodies, lines, Consume(s.insideFrame, s.buffer, lines))
  {
    hide IsMarkerLine, Trim, Feed;
    var n := |lines| - 1;
    var before := ScanLines(s, lines[..n]);
    FeedScans(s, lines[..n], None);
    ScanGrows(s, lines[..n]);
    assert lines == lines[..n] + [lines[n]];
    ScanConcat(s, lines[..n], [lines[n]]);
    ScanOne(before, lines[n]);
    if before.insideFrame && IsMarkerLine(lines[n], END_PREFIX) {
      assert lines[n] == lines[n] + "";
    }
  }

  /** The lines from a partial line on, when the parser holds only the end of that partial line. */
  function Whole(marker: string, own: seq<string>): (lines: seq<string>)
    requires own != []
    ensures |lines| == |own|
  {
    [marker + own[0]] + own[1..]
  }

  lemma ConsumeClosed(s: Scan, marker: string, textBuffer: string, own: seq<string>)
    requires own != [] && s.insideFrame && IsMarkerLine(marker, END_PREFIX) && IsMarkerLine(marker + textBuffer, END_PREFIX)
    requires WellEnded(s, Whole(marker, own))
    ensures Kept(s, ScanLine(s, marker + textBuffer).bodies, Whole(marker, own), Consume(false, "", own))
  {
    hide IsMarkerLine, Trim, CleanEnd;
    var lines := Whole(marker, own);
    var n := |own| - 1;
    assert CleanEnd(marker + own[0]);
    MarkerGrows(marker, own[0]);
    RestIsNoBegin(marker, own[0]);
    var closed := Scan(false, "", s.bodies + [Trim(s.buffer)]);
    assert ScanLine(s, lines[0]) == closed == ScanLine(s, marker + textBuffer);
    if n == 0 {
      assert lines[..0] == [] && own[..0] == [] && lines == [lines[0]];
      ScanOne(s, lines[0]);
      assert Consume(false, "", own) == (FrameState(false, "", own[0]), None);
      assert ClosedEarly(lines[0], FrameState(false, "", own[0]));
    } else {
      ConsumeOpen(closed, own);
      assert own == [own[0]] + own[1..] && lines == [lines[0]] + own[1..];
      assert own[..n] == [own[0]] + own[1..n] && lines[..n] == [lines[0]] + own[1..n];
      SameAfterFirst(s, lines[0], closed, own[0], own[1..]);
      SameAfterFirst(s, lines[0], closed, own[0], own[1..n]);
    }
  }

  lemma SameAfterFirst(s: Scan, x: string, t: Scan, y: string, rest: seq<string>)
    requires ScanLine(s, x) == ScanLine(t, y)
    ensures ScanLines(s, [x] + rest) == ScanLines(t, [y] + rest)
  {
    assert ([x] + rest)[1..] == rest == ([y] + rest)[1..];
  }

  lemma NotInFront(s: string, n: nat, c: char)
    requires c !in s && n <= |s|
    ensures c !in s[..n]
  {
    forall i | 0 <= i < n
      ensures s[..n][i] != c
    {
      assert s[..n][i] == s[i];
    }
  }

  lemma Regroup(a: string, b: string, c: string)
    ensures a + b + c == a + (b + c)
  {
  }

  lemma SplitAfterPart(marker: string, rest: string)
    requires '\n' !in marker
    ensures Split(marker + rest) == Whole(marker, Split(rest))
  {
    SplitOneLine(marker);
    SplitAppend(marker, rest);
    GlueOne(marker, Split(rest));
  }

  lemma InFront(a: string, b: string, c: char)
    requires c !in a + b
    ensures c !in a
  {
    assert (a + b)[..|a|] == a;
    NotInFront(a + b, |a|, c);
  }

  /** One call, seen from the open line on: it keeps pace with the reader and returns the newest frame. */
  lemma CallStep(s: Scan, open: string, state: FrameState, text: string)
    requires At(s, open, state) && '\n' !in open && WellEnded(s, Split(open + text))
    ensures Kept(s, ScanLine(s, open).bodies, Split(open + text), Consume(state.insideFrame, state.buffer, Split(state.textBuffer + text)))
  {
    hide Split, IsMarkerLine, Trim, Consume, Kept, WellEnded;
    if s.insideFrame && IsMarkerLine(open, END_PREFIX) {
      var marker: string :| IsMarkerLine(marker, END_PREFIX) && open == marker + state.textBuffer;
      InFront(marker, state.textBuffer, '\n');
      Regroup(marker, state.textBuffer, text);
      SplitAfterPart(marker, state.textBuffer + text);
      ConsumeClosed(s, marker, state.textBuffer, Split(state.textBuffer + text));
    } else {
      ConsumeOpen(s, Split(open + text));
    }
  }

  /** The complete lines of a text, and its open line. */
  function Complete(text: string): seq<string> {
    Split(text)[..|Split(text)| - 1]
  }

  function Open(text: string): string {
    Split(text)[|Split(text)| - 1]
  }

  ghost predicate InPace(text: string, state: FrameState) {
    At(ScanLines(OUTSIDE, Complete(text)), Open(text), state)
  }

  lemma SplitStep(text: string, more: string)
    ensures Split(text + more) == Complete(text) + Split(Open(text) + more)
    ensures '\n' !in Open(text)
  {
    hide *;
    var lines := Split(text);
    var n := |lines| - 1;
    SplitParts(text);
    SplitHasNoBreaks(text, n);
    SplitAppend(text, more);
    SplitAppend(lines[n], more);
    SplitOneLine(lines[n]);
    GlueFront(lines, Split(more));
  }

  lemma GlueFront(x: seq<string>, y: seq<string>)
    requires x != [] && y != []
    ensures Glue(x, y) == x[..|x| - 1] + Glue([x[|x| - 1]], y)
  {
    var n := |x| - 1;
    assert [x[n]][..0] == [];
  }

  lemma SplitParts(text: string)
    ensures Complete(text) == Split(text)[..|Split(text)| - 1] && Open(text) == Split(text)[|Split(text)| - 1]
    ensures Split(text) == Complete(text) + [Open(text)]
  {
  }

  lemma BodiesAre(text: string)
    ensures Bodies(text) == ScanLine(ScanLines(OUTSIDE, Complete(text)), Open(text)).bodies
  {
    hide Split, ScanLine;
    SplitParts(text);
    ScanConcat(OUTSIDE, Complete(text), [Open(text)]);
    ScanOne(ScanLines(OUTSIDE, Complete(text)), Open(text));
  }

  /** One call returns the newest frame that its chunk completes, and nothing if it completes none. */
  lemma CallReturnsNewest(text: string, state: FrameState, chunk: string)
    requires InPace(text, state) && WellEndedText(text + StripAnsi(chunk))
    ensures var (after, completed) := Append(state, chunk);
      && InPace(text + StripAnsi(chunk), after)
      && completed == Newest(Bodies(text), Bodies(text + StripAnsi(chunk)))
  {
    hide StripAnsi, Split, IsMarkerLine, Trim, At, Consume, ScanLine, WellEnded, Complete, Open, Newest;
    var more := StripAnsi(chunk);
    var s := ScanLines(OUTSIDE, Complete(text));
    var lines := Split(Open(text) + more);
    SplitStep(text, more);
    ScanConcat(OUTSIDE, Complete(text), lines);
    CallStep(s, Open(text), state, more);
    BodiesAre(text);
    SplitParts(text + more);
    FrontOfSum(Complete(text), lines);
    ScanConcat(OUTSIDE, Complete(text), lines[..|lines| - 1]);
  }

  lemma FrontOfSum(a: seq<string>, b: seq<string>)
    requires b != []
    ensures (a + b)[..|a + b| - 1] == a + b[..|b| - 1] && (a + b)[|a + b| - 1] == b[|b| - 1]
  {
  }

  lemma BodiesGrow(text: string, more: string)
    requires WellEndedText(text + more)
    ensures WellEndedText(text) && Bodies(text) <= Bodies(text + more)
  {
    hide Split, IsMarkerLine, Trim, ScanLine, WellEnded, Complete, Open, CleanEnd;
    var s, open := ScanLines(OUTSIDE, Complete(text)), Open(text);
    SplitStep(text, more);
    SplitParts(text);
    ScanConcat(OUTSIDE, Complete(text), Split(open + more));
    ScanConcat(OUTSIDE, Complete(text), [open]);
    ScanOne(s, open);
    FirstOfRest(s, open, more);
    BodiesAre(text);
  }

  lemma FirstOfRest(s: Scan, open: string, more: string)
    requires '\n' !in open && WellEnded(s, Split(open + more))
    ensures s.insideFrame ==> CleanEnd(open)
    ensures ScanLine(s, open).bodies <= ScanLines(s, Split(open + more)).bodies
  {
    hide Split, IsMarkerLine, Trim, CleanEnd;
    var rest := Split(more);
    SplitAfterPart(open, more);
    var lines := Split(open + more);
    ScanGrows(ScanLine(s, lines[0]), lines[1..]);
    if s.insideFrame {
      PartIsClean(open, rest[0]);
      if IsMarkerLine(open, END_PREFIX) { MarkerGrows(open, rest[0]); }
    }
  }

  // ------------------------------------------------------------ a stream, cut anyhow

  function Concat(chunks: seq<string>): string {
    if chunks == [] then "" else chunks[0] + Concat(chunks[1..])
  }

  ghost predicate EscFree(chunks: seq<string>) {
    chunks == [] || (ESC !in chunks[0] && EscFree(chunks[1..]))
  }

  /** What the successive calls return. */
  function Calls(state: FrameState, chunks: seq<string>): (replies: seq<Option<string>>)
    ensures |replies| == |chunks|
    decreases chunks
  {
    if chunks == [] then []
    else
      var (after, completed) := Append(state, chunks[0]);
      [completed] + Calls(after, chunks[1..])
  }

  function Given(replies: seq<Option<string>>): seq<string> {
    if replies == [] then [] else (if replies[0].Some? then [replies[0].value] else []) + Given(replies[1..])
  }

  /** The frames that the calls return, in order. */
  function Frames(state: FrameState, chunks: seq<string>): seq<string> {
    Given(Calls(state, chunks))
  }

  /** The text of the stream up to the end of chunk i - 1. */
  function Upto(chunks: seq<string>, i: nat): string
    requires i <= |chunks|
  {
    StripAnsi(Concat(chunks[..i]))
  }

  lemma EmptyStrip()
    ensures StripAnsi("") == ""
  {
  }

  lemma {:induction false} EscFreeConcat(chunks: seq<string>)
    requires EscFree(chunks)
    ensures ESC !in Concat(chunks)
  {
    if chunks == [] {
    } else {
      EscFreeConcat(chunks[1..]);
    }
  }

  lemma {:induction false} ConcatAdds(a: seq<string>, b: seq<string>)
    ensures Concat(a + b) == Concat(a) + Concat(b)
    ensures EscFree(a + b) <==> EscFree(a) && EscFree(b)
  {
    if a == [] {
      assert a + b == b;
    } else {
      assert (a + b)[1..] == a[1..] + b;
      ConcatAdds(a[1..], b);
      assert a[0] + (Concat(a[1..]) + Concat(b)) == a[0] + Concat(a[1..]) + Concat(b);
    }
  }

  lemma UptoGrows(chunks: seq<string>, i: nat, j: nat)
    requires EscFree(chunks) && i <= j <= |chunks|
    ensures Upto(chunks, j) == Upto(chunks, i) + StripAnsi(Concat(chunks[i..j]))
  {
    hide StripAnsi;
    assert chunks == chunks[..j] + chunks[j..] && chunks[..j] == chunks[..i] + chunks[i..j];
    ConcatAdds(chunks[..j], chunks[j..]);
    ConcatAdds(chunks[..i], chunks[i..j]);
    EscFreeConcat(chunks[..i]);
    EscFreeConcat(chunks[i..j]);
    StripConcat(Concat(chunks[..i]), Concat(chunks[i..j]));
  }

  lemma UptoNext(chunks: seq<string>, i: nat)
    requires EscFree(chunks) && i < |chunks|
    ensures Upto(chunks, i + 1) == Upto(chunks, i) + StripAnsi(chunks[i])
  {
    UptoGrows(chunks, i, i + 1);
    assert chunks[i..i + 1] == [chunks[i]];
    assert Concat([chunks[i]]) == chunks[i] + "" == chunks[i];
  }

  /** The stream as a whole and the part of it up to any chunk are well ended together. */
  lemma UptoWellEnded(chunks: seq<string>, i: nat)
    requires EscFree(chunks) && i <= |chunks| && WellEndedText(StripAnsi(Concat(chunks)))
    ensures WellEndedText(Upto(chunks, i))
  {
    hide StripAnsi, WellEndedText;
    UptoGrows(chunks, i, |chunks|);
    assert chunks[..|chunks|] == chunks;
    BodiesGrow(Upto(chunks, i), StripAnsi(Concat(chunks[i..])));
  }

  /** The parser after the first i chunks. */
  function StateAt(state: FrameState, chunks: seq<string>, i: nat): FrameState
    requires i <= |chunks|
    decreases i
  {
    if i == 0 then state else Append(StateAt(state, chunks, i - 1), chunks[i - 1]).0
  }

  lemma {:induction false} CallsAt(state: FrameState, chunks: seq<string>, i: nat)
    requires i < |chunks|
    ensures Calls(state, chunks)[i] == Append(StateAt(state, chunks, i), chunks[i]).1
    decreases chunks
  {
    hide Append;
    if i == 0 {
    } else {
      StateLater(state, chunks, i);
      CallsAt(Append(state, chunks[0]).0, chunks[1..], i - 1);
    }
  }

  lemma {:induction false} StateLater(state: FrameState, chunks: seq<string>, i: nat)
    requires 0 < i <= |chunks|
    ensures StateAt(state, chunks, i) == StateAt(Append(state, chunks[0]).0, chunks[1..], i - 1)
    decreases i
  {
    hide Append;
    if i == 1 {
    } else {
      StateLater(state, chunks, i - 1);
    }
  }

  lemma {:induction false} StaysInPace(chunks: seq<string>, i: nat)
    requires EscFree(chunks) && i <= |chunks| && WellEndedText(StripAnsi(Concat(chunks)))
    ensures InPace(Upto(chunks, i), StateAt(START, chunks, i))
    decreases i
  {
    hide StripAnsi, WellEndedText, InPace, Append;
    if i == 0 {
      assert chunks[..0] == [];
      StartInPace();
    } else {
      StaysInPace(chunks, i - 1);
      UptoWellEnded(chunks, i);
      UptoNext(chunks, i - 1);
      CallReturnsNewest(Upto(chunks, i - 1), StateAt(START, chunks, i - 1), chunks[i - 1]);
    }
  }

  lemma StartInPace()
    ensures InPace(StripAnsi(""), START)
  {
    EmptyStrip();
    assert Split("") == [""];
    assert Complete("") == [] && Open("") == "";
  }

  /**
   * However a stream is cut, call i returns the last of the frames that its chunk completes, and nothing when it
   * completes none. That holds although a part of an END line may close a frame before the line is complete.
   */
  lemma EachCallReturnsNewest(chunks: seq<string>, i: nat)
    requires EscFree(chunks) && i < |chunks| && WellEndedText(StripAnsi(Concat(chunks)))
    ensures Bodies(Upto(chunks, i)) <= Bodies(Upto(chunks, i + 1))
    ensures Calls(START, chunks)[i] == Newest(Bodies(Upto(chunks, i)), Bodies(Upto(chunks, i + 1)))
  {
    hide StripAnsi, WellEndedText, InPace, Append, Bodies, Newest;
    UptoWellEnded(chunks, i + 1);
    UptoNext(chunks, i);
    BodiesGrow(Upto(chunks, i), StripAnsi(chunks[i]));
    StaysInPace(chunks, i);
    CallsAt(START, chunks, i);
    CallReturnsNewest(Upto(chunks, i), StateAt(START, chunks, i), chunks[i]);
  }

  ghost predicate OneEach(chunks: seq<string>, n: nat)
    requires n <= |chunks|
  {
    forall i | 0 <= i < n :: |Bodies(Upto(chunks, i + 1))| <= |Bodies(Upto(chunks, i))| + 1
  }

  lemma {:induction false} GivenAdds(a: seq<Option<string>>, b: seq<Option<string>>)
    ensures Given(a + b) == Given(a) + Given(b)
  {
    if a == [] {
      assert a + b == b;
    } else {
      assert (a + b)[1..] == a[1..] + b;
      GivenAdds(a[1..], b);
    }
  }

  lemma {:induction false} GivenUpto(chunks: seq<string>, n: nat)
    requires EscFree(chunks) && n <= |chunks| && WellEndedText(StripAnsi(Concat(chunks)))
    ensures var given, bodies := Given(Calls(START, chunks)[..n]), Bodies(Upto(chunks, n));
      |given| <= |bodies| && (OneEach(chunks, n) ==> given == bodies) && (|given| == |bodies| ==> OneEach(chunks, n))
    decreases n
  {
    hide StripAnsi, WellEndedText, Bodies, Append, Upto;
    var calls := Calls(START, chunks);
    if n == 0 {
      assert calls[..0] == [];
      StartIsEmpty(chunks);
    } else {
      var before, after := Bodies(Upto(chunks, n - 1)), Bodies(Upto(chunks, n));
      GivenUpto(chunks, n - 1);
      EachCallReturnsNewest(chunks, n - 1);
      assert calls[..n] == calls[..n - 1] + [calls[n - 1]];
      GivenAdds(calls[..n - 1], [calls[n - 1]]);
      assert Given([calls[n - 1]]) == if calls[n - 1].Some? then [calls[n - 1].value] else [];
      assert |after| == |before| ==> after == before;
      assert |after| == |before| + 1 ==> after == before + [after[|after| - 1]];
      assert OneEach(chunks, n) <==> OneEach(chunks, n - 1) && |after| <= |before| + 1;
    }
  }

  lemma StartIsEmpty(chunks: seq<string>)
    ensures Bodies(Upto(chunks, 0)) == []
  {
    assert chunks[..0] == [];
    EmptyStrip();
    assert Split("") == [""];
    ScanOne(OUTSIDE, "");
  }

  /** The calls together return all frames of the stream exactly when no chunk completes two of them. */
  lemma AllFramesIff(chunks: seq<string>)
    requires EscFree(chunks) && WellEndedText(StripAnsi(Concat(chunks)))
    ensures Frames(START, chunks) == Bodies(StripAnsi(Concat(chunks)))
       <==> forall i | 0 <= i < |chunks| :: |Bodies(Upto(chunks, i + 1))| <= |Bodies(Upto(chunks, i))| + 1
  {
    hide StripAnsi, WellEndedText, Bodies, Given, Calls;
    GivenUpto(chunks, |chunks|);
    assert chunks[..|chunks|] == chunks;
    assert Calls(START, chunks)[..|chunks|] == Calls(START, chunks);
  }

  // ------------------------------------------------------------ streams made of frames

  function Unlines(lines: seq<string>): string {
    if lines == [] then "" else Unlines(lines[..|lines| - 1]) + lines[|lines| - 1] + "\n"
  }

  /** No line begins a frame. */
  ghost predicate AllPlain(lines: seq<string>) {
    forall i | 0 <= i < |lines| :: !IsMarkerLine(lines[i], BEGIN_PREFIX)
  }

  ghost predicate NoEnd(lines: seq<string>) {
    forall i | 0 <= i < |lines| :: !StartsWith(Trim(lines[i]), END_PREFIX)
  }

  /** Lines that hold one frame: other lines, a BEGIN line, the body, an END line, other lines. */
  datatype Framed = Framed(pre: seq<string>, begin: string, body: seq<string>, end: string, post: seq<string>) {
    function Lines(): seq<string> {
      pre + ([begin] + (body + ([end] + post)))
    }

    ghost predicate Valid() {
      AllPlain(pre) && AllPlain(post) && IsMarkerLine(begin, BEGIN_PREFIX) && NoEnd(body) && EndsFrame(end)
    }

    function Body(): string {
      Trim(Unlines(body))
    }
  }

  lemma EndIsMarker(end: string)
    requires EndsFrame(end)
    ensures IsMarkerLine(end, END_PREFIX) && CleanEnd(end)
  {
    var id :| IsWorkItemId(id) && Trim(end) == END_PREFIX + id;
    forall i | |END_PREFIX| <= i < |Trim(end)|
      ensures IsIdChar(Trim(end)[i])
    {
      assert Trim(end)[i] == id[i - |END_PREFIX|] && id[i - |END_PREFIX|] in id;
    }
  }

  lemma {:induction false} ScanPlain(bodies: seq<string>, lines: seq<string>)
    requires AllPlain(lines)
    ensures var s := Scan(false, "", bodies); ScanLines(s, lines) == s && WellEnded(s, lines)
  {
    if lines == [] {
    } else {
      ScanPlain(bodies, lines[1..]);
    }
  }

  lemma {:induction false} ScanBody(bodies: seq<string>, lines: seq<string>)
    requires NoEnd(lines)
    ensures var s := Scan(true, "", bodies); ScanLines(s, lines) == Scan(true, Unlines(lines), bodies) && WellEnded(s, lines)
  {
    hide Trim;
    if lines == [] {
    } else {
      var n := |lines| - 1;
      var s := Scan(true, "", bodies);
      ScanBody(bodies, lines[..n]);
      assert lines == lines[..n] + [lines[n]];
      ScanConcat(s, lines[..n], [lines[n]]);
      ScanOne(ScanLines(s, lines[..n]), lines[n]);
    }
  }

  /** Each frame adds its trimmed body, and leaves the reader outside. */
  lemma ScanFramed(f: Framed, bodies: seq<string>)
    requires f.Valid()
    ensures var s := Scan(false, "", bodies);
      ScanLines(s, f.Lines()) == Scan(false, "", bodies + [f.Body()]) && WellEnded(s, f.Lines())
  {
    hide IsMarkerLine, Trim, CleanEnd, EndsFrame, NoEnd, AllPlain, WellEnded, ScanLines, Unlines;
    var s, inside, full := Scan(false, "", bodies), Scan(true, "", bodies), Scan(true, Unlines(f.body), bodies);
    var closed := Scan(false, "", bodies + [f.Body()]);
    ScanPlain(bodies, f.pre);
    ScanBody(bodies, f.body);
    EndIsMarker(f.end);
    ScanPlain(bodies + [f.Body()], f.post);
    ScanOne(s, f.begin);
    ScanOne(full, f.end);
    ScanConcat(full, [f.end], f.post);
    ScanConcat(inside, f.body, [f.end] + f.post);
    ScanConcat(s, [f.begin], f.body + ([f.end] + f.post));
    ScanConcat(s, f.pre, [f.begin] + (f.body + ([f.end] + f.post)));
  }

  ghost predicate AllValid(fs: seq<Framed>) {
    forall i | 0 <= i < |fs| :: fs[i].Valid()
  }

  function StreamLines(fs: seq<Framed>): seq<string> {
    if fs == [] then [] else fs[0].Lines() + StreamLines(fs[1..])
  }

  function BodiesOf(fs: seq<Framed>): (bodies: seq<string>)
    ensures |bodies| == |fs|
    ensures forall i | 0 <= i < |fs| :: bodies[i] == fs[i].Body()
  {
    seq(|fs|, i requires 0 <= i < |fs| => fs[i].Body())
  }

  lemma {:induction false} ScanStream(fs: seq<Framed>, bodies: seq<string>)
    requires AllValid(fs)
    ensures var s := Scan(false, "", bodies);
      ScanLines(s, StreamLines(fs)) == Scan(false, "", bodies + BodiesOf(fs)) && WellEnded(s, StreamLines(fs))
    decreases fs
  {
    hide IsMarkerLine, Trim, Framed.Valid, Framed.Lines, Framed.Body;
    if fs == [] {
      assert bodies + BodiesOf(fs) == bodies;
    } else {
      var next := bodies + [fs[0].Body()];
      ScanFramed(fs[0], bodies);
      ScanStream(fs[1..], next);
      ScanConcat(Scan(false, "", bodies), fs[0].Lines(), StreamLines(fs[1..]));
      assert bodies + BodiesOf(fs) == next + BodiesOf(fs[1..]);
    }
  }

  lemma StreamBodies(text: string, fs: seq<Framed>)
    requires AllValid(fs) && Split(text) == StreamLines(fs)
    ensures WellEndedText(text) && Bodies(text) == BodiesOf(fs)
  {
    hide Split, IsMarkerLine, Framed.Valid, Framed.Lines, Framed.Body;
    ScanStream(fs, []);
    assert [] + BodiesOf(fs) == BodiesOf(fs);
  }

  /**
   * A stream of frames, cut anyhow: all bodies come back, in order, exactly when no chunk completes two frames.
   */
  lemma StreamHoweverCut(chunks: seq<string>, fs: seq<Framed>)
    requires EscFree(chunks) && AllValid(fs) && Split(StripAnsi(Concat(chunks))) == StreamLines(fs)
    ensures Frames(START, chunks) == BodiesOf(fs)
       <==> forall i | 0 <= i < |chunks| :: |Bodies(Upto(chunks, i + 1))| <= |Bodies(Upto(chunks, i))| + 1
  {
    hide StripAnsi, Split, Framed.Valid, Upto, Given, Calls, Bodies;
    StreamBodies(StripAnsi(Concat(chunks)), fs);
    AllFramesIff(chunks);
  }

  lemma FewBodies(chunks: seq<string>, i: nat)
    requires EscFree(chunks) && i <= |chunks| && WellEndedText(StripAnsi(Concat(chunks)))
    ensures |Bodies(Upto(chunks, i))| <= |Bodies(StripAnsi(Concat(chunks)))|
  {
    hide StripAnsi, WellEndedText, Bodies;
    UptoGrows(chunks, i, |chunks|);
    assert chunks[..|chunks|] == chunks;
    BodiesGrow(Upto(chunks, i), StripAnsi(Concat(chunks[i..])));
  }

  /** Chunking does not matter for one frame: exactly one call returns a frame, and it is the trimmed body. */
  lemma OneFrameHoweverCut(chunks: seq<string>, f: Framed)
    requires EscFree(chunks) && f.Valid() && Split(StripAnsi(Concat(chunks))) == f.Lines()
    ensures Frames(START, chunks) == [f.Body()]
  {
    hide StripAnsi, Split, Framed.Valid, Framed.Lines, Framed.Body, Upto, Given, Calls, Bodies;
    OneBody(StripAnsi(Concat(chunks)), f);
    forall i | 0 <= i < |chunks| ensures |Bodies(Upto(chunks, i + 1))| <= |Bodies(Upto(chunks, i))| + 1 {
      FewBodies(chunks, i + 1);
    }
    AllFramesIff(chunks);
  }

  lemma OneBody(text: string, f: Framed)
    requires f.Valid() && Split(text) == f.Lines()
    ensures WellEndedText(text) && Bodies(text) == [f.Body()]
  {
    ScanFramed(f, []);
  }

  /** Without a complete BEGIN line no call ever returns a frame, whatever END lines the stream holds. */
  lemma NoBeginNoFrame(chunks: seq<string>)
    requires EscFree(chunks) && AllPlain(Complete(StripAnsi(Concat(chunks))))
    ensures Frames(START, chunks) == []
  {
    hide StripAnsi, Split, Upto, Given, Calls, Bodies;
    NoBody(StripAnsi(Concat(chunks)));
    forall i | 0 <= i < |chunks| ensures |Bodies(Upto(chunks, i + 1))| <= |Bodies(Upto(chunks, i))| + 1 {
      FewBodies(chunks, i + 1);
    }
    AllFramesIff(chunks);
  }

  lemma NoBody(text: string)
    requires AllPlain(Complete(text))
    ensures WellEndedText(text) && Bodies(text) == []
  {
    hide Split, IsMarkerLine, Complete, Open;
    SplitParts(text);
    ScanPlain([], Complete(text));
    ScanConcat(OUTSIDE, Complete(text), [Open(text)]);
    ScanOne(OUTSIDE, Open(text));
  }

  /** A call keeps only the last frame it completes: of a stream that arrives in one chunk, the earlier ones are lost. */
  lemma OneChunkKeepsTheLast(chunk: string, fs: seq<Framed>)
    requires ESC !in chunk && AllValid(fs) && fs != [] && Split(StripAnsi(chunk)) == StreamLines(fs)
    ensures Frames(START, [chunk]) == [fs[|fs| - 1].Body()]
  {
    hide StripAnsi, Split, Framed.Valid, Framed.Body, Bodies, Calls, StreamLines, EscFree;
    OneChunkIsAll(chunk);
    StreamBodies(StripAnsi(chunk), fs);
    StartIsEmpty([chunk]);
    EachCallReturnsNewest([chunk], 0);
    assert Calls(START, [chunk])[0] == Some(BodiesOf(fs)[|fs| - 1]);
    GivenOne(Calls(START, [chunk]));
  }

  lemma OneChunkIsAll(chunk: string)
    requires ESC !in chunk
    ensures EscFree([chunk]) && Concat([chunk]) == chunk && Upto([chunk], 1) == StripAnsi(chunk)
  {
    assert [chunk][..1] == [chunk] && [chunk][1..] == [];
    assert Concat([chunk]) == chunk + "" == chunk;
  }

  lemma GivenOne(replies: seq<Option<string>>)
    requires |replies| == 1 && replies[0].Some?
    ensures Given(replies) == [replies[0].value]
  {
    assert replies[1..] == [];
  }
}
