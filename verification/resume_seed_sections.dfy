/** What the resume seed says: any text that the loop may return, read off slice by slice. */
module ResumeSeedSections {
  import opened JsText
  import opened Wrappers
  import opened ResumeSeed
  import opened ResumeSeedFacts

  const BLANK_LINE := "\n\n"

  // ------------------------------------------------------------ what a slice says

  /** The text verbatim up to the kept length, and beyond that a marker with the number of characters left out. */
  predicate KeptOf(slice: string, text: string, keep: nat, cutOpen: string, cutClose: string) {
    if |text| <= keep then slice == text
    else |slice| >= keep && slice[..keep] == text[..keep] && slice[keep..] == cutOpen + Dec(|text| - keep) + cutClose
  }

  /** The text verbatim at both ends, and between them a marker with the number of characters left out. */
  predicate EndsOf(t: Texts, slice: string, text: string, head: nat, tail: nat) {
    if |text| <= head + tail then slice == text
    else
      && |slice| >= head + tail && slice[..head] == text[..head] && slice[|slice| - tail..] == text[|text| - tail..]
      && slice[head..|slice| - tail] == t.cutOpen + Dec(|text| - head - tail) + t.elideClose
  }

  /** The slice is a section with this heading; `After` is what follows the heading. */
  predicate Headed(slice: string, heading: string) {
    BLANK_LINE + heading <= slice
  }

  function After(slice: string, heading: string): string
    requires Headed(slice, heading)
  {
    slice[|BLANK_LINE + heading|..]
  }

  predicate HaltSays(t: Texts, input: SeedInput, slice: string) {
    if input.haltReason.None? || input.haltReason.value == "" then slice == ""
    else Headed(slice, t.haltLabel) && KeptOf(After(slice, t.haltLabel), input.haltReason.value, 500, t.cutOpen, t.cutClose)
  }

  /** The last row's own handback, under its own round; no section when that row has none. */
  predicate FinalSays(t: Texts, rows: seq<SeedRound>, shape: Shape, slice: string) {
    if rows == [] || rows[|rows| - 1].handback.None? || rows[|rows| - 1].handback.value == "" then slice == ""
    else
      var last := rows[|rows| - 1];
      var heading := t.finalOpen + Dec(last.round) + t.finalClose;
      Headed(slice, heading) && EndsOf(t, After(slice, heading), last.handback.value, shape.head, shape.tail)
  }

  predicate IsFirstLine(line: string, text: string) {
    line <= text && '\n' !in line && (|line| < |text| ==> text[|line|] == '\n')
  }

  /** A digest line names its round, step and verdict, and quotes the first line of the handback, in 200 characters. */
  ghost predicate LineSays(t: Texts, line: string, e: SeedRound) {
    exists quoted :: IsFirstLine(quoted, e.handback.GetOr(""))
      && KeptOf(line, "round " + Dec(e.round) + " " + e.step.GetOr("?") + " [" + e.verdict.GetOr("no-verdict") + "]: " + quoted,
                200, t.inlineCutOpen, t.cutClose)
  }

  ghost predicate LinesSay(t: Texts, lines: seq<string>, entries: seq<SeedRound>) {
    |lines| == |entries| && forall i | 0 <= i < |lines| :: LineSays(t, lines[i], entries[i])
  }

  /** One line for each entry but the first `dropped`, which the note counts; no section when there is no entry. */
  ghost predicate DigestSays(t: Texts, entries: seq<SeedRound>, dropped: nat, slice: string)
    requires dropped <= |entries|
  {
    if entries == [] then slice == ""
    else
      var heading := t.digestHeading + if dropped > 0 then t.noteOpen + Dec(dropped) + t.noteClose else "";
      Headed(slice, heading) && exists lines :: LinesSay(t, lines, entries[dropped..]) && After(slice, heading) == Join(lines, "\n")
  }

  predicate MessageSays(t: Texts, input: SeedInput, shape: Shape, slice: string) {
    if input.message.None? || input.message.value == "" then slice == ""
    else Headed(slice, t.messageHeading) && KeptOf(After(slice, t.messageHeading), input.message.value, shape.message, t.cutOpen, t.cutClose)
  }

  predicate RangeSays(t: Texts, input: SeedInput, slice: string) {
    if input.commitBase.None? || input.commitBase.value == "" then slice == ""
    else
      var base := input.commitBase.value;
      Headed(slice, t.rangeOpen) && After(slice, t.rangeOpen) == base + t.rangeMiddle + base + t.rangeClose
  }

  /** The text is the preamble and the five sections, one after the other, each absent exactly when its source is. */
  ghost predicate Reads(t: Texts, input: SeedInput, shape: Shape, text: string, cuts: seq<nat>) {
    && |cuts| == 5 && cuts[0] <= cuts[1] <= cuts[2] <= cuts[3] <= cuts[4] <= |text|
    && shape.dropped <= |DigestSource(input.rounds)|
    && text[..cuts[0]] == t.preamble
    && HaltSays(t, input, text[cuts[0]..cuts[1]])
    && FinalSays(t, input.rounds, shape, text[cuts[1]..cuts[2]])
    && DigestSays(t, DigestSource(input.rounds), shape.dropped, text[cuts[2]..cuts[3]])
    && MessageSays(t, input, shape, text[cuts[3]..cuts[4]])
    && RangeSays(t, input, text[cuts[4]..])
  }

  // ------------------------------------------------------------ parts as slices

  /** The parts of a text, each after a blank line. */
  function Glued(parts: seq<string>): string {
    if parts == [] then "" else BLANK_LINE + parts[0] + Glued(parts[1..])
  }

  lemma {:induction false} JoinGlued(first: string, rest: seq<string>)
    ensures Join([first] + rest, BLANK_LINE) == first + Glued(rest)
    decreases |rest|
  {
    var parts := [first] + rest;
    if rest == [] {
      assert first + "" == first;
    } else {
      assert parts[1..] == rest == [rest[0]] + rest[1..];
      JoinGlued(rest[0], rest[1..]);
      assert first + BLANK_LINE + (rest[0] + Glued(rest[1..])) == first + (BLANK_LINE + rest[0] + Glued(rest[1..]));
    }
  }

  lemma {:induction false} GluedAdds(a: seq<string>, b: seq<string>)
    ensures Glued(a + b) == Glued(a) + Glued(b)
  {
    if a == [] {
      assert a + b == b;
    } else {
      assert (a + b)[1..] == a[1..] + b;
      GluedAdds(a[1..], b);
    }
  }

  lemma GluedOne(part: string)
    ensures Glued([part]) == BLANK_LINE + part
  {
    assert [part][1..] == [];
  }

  lemma HeadedPart(heading: string, body: string)
    ensures var slice := Glued([heading + body]); Headed(slice, heading) && After(slice, heading) == body
  {
    GluedOne(heading + body);
    assert BLANK_LINE + (heading + body) == (BLANK_LINE + heading) + body;
  }

  lemma CutIsKept(text: string, keep: nat, open: string, close: string)
    requires |text| > keep
    ensures KeptOf(text[..keep] + open + Dec(|text| - keep) + close, text, keep, open, close)
  {
    var slice := text[..keep] + open + Dec(|text| - keep) + close;
    assert slice == text[..keep] + (open + Dec(|text| - keep) + close);
  }

  lemma TruncateKeeps(t: Texts, text: string, keep: nat)
    ensures KeptOf(TruncateTail(t, text, keep), text, keep, t.cutOpen, t.cutClose)
    ensures KeptOf(TruncateLineTail(t, text, keep), text, keep, t.inlineCutOpen, t.cutClose)
  {
    if |text| > keep {
      CutIsKept(text, keep, t.cutOpen, t.cutClose);
      CutIsKept(text, keep, t.inlineCutOpen, t.cutClose);
    }
  }

  lemma ElisionEnds(t: Texts, text: string, head: nat, tail: nat)
    ensures EndsOf(t, ElideMiddle(t, text, head, tail), text, head, tail)
  {
    if |text| > head + tail {
      var middle := t.cutOpen + Dec(|text| - head - tail) + t.elideClose;
      assert ElideMiddle(t, text, head, tail) == text[..head] + middle + text[|text| - tail..];
    }
  }

  lemma {:induction false} FirstLineIs(text: string)
    ensures IsFirstLine(FirstLine(text), text)
  {
    if text == "" || text[0] == '\n' {
    } else {
      FirstLineIs(text[1..]);
      assert FirstLine(text) == [text[0]] + FirstLine(text[1..]) && text == [text[0]] + text[1..];
    }
  }

  lemma DigestLineSays(t: Texts, e: SeedRound)
    ensures LineSays(t, DigestLine(t, e), e)
  {
    FirstLineIs(e.handback.GetOr(""));
    TruncateKeeps(t, "round " + Dec(e.round) + " " + e.step.GetOr("?") + " [" + e.verdict.GetOr("no-verdict") + "]: "
                     + FirstLine(e.handback.GetOr("")), 200);
  }

  lemma HaltSlice(t: Texts, input: SeedInput)
    ensures HaltSays(t, input, Glued(HaltPart(t, input)))
  {
    hide TruncateTail, KeptOf, Glued, Headed, After;
    if Present(input.haltReason) {
      TruncateKeeps(t, input.haltReason.value, SEED_HALT_REASON_CAP);
      HeadedPart(t.haltLabel, TruncateTail(t, input.haltReason.value, SEED_HALT_REASON_CAP));
    } else {
      NoPart();
    }
  }

  lemma NoPart()
    ensures Glued([]) == ""
  {
  }

  lemma FinalSlice(t: Texts, input: SeedInput, shape: Shape)
    requires Ascending(input.rounds)
    ensures FinalSays(t, input.rounds, shape, Glued(FinalPart(t, input, shape)))
  {
    hide ElideMiddle, EndsOf, Glued, Headed, After, FinalRound;
    var rows := input.rounds;
    NoPart();
    if rows == [] {
      assert FinalRound(rows).None? by { NoRowsNoFinal(rows); }
    } else {
      FinalIsTerminal(rows);
      if FinalRound(rows).Some? {
        var r := FinalRound(rows).value;
        var body := ElideMiddle(t, r.handback.GetOr(""), shape.head, shape.tail);
        ElisionEnds(t, r.handback.GetOr(""), shape.head, shape.tail);
        HeadedPart(t.finalOpen + Dec(r.round) + t.finalClose, body);
      }
    }
  }

  lemma NoRowsNoFinal(rows: seq<SeedRound>)
    requires rows == []
    ensures FinalRound(rows).None?
  {
  }

  lemma DigestSlice(t: Texts, rows: seq<SeedRound>, dropped: nat)
    requires dropped <= |DigestSource(rows)|
    ensures DigestSays(t, DigestSource(rows), dropped, Glued(DigestPart(t, Digest(t, rows, dropped), dropped)))
  {
    hide Glued, Headed, After, LineSays, DigestLine, DigestSource, Join;
    var entries, lines := DigestSource(rows), Digest(t, rows, dropped);
    NoPart();
    if entries != [] {
      forall i | 0 <= i < |lines| ensures LineSays(t, lines[i], entries[dropped..][i]) { DigestLineSays(t, entries[dropped + i]); }
      assert LinesSay(t, lines, entries[dropped..]);
      var note := if dropped > 0 then t.noteOpen + Dec(dropped) + t.noteClose else "";
      HeadedPart(t.digestHeading + note, Join(lines, "\n"));
    }
  }

  lemma MessageSlice(t: Texts, input: SeedInput, shape: Shape)
    ensures MessageSays(t, input, shape, Glued(MessagePart(t, input, shape)))
  {
    hide TruncateTail, KeptOf, Glued, Headed, After;
    if Present(input.message) {
      TruncateKeeps(t, input.message.value, shape.message);
      HeadedPart(t.messageHeading, TruncateTail(t, input.message.value, shape.message));
    } else {
      NoPart();
    }
  }

  lemma RangeSlice(t: Texts, input: SeedInput)
    ensures RangeSays(t, input, Glued(RangePart(t, input)))
  {
    hide Glued, Headed, After;
    if Present(input.commitBase) {
      var base := input.commitBase.value;
      assert t.rangeOpen + base + t.rangeMiddle + base + t.rangeClose == t.rangeOpen + (base + t.rangeMiddle + base + t.rangeClose);
      HeadedPart(t.rangeOpen, base + t.rangeMiddle + base + t.rangeClose);
    } else {
      NoPart();
    }
  }

  lemma PartsGlued(t: Texts, input: SeedInput, digest: seq<string>, shape: Shape)
    ensures Join(Parts(t, input, digest, shape), BLANK_LINE)
         == t.preamble + Glued(HaltPart(t, input)) + Glued(FinalPart(t, input, shape)) + Glued(DigestPart(t, digest, shape.dropped))
            + Glued(MessagePart(t, input, shape)) + Glued(RangePart(t, input))
  {
    hide HaltPart, FinalPart, DigestPart, MessagePart, RangePart, Glued, Join;
    var a, b, c := HaltPart(t, input), FinalPart(t, input, shape), DigestPart(t, digest, shape.dropped);
    var d, e := MessagePart(t, input, shape), RangePart(t, input);
    assert Parts(t, input, digest, shape) == [t.preamble] + (a + (b + (c + (d + e))));
    JoinGlued(t.preamble, a + (b + (c + (d + e))));
    GluedAdds(a, b + (c + (d + e)));
    GluedAdds(b, c + (d + e));
    GluedAdds(c, d + e);
    GluedAdds(d, e);
  }

  lemma SlicesOf(p: string, a: string, b: string, c: string, d: string, e: string) returns (cuts: seq<nat>)
    ensures var text := p + a + b + c + d + e;
      && |cuts| == 5 && cuts[0] <= cuts[1] <= cuts[2] <= cuts[3] <= cuts[4] <= |text|
      && text[..cuts[0]] == p && text[cuts[0]..cuts[1]] == a && text[cuts[1]..cuts[2]] == b
      && text[cuts[2]..cuts[3]] == c && text[cuts[3]..cuts[4]] == d && text[cuts[4]..] == e
  {
    cuts := [|p|, |p + a|, |p + a + b|, |p + a + b + c|, |p + a + b + c + d|];
  }

  /**
   * Whatever text the loop returns for the rows of a chain, it can be read off: the halt reason up to 500 characters,
   * the terminal round's handback, one line for each earlier round that is kept, the operator's message verbatim up to
   * the kept length, and the commit base.
   */
  lemma SeedCanBeRead(t: Texts, input: SeedInput, text: string)
    requires Ascending(input.rounds) && IsSeedText(t, input, text)
    ensures exists shape, cuts :: Final(t, input, shape) && Reads(t, input, shape, text, cuts)
  {
    hide Assemble, HaltSays, FinalSays, DigestSays, MessageSays, RangeSays, Reads;
    var shape :| Final(t, input, shape) && text == Assemble(t, input, shape);
    var cuts := AssembledReads(t, input, shape);
  }

  lemma AssembledReads(t: Texts, input: SeedInput, shape: Shape) returns (cuts: seq<nat>)
    requires Ascending(input.rounds) && shape.dropped <= |DigestSource(input.rounds)|
    ensures Reads(t, input, shape, Assemble(t, input, shape), cuts)
  {
    hide HaltSays, FinalSays, DigestSays, MessageSays, RangeSays, Digest, DigestSource, HaltPart, FinalPart, DigestPart,
         MessagePart, RangePart, Parts, Join, Glued;
    var digest := Digest(t, input.rounds, shape.dropped);
    PartsGlued(t, input, digest, shape);
    cuts := SlicesOf(t.preamble, Glued(HaltPart(t, input)), Glued(FinalPart(t, input, shape)),
                     Glued(DigestPart(t, digest, shape.dropped)), Glued(MessagePart(t, input, shape)), Glued(RangePart(t, input)));
    HaltSlice(t, input);
    FinalSlice(t, input, shape);
    DigestSlice(t, input.rounds, shape.dropped);
    MessageSlice(t, input, shape);
    RangeSlice(t, input);
  }

  /** The message is in the text, whatever else is: verbatim up to the kept length, right after its heading. */
  lemma MessageIsQuoted(t: Texts, input: SeedInput, text: string)
    requires Ascending(input.rounds) && IsSeedText(t, input, text)
    requires input.message.Some? && input.message.value != ""
    ensures exists shape, i: nat :: Final(t, input, shape) && Quotes(t, input.message.value, text, i, shape.message)
  {
    hide Assemble, HaltSays, FinalSays, DigestSays, RangeSays, Final;
    SeedCanBeRead(t, input, text);
    var shape, cuts :| Final(t, input, shape) && Reads(t, input, shape, text, cuts);
    hide Reads;
    MessageAt(t, input, shape, text, cuts);
  }

  lemma SliceOf(text: string, a: nat, b: nat, i: nat, j: nat)
    requires a <= b <= |text| && i <= j <= b - a
    ensures text[a..b][i..j] == text[a + i..a + j]
  {
    forall k | 0 <= k < j - i ensures text[a..b][i..j][k] == text[a + i..a + j][k] {
      assert text[a..b][i + k] == text[a + (i + k)];
    }
  }

  lemma MessageAt(t: Texts, input: SeedInput, shape: Shape, text: string, cuts: seq<nat>)
    requires Reads(t, input, shape, text, cuts) && input.message.Some? && input.message.value != ""
    ensures Quotes(t, input.message.value, text, cuts[3], shape.message)
  {
    hide HaltSays, FinalSays, DigestSays, RangeSays, DigestSource;
    var slice, message, heading := text[cuts[3]..cuts[4]], input.message.value, BLANK_LINE + t.messageHeading;
    var k := if |message| <= shape.message then |message| else shape.message;
    assert slice[..|heading|] == heading && slice[|heading|..][..k] == message[..k];
    assert slice[|heading|..|heading| + k] == message[..k];
    SliceOf(text, cuts[3], cuts[4], 0, |heading|);
    SliceOf(text, cuts[3], cuts[4], |heading|, |heading| + k);
  }

  predicate Quotes(t: Texts, message: string, text: string, i: nat, keep: nat) {
    var heading := BLANK_LINE + t.messageHeading;
    var k := if |message| <= keep then |message| else keep;
    i + |heading| + k <= |text| && text[i..i + |heading|] == heading && text[i + |heading|..i + |heading| + k] == message[..k]
  }

  // ------------------------------------------------------------ what a digest entry is

  /** A digest entry is its round's latest row with a handback, with the round's latest verdict. */
  lemma DigestEntryIs(rows: seq<SeedRound>, i: nat)
    requires i < |DigestSource(rows)|
    ensures var e := DigestSource(rows)[i];
      LatestRow(rows, e.round).Some? && e == LatestRow(rows, e.round).value.(verdict := LatestVerdict(rows, e.round))
  {
    hide LatestRow, LatestVerdict;
    var entries, e := PerRound(rows), DigestSource(rows)[i];
    EntriesAreLatest(rows, e.round);
    assert entries[i] == e;
  }

  /** Every round that handed something back has a digest entry, but for the one the final section shows. */
  lemma DigestHasRound(rows: seq<SeedRound>, round: nat)
    requires LatestRow(rows, round).Some?
    ensures (FinalRound(rows).Some? && FinalRound(rows).value.round == round)
         || exists i :: 0 <= i < |DigestSource(rows)| && DigestSource(rows)[i].round == round
  {
    hide LatestVerdict;
    var entries := PerRound(rows);
    EntriesAreLatest(rows, round);
    var e := LatestRow(rows, round).value.(verdict := LatestVerdict(rows, round));
    var i :| 0 <= i < |entries| && entries[i] == e;
    if i < |DigestSource(rows)| { assert DigestSource(rows)[i].round == round; }
  }
}
