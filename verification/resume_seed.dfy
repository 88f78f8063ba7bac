/** The resume seed: what the first handoff after a resume from halted is told about the failed attempt (resume-seed.ts). */
module ResumeSeed {
  import opened JsText
  import opened Wrappers

  const SEED_TOTAL_BUDGET := 24000
  const SEED_HALT_REASON_CAP := 500
  const SEED_HANDBACK_HEAD_KEEP := 8000
  const SEED_HANDBACK_TAIL_KEEP := 4000
  const SEED_MESSAGE_CAP := 4000
  const SEED_DIGEST_LINE_CAP := 200

  datatype SeedRound = SeedRound(round: nat, step: Option<string>, verdict: Option<string>, handback: Option<string>)

  datatype SeedInput = SeedInput(haltReason: Option<string>, message: Option<string>, rounds: seq<SeedRound>, commitBase: Option<string>)

  /** A value that JavaScript treats as present: neither null nor the empty string. */
  predicate Present(s: Option<string>) {
    s.Some? && s.value != ""
  }

  // ------------------------------------------------------------ one entry per round

  /** Map.set: a known round keeps its place and takes the newer row; an absent verdict does not erase an older one. */
  function Upsert(entries: seq<SeedRound>, row: SeedRound): seq<SeedRound> {
    if entries == [] then [row]
    else if entries[0].round == row.round then [Merged(entries[0], row)] + entries[1..]
    else [entries[0]] + Upsert(entries[1..], row)
  }

  function Merged(older: SeedRound, row: SeedRound): SeedRound {
    row.(verdict := if row.verdict.Some? then row.verdict else older.verdict)
  }

  /** Where a row lands: in the place of the first entry of its round, or at the end. */
  lemma {:induction false} UpsertAt(entries: seq<SeedRound>, row: SeedRound, k: nat)
    requires k <= |entries| && forall i | 0 <= i < k :: entries[i].round != row.round
    requires k < |entries| ==> entries[k].round == row.round
    ensures Upsert(entries, row) == if k < |entries| then entries[k := Merged(entries[k], row)] else entries + [row]
  {
    if entries == [] {
    } else {
      var first, rest := entries[0], entries[1..];
      assert entries == [first] + rest;
      if k > 0 {
        UpsertAt(rest, row, k - 1);
      }
    }
  }

  function PerRound(rows: seq<SeedRound>): seq<SeedRound> {
    if rows == [] then []
    else
      var last := rows[|rows| - 1];
      var before := PerRound(rows[..|rows| - 1]);
      if Present(last.handback) then Upsert(before, last) else before
  }

  method GroupByRound(rows: seq<SeedRound>) returns (entries: seq<SeedRound>)
    ensures entries == PerRound(rows)
  {
    entries := [];
    for i := 0 to |rows|
      invariant entries == PerRound(rows[..i])
    {
      assert rows[..i + 1][..i] == rows[..i];
      if Present(rows[i].handback) {
        entries := SetEntry(entries, rows[i]);
      }
    }
    assert rows[..|rows|] == rows;
  }

  method SetEntry(entries: seq<SeedRound>, row: SeedRound) returns (out: seq<SeedRound>)
    ensures out == Upsert(entries, row)
  {
    var k := 0;
    while k < |entries| && entries[k].round != row.round
      invariant k <= |entries| && forall i | 0 <= i < k :: entries[i].round != row.round
    {
      k := k + 1;
    }
    UpsertAt(entries, row, k);
    if k < |entries| {
      var verdict := if row.verdict.Some? then row.verdict else entries[k].verdict;
      out := entries[k := row.(verdict := verdict)];
    } else {
      out := entries + [row];
    }
  }

  // ------------------------------------------------------------ rendering

  /** The fixed wording around the sections. */
  datatype Texts = Texts(
    preamble: string, haltLabel: string, finalOpen: string, finalClose: string, digestHeading: string,
    noteOpen: string, noteClose: string, messageHeading: string, rangeOpen: string, rangeMiddle: string, rangeClose: string,
    cutOpen: string, inlineCutOpen: string, cutClose: string, elideClose: string)

  const SEED_TEXTS := Texts(
    "=== RESUMED PHASE \U{2014} continuation of a halted attempt ===\n" +
    "This phase ran before and was halted; you are continuing it on a fresh chain seeded " +
    "with the prior attempt's context below. Do not restart from scratch \U{2014} build on what " +
    "the prior attempt already accomplished.",
    "Halt reason: ",
    "--- Final handback from the halted attempt (round ",
    ") ---\n",
    "--- Prior rounds ---\n",
    "(digest truncated: rounds 1\U{2013}",
    " omitted)\n",
    "--- Operator message (verbatim) ---\n",
    "--- Commit range ---\nThe authoritative review base for this phase is ",
    ". The effective commit range is ",
    "..HEAD \U{2014} resolve HEAD live; it includes prior-round commits and any commits made while the workflow was halted. " +
    "Ignore any commit hashes quoted in prior handbacks; they describe historical rounds, not the current range.",
    "\n[... ",
    " [... ",
    " characters truncated]",
    " characters elided ...]\n")

  ghost predicate TextsOk(t: Texts) {
    && |t.preamble| <= 300 && |t.haltLabel| <= 20 && |t.finalOpen| <= 60 && |t.finalClose| <= 10 && |t.digestHeading| <= 30
    && |t.noteOpen| <= 40 && |t.noteClose| <= 20 && |t.messageHeading| <= 50 && |t.rangeOpen| <= 100 && |t.rangeMiddle| <= 50
    && |t.rangeClose| <= 300 && |t.cutOpen| <= 10 && |t.inlineCutOpen| <= 10 && |t.cutClose| <= 30 && |t.elideClose| <= 30
  }

  lemma SeedTextsAreOk()
    ensures TextsOk(SEED_TEXTS)
  {
  }

  function TruncateTail(t: Texts, text: string, keep: nat): string {
    if |text| <= keep then text else text[..keep] + t.cutOpen + Dec(|text| - keep) + t.cutClose
  }

  /** Inline, so that a digest entry stays one physical line. */
  function TruncateLineTail(t: Texts, text: string, keep: nat): string {
    if |text| <= keep then text else text[..keep] + t.inlineCutOpen + Dec(|text| - keep) + t.cutClose
  }

  function ElideMiddle(t: Texts, text: string, headKeep: nat, tailKeep: nat): string {
    if |text| <= headKeep + tailKeep then text
    else text[..headKeep] + t.cutOpen + Dec(|text| - headKeep - tailKeep) + t.elideClose + text[|text| - tailKeep..]
  }

  function FirstLine(text: string): string {
    if text == "" || text[0] == '\n' then "" else [text[0]] + FirstLine(text[1..])
  }

  function DigestLine(t: Texts, r: SeedRound): string {
    TruncateLineTail(t, "round " + Dec(r.round) + " " + r.step.GetOr("?") + " [" + r.verdict.GetOr("no-verdict") + "]: "
      + FirstLine(r.handback.GetOr("")), SEED_DIGEST_LINE_CAP)
  }

  function DigestLines(t: Texts, entries: seq<SeedRound>): (lines: seq<string>)
    ensures |lines| == |entries|
    ensures forall i | 0 <= i < |lines| :: lines[i] == DigestLine(t, entries[i])
  {
    seq(|entries|, i requires 0 <= i < |entries| => DigestLine(t, entries[i]))
  }

  /** The final-handback section belongs to the terminal round only. */
  function FinalRound(rounds: seq<SeedRound>): Option<SeedRound> {
    var entries := PerRound(rounds);
    if rounds != [] && Present(rounds[|rounds| - 1].handback) && entries != [] then Some(entries[|entries| - 1]) else None
  }

  function DigestSource(rounds: seq<SeedRound>): seq<SeedRound> {
    var entries := PerRound(rounds);
    if FinalRound(rounds).Some? then entries[..|entries| - 1] else entries
  }

  /** What the loop varies: how many digest lines are dropped, and how much of each long section is kept. */
  datatype Shape = Shape(dropped: nat, head: nat, tail: nat, message: nat)

  const FULL := Shape(0, SEED_HANDBACK_HEAD_KEEP, SEED_HANDBACK_TAIL_KEEP, SEED_MESSAGE_CAP)

  function HaltPart(t: Texts, input: SeedInput): seq<string> {
    if Present(input.haltReason) then [t.haltLabel + TruncateTail(t, input.haltReason.value, SEED_HALT_REASON_CAP)] else []
  }

  function FinalPart(t: Texts, input: SeedInput, shape: Shape): seq<string> {
    match FinalRound(input.rounds)
    case None => []
    case Some(r) => [t.finalOpen + Dec(r.round) + t.finalClose + ElideMiddle(t, r.handback.GetOr(""), shape.head, shape.tail)]
  }

  function DigestPart(t: Texts, digest: seq<string>, dropped: nat): seq<string> {
    if digest == [] && dropped == 0 then []
    else [t.digestHeading + (if dropped > 0 then t.noteOpen + Dec(dropped) + t.noteClose else "") + Join(digest, "\n")]
  }

  function MessagePart(t: Texts, input: SeedInput, shape: Shape): seq<string> {
    if Present(input.message) then [t.messageHeading + TruncateTail(t, input.message.value, shape.message)] else []
  }

  function RangePart(t: Texts, input: SeedInput): seq<string> {
    if Present(input.commitBase) then
      [t.rangeOpen + input.commitBase.value + t.rangeMiddle + input.commitBase.value + t.rangeClose]
    else []
  }

  function Parts(t: Texts, input: SeedInput, digest: seq<string>, shape: Shape): seq<string> {
    [t.preamble] + HaltPart(t, input) + FinalPart(t, input, shape) + DigestPart(t, digest, shape.dropped)
    + MessagePart(t, input, shape) + RangePart(t, input)
  }

  /** The digest with its oldest lines left out. */
  function Digest(t: Texts, rounds: seq<SeedRound>, dropped: nat): (digest: seq<string>)
    requires dropped <= |DigestSource(rounds)|
    ensures |digest| == |DigestSource(rounds)| - dropped
  {
    DigestLines(t, DigestSource(rounds))[dropped..]
  }

  function Assemble(t: Texts, input: SeedInput, shape: Shape): string
    requires shape.dropped <= |DigestSource(input.rounds)|
  {
    Join(Parts(t, input, Digest(t, input.rounds, shape.dropped), shape), "\n\n")
  }

  // ------------------------------------------------------------ lengths

  function Total(parts: seq<string>): nat {
    if parts == [] then 0 else |parts[0]| + Total(parts[1..])
  }

  lemma {:induction false} JoinIsTotal(parts: seq<string>, separator: string)
    ensures |Join(parts, separator)| == Total(parts) + (if parts == [] then 0 else (|parts| - 1) * |separator|)
  {
    if |parts| <= 1 {
    } else {
      JoinIsTotal(parts[1..], separator);
    }
  }

  lemma {:induction false} TotalAdds(a: seq<string>, b: seq<string>)
    ensures Total(a + b) == Total(a) + Total(b)
  {
    if a == [] {
      assert a + b == b;
    } else {
      TotalAdds(a[1..], b);
      assert (a + b)[1..] == a[1..] + b;
    }
  }

  lemma PartsTotal(t: Texts, input: SeedInput, digest: seq<string>, shape: Shape)
    ensures Total(Parts(t, input, digest, shape)) == |t.preamble| + Total(HaltPart(t, input)) + Total(FinalPart(t, input, shape))
      + Total(DigestPart(t, digest, shape.dropped)) + Total(MessagePart(t, input, shape)) + Total(RangePart(t, input))
    ensures |Parts(t, input, digest, shape)| == 1 + |HaltPart(t, input)| + |FinalPart(t, input, shape)|
      + |DigestPart(t, digest, shape.dropped)| + |MessagePart(t, input, shape)| + |RangePart(t, input)|
  {
    var a := [t.preamble];
    var b := a + HaltPart(t, input);
    var c := b + FinalPart(t, input, shape);
    var d := c + DigestPart(t, digest, shape.dropped);
    var e := d + MessagePart(t, input, shape);
    assert Total(a) == |t.preamble|;
    TotalAdds(a, HaltPart(t, input));
    TotalAdds(b, FinalPart(t, input, shape));
    TotalAdds(c, DigestPart(t, digest, shape.dropped));
    TotalAdds(d, MessagePart(t, input, shape));
    TotalAdds(e, RangePart(t, input));
  }

  lemma {:induction false} DecGrows(a: nat, b: nat)
    requires a <= b
    ensures 0 < |Dec(a)| <= |Dec(b)|
  {
    if a < 10 {
      DecGrowsFromDigit(b);
    } else {
      DecGrows(a / 10, b / 10);
    }
  }

  lemma {:induction false} DecGrowsFromDigit(n: nat)
    ensures |Dec(n)| >= 1
  {
    if n < 10 {
    } else {
      DecGrowsFromDigit(n / 10);
    }
  }

  /** Keeping x characters less shortens a cut text by at most x: the cut marker never shrinks. */
  lemma CutShortens(t: Texts, text: string, keep: nat, less: nat)
    requires less <= keep
    ensures |TruncateTail(t, text, keep)| <= |TruncateTail(t, text, less)| + (keep - less)
  {
    if |text| > keep { DecGrows(|text| - keep, |text| - less); }
  }

  lemma ElisionShortens(t: Texts, text: string, a: Shape, b: Shape)
    requires b.head <= a.head && b.tail <= a.tail
    ensures |ElideMiddle(t, text, a.head, a.tail)| <= |ElideMiddle(t, text, b.head, b.tail)| + (a.head - b.head) + (a.tail - b.tail)
  {
    if |text| > a.head + a.tail { DecGrows(|text| - a.head - a.tail, |text| - b.head - b.tail); }
  }

  /** Giving up x kept characters shortens the seed by at most x. */
  lemma Shortens(t: Texts, input: SeedInput, a: Shape, b: Shape)
    requires a.dropped == b.dropped <= |DigestSource(input.rounds)|
    requires b.head <= a.head && b.tail <= a.tail && b.message <= a.message
    ensures |Assemble(t, input, a)| <= |Assemble(t, input, b)| + (a.head - b.head) + (a.tail - b.tail) + (a.message - b.message)
  {
    hide DigestSource, FinalRound, ElideMiddle, TruncateTail, Digest, Join, Parts;
    var digest := Digest(t, input.rounds, a.dropped);
    PartsTotal(t, input, digest, a);
    PartsTotal(t, input, digest, b);
    JoinIsTotal(Parts(t, input, digest, a), "\n\n");
    JoinIsTotal(Parts(t, input, digest, b), "\n\n");
    FinalShortens(t, input, a, b);
    MessageShortens(t, input, a, b);
  }

  lemma FinalShortens(t: Texts, input: SeedInput, a: Shape, b: Shape)
    requires b.head <= a.head && b.tail <= a.tail
    ensures |FinalPart(t, input, a)| == |FinalPart(t, input, b)|
    ensures Total(FinalPart(t, input, a)) <= Total(FinalPart(t, input, b)) + (a.head - b.head) + (a.tail - b.tail)
  {
    hide FinalRound, ElideMiddle;
    var final := FinalRound(input.rounds);
    if final.Some? { ElisionShortens(t, final.value.handback.GetOr(""), a, b); }
  }

  lemma MessageShortens(t: Texts, input: SeedInput, a: Shape, b: Shape)
    requires b.message <= a.message
    ensures |MessagePart(t, input, a)| == |MessagePart(t, input, b)|
    ensures Total(MessagePart(t, input, a)) <= Total(MessagePart(t, input, b)) + (a.message - b.message)
  {
    hide TruncateTail;
    if Present(input.message) { CutShortens(t, input.message.value, a.message, b.message); }
  }

  // ------------------------------------------------------------ the shrinking loop

  function Minus(keep: nat, over: nat): nat {
    if over >= keep then 0 else keep - over
  }

  /** The loop gives things up in this order: digest lines, the handback's tail, its head, the message. */
  predicate InOrder(shape: Shape, lines: nat) {
    && shape.dropped <= lines
    && shape.head <= SEED_HANDBACK_HEAD_KEEP && shape.tail <= SEED_HANDBACK_TAIL_KEEP && shape.message <= SEED_MESSAGE_CAP
    && (shape.tail < SEED_HANDBACK_TAIL_KEEP ==> shape.dropped == lines)
    && (shape.head < SEED_HANDBACK_HEAD_KEEP ==> shape.dropped == lines && shape.tail == 0)
    && (shape.message < SEED_MESSAGE_CAP ==> shape.dropped == lines && shape.tail == 0 && shape.head == 0)
  }

  predicate TooLong(t: Texts, input: SeedInput, shape: Shape)
    requires shape.dropped <= |DigestSource(input.rounds)|
  {
    |Assemble(t, input, shape)| > SEED_TOTAL_BUDGET
  }

  /**
   * Nothing is given up while giving up less would have been enough: with fewer lines dropped, or more of the tail
   * kept, or more of the head, or more of the message, the text is too long.
   */
  ghost predicate Needed(t: Texts, input: SeedInput, shape: Shape) {
    var lines := |DigestSource(input.rounds)|;
    && InOrder(shape, lines)
    && (forall d: nat | d < shape.dropped :: TooLong(t, input, FULL.(dropped := d)))
    && (forall k: nat | shape.tail < k <= SEED_HANDBACK_TAIL_KEEP :: TooLong(t, input, WithTail(lines, k)))
    && (forall k: nat | shape.head < k <= SEED_HANDBACK_HEAD_KEEP :: TooLong(t, input, WithHead(lines, k)))
    && (forall k: nat | shape.message < k <= SEED_MESSAGE_CAP :: TooLong(t, input, WithMessage(lines, k)))
  }

  /** The shapes of the loop's later stages: the tail is being given up, then the head, then the message. */
  function WithTail(lines: nat, keep: nat): Shape {
    Shape(lines, SEED_HANDBACK_HEAD_KEEP, keep, SEED_MESSAGE_CAP)
  }

  function WithHead(lines: nat, keep: nat): Shape {
    Shape(lines, keep, 0, SEED_MESSAGE_CAP)
  }

  function WithMessage(lines: nat, keep: nat): Shape {
    Shape(lines, 0, 0, keep)
  }

  /** A shape the loop may stop at: the text fits, or nothing is left to give up. */
  ghost predicate Final(t: Texts, input: SeedInput, shape: Shape) {
    && Needed(t, input, shape)
    && (TooLong(t, input, shape) ==> shape == Shape(|DigestSource(input.rounds)|, 0, 0, 0))
  }

  ghost predicate IsSeedText(t: Texts, input: SeedInput, text: string) {
    exists shape :: Final(t, input, shape) && text == Assemble(t, input, shape)
  }

  lemma GiveUpLine(t: Texts, input: SeedInput, shape: Shape)
    requires Needed(t, input, shape)
    requires shape.dropped < |DigestSource(input.rounds)| && TooLong(t, input, shape)
    ensures Needed(t, input, shape.(dropped := shape.dropped + 1))
    ensures InOrder(shape.(dropped := shape.dropped + 1), |DigestSource(input.rounds)|)
  {
    assert shape == FULL.(dropped := shape.dropped);
    forall d: nat | d < shape.dropped + 1
      ensures TooLong(t, input, FULL.(dropped := d))
    {
    }
  }

  /** How far a text is over the budget is how much a keep counter may lose at least before the text can fit. */
  lemma GiveUpText(t: Texts, input: SeedInput, shape: Shape, over: nat, next: Shape)
    requires Needed(t, input, shape) && shape.dropped == |DigestSource(input.rounds)|
    requires |Assemble(t, input, shape)| == SEED_TOTAL_BUDGET + over && over > 0
    requires next == if shape.tail > 0 then shape.(tail := Minus(shape.tail, over))
                     else if shape.head > 0 then shape.(head := Minus(shape.head, over))
                     else shape.(message := Minus(shape.message, over))
    ensures Needed(t, input, next)
  {
    hide Assemble, DigestSource, FULL;
    var lines := shape.dropped;
    if shape.tail > 0 {
      forall k: nat | next.tail < k <= shape.tail ensures TooLong(t, input, WithTail(lines, k)) {
        Shortens(t, input, shape, WithTail(lines, k));
      }
    } else if shape.head > 0 {
      forall k: nat | next.head < k <= shape.head ensures TooLong(t, input, WithHead(lines, k)) {
        Shortens(t, input, shape, WithHead(lines, k));
      }
    } else {
      forall k: nat | next.message < k <= shape.message ensures TooLong(t, input, WithMessage(lines, k)) {
        Shortens(t, input, shape, WithMessage(lines, k));
      }
    }
  }

  method AssembleParts(t: Texts, input: SeedInput, final: Option<SeedRound>, digest: seq<string>, shape: Shape)
    returns (text: string)
    requires final == FinalRound(input.rounds)
    ensures text == Join(Parts(t, input, digest, shape), "\n\n")
  {
    var parts := [t.preamble];
    if Present(input.haltReason) {
      parts := parts + [t.haltLabel + TruncateTail(t, input.haltReason.value, SEED_HALT_REASON_CAP)];
    }
    ghost var before := [t.preamble] + HaltPart(t, input);
    assert parts == before;
    if final.Some? {
      parts := parts + [t.finalOpen + Dec(final.value.round) + t.finalClose
                        + ElideMiddle(t, final.value.handback.GetOr(""), shape.head, shape.tail)];
    }
    assert parts == before + FinalPart(t, input, shape);
    before := parts;
    if |digest| > 0 || shape.dropped > 0 {
      var note := if shape.dropped > 0 then t.noteOpen + Dec(shape.dropped) + t.noteClose else "";
      parts := parts + [t.digestHeading + note + Join(digest, "\n")];
    }
    assert parts == before + DigestPart(t, digest, shape.dropped);
    before := parts;
    if Present(input.message) {
      parts := parts + [t.messageHeading + TruncateTail(t, input.message.value, shape.message)];
    }
    assert parts == before + MessagePart(t, input, shape);
    before := parts;
    if Present(input.commitBase) {
      parts := parts + [t.rangeOpen + input.commitBase.value + t.rangeMiddle + input.commitBase.value + t.rangeClose];
    }
    assert parts == before + RangePart(t, input);
    text := Join(parts, "\n\n");
  }

  /**
   * composeResumeSeedText. The loop ends although a step may lengthen the text, because each pass gives up a digest
   * line or part of a keep counter.
   */
  method ComposeResumeSeedText(t: Texts, input: SeedInput) returns (text: string)
    ensures IsSeedText(t, input, text)
  {
    hide Needed, Parts, Join, DigestLines, PerRound;
    var perRound := GroupByRound(input.rounds);
    var final := if input.rounds != [] && Present(input.rounds[|input.rounds| - 1].handback) && perRound != [] then
      Some(perRound[|perRound| - 1]) else None;
    var digest := DigestLines(t, if final.Some? then perRound[..|perRound| - 1] else perRound);
    var kept := FULL;
    assert final == FinalRound(input.rounds) && digest == Digest(t, input.rounds, 0);
    FullIsNeeded(t, input);
    while true
      invariant final == FinalRound(input.rounds)
      invariant InOrder(kept, |DigestSource(input.rounds)|) && digest == Digest(t, input.rounds, kept.dropped)
      invariant Needed(t, input, kept)
      decreases |digest|, kept.tail, kept.head, kept.message
    {
      text := AssembleParts(t, input, final, digest, kept);
      ghost var shape := kept;
      assert text == Assemble(t, input, shape);
      if |text| <= SEED_TOTAL_BUDGET {
        return;
      }
      var over := |text| - SEED_TOTAL_BUDGET;
      if |digest| > 0 {
        GiveUpLine(t, input, kept);
        digest := digest[1..];
        kept := kept.(dropped := kept.dropped + 1);
      } else {
        if kept.tail > 0 {
          kept := kept.(tail := Minus(kept.tail, over));
        } else if kept.head > 0 {
          kept := kept.(head := Minus(kept.head, over));
        } else if kept.message > 0 {
          kept := kept.(message := Minus(kept.message, over));
        } else {
          assert Final(t, input, shape);
          return;
        }
        GiveUpText(t, input, shape, over, kept);
      }
    }
  }

  lemma FullIsNeeded(t: Texts, input: SeedInput)
    ensures Needed(t, input, FULL)
  {
  }
}
