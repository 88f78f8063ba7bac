/** What the resume seed keeps: its length bound, and which rounds its digest and its final handback speak of. */
module ResumeSeedFacts {
  import opened JsText
  import opened Wrappers
  import opened ResumeSeed

  // ------------------------------------------------------------ lengths

  function Pow10(k: nat): nat {
    if k == 0 then 1 else 10 * Pow10(k - 1)
  }

  lemma {:induction false} DecLength(n: nat, k: nat)
    requires 0 < k && n < Pow10(k)
    ensures 0 < |Dec(n)| <= k
  {
    if n < 10 {
    } else {
      DecLength(n / 10, k - 1);
    }
  }

  /** JavaScript strings, arrays and round counters are all far shorter than this. */
  const HUGE: nat := Pow10(20)

  predicate RowSized(row: SeedRound) {
    && row.round < HUGE && |row.handback.GetOr("")| < HUGE
    && |row.step.GetOr("?")| < HUGE && |row.verdict.GetOr("no-verdict")| < HUGE
  }

  /** Texts, rows and counters are of realistic size, and the commit base has at most `base` characters. */
  ghost predicate Sized(input: SeedInput, base: nat) {
    && (Present(input.commitBase) ==> |input.commitBase.value| <= base)
    && (Present(input.haltReason) ==> |input.haltReason.value| < HUGE)
    && (Present(input.message) ==> |input.message.value| < HUGE)
    && |input.rounds| < HUGE
    && (forall i | 0 <= i < |input.rounds| :: RowSized(input.rounds[i]))
  }

  lemma TruncateTailLength(t: Texts, text: string, keep: nat)
    requires TextsOk(t) && |text| < HUGE
    ensures |TruncateTail(t, text, keep)| <= keep + 60
  {
    if |text| > keep {
      DecLength(|text| - keep, 20);
    }
  }

  lemma ElideMiddleLength(t: Texts, text: string, head: nat, tail: nat)
    requires TextsOk(t) && |text| < HUGE
    ensures |ElideMiddle(t, text, head, tail)| <= head + tail + 60
  {
    if |text| > head + tail {
      DecLength(|text| - head - tail, 20);
    }
  }

  lemma {:induction false} EntriesAreRows(rows: seq<SeedRound>)
    ensures |PerRound(rows)| <= |rows|
    ensures forall e | e in PerRound(rows) :: exists k :: 0 <= k < |rows| && SameHandback(e, rows[k])
  {
    if rows == [] {
    } else {
      var before := rows[..|rows| - 1];
      var last := rows[|rows| - 1];
      EntriesAreRows(before);
      if Present(last.handback) {
        UpsertElements(PerRound(before), last);
      }
      forall e | e in PerRound(rows)
        ensures exists k :: 0 <= k < |rows| && SameHandback(e, rows[k])
      {
        if e in PerRound(before) {
          var k :| 0 <= k < |before| && SameHandback(e, before[k]);
          assert SameHandback(e, rows[k]);
        } else {
          assert SameHandback(e, rows[|rows| - 1]);
        }
      }
    }
  }

  predicate SameHandback(e: SeedRound, row: SeedRound) {
    e.round == row.round && e.step == row.step && e.handback == row.handback && Present(row.handback)
  }

  lemma {:induction false} UpsertElements(entries: seq<SeedRound>, row: SeedRound)
    ensures |entries| <= |Upsert(entries, row)| <= |entries| + 1
    ensures forall e | e in Upsert(entries, row) :: e in entries || (e.round == row.round && e.step == row.step && e.handback == row.handback)
  {
    if entries == [] || entries[0].round == row.round {
    } else {
      UpsertElements(entries[1..], row);
    }
  }

  lemma FinalPartLength(t: Texts, input: SeedInput, base: nat, shape: Shape)
    requires TextsOk(t) && Sized(input, base)
    ensures Total(FinalPart(t, input, shape)) <= shape.head + shape.tail + 150 && |FinalPart(t, input, shape)| <= 1
  {
    var final := FinalRound(input.rounds);
    if final.Some? {
      EntriesAreRows(input.rounds);
      assert final.value in PerRound(input.rounds);
      var k :| 0 <= k < |input.rounds| && SameHandback(final.value, input.rounds[k]);
      DecLength(final.value.round, 20);
      ElideMiddleLength(t, final.value.handback.GetOr(""), shape.head, shape.tail);
    }
  }

  lemma EmptyDigestLength(t: Texts, input: SeedInput, base: nat)
    requires TextsOk(t) && Sized(input, base)
    ensures var part := DigestPart(t, [], |DigestSource(input.rounds)|); Total(part) <= 110 && |part| <= 1
  {
    EntriesAreRows(input.rounds);
    DecLength(|DigestSource(input.rounds)|, 20);
  }

  lemma HaltPartLength(t: Texts, input: SeedInput, base: nat)
    requires TextsOk(t) && Sized(input, base)
    ensures Total(HaltPart(t, input)) <= 580 && |HaltPart(t, input)| <= 1
  {
    if Present(input.haltReason) {
      TruncateTailLength(t, input.haltReason.value, SEED_HALT_REASON_CAP);
    }
  }

  lemma MessagePartLength(t: Texts, input: SeedInput, base: nat, shape: Shape)
    requires TextsOk(t) && Sized(input, base)
    ensures Total(MessagePart(t, input, shape)) <= shape.message + 110 && |MessagePart(t, input, shape)| <= 1
  {
    if Present(input.message) {
      TruncateTailLength(t, input.message.value, shape.message);
    }
  }

  lemma RangePartLength(t: Texts, input: SeedInput, base: nat)
    requires TextsOk(t) && Sized(input, base)
    ensures Total(RangePart(t, input)) <= 450 + 2 * base && |RangePart(t, input)| <= 1
  {
  }

  /** Everything but the digest, whatever is kept of the long sections. */
  lemma AssembledLength(t: Texts, input: SeedInput, base: nat, shape: Shape)
    requires TextsOk(t) && Sized(input, base) && shape.dropped <= |DigestSource(input.rounds)|
    ensures |Assemble(t, input, shape)| <= 1600 + 2 * base + shape.head + shape.tail + shape.message
                                           + Total(DigestPart(t, Digest(t, input.rounds, shape.dropped), shape.dropped))
  {
    hide HaltPart, FinalPart, DigestPart, MessagePart, RangePart, Parts, Digest, DigestSource;
    var digest := Digest(t, input.rounds, shape.dropped);
    HaltPartLength(t, input, base);
    FinalPartLength(t, input, base, shape);
    MessagePartLength(t, input, base, shape);
    RangePartLength(t, input, base);
    PartsTotal(t, input, digest, shape);
    assert |DigestPart(t, digest, shape.dropped)| <= 1 by { DigestIsOnePart(t, digest, shape.dropped); }
    JoinIsTotal(Parts(t, input, digest, shape), "\n\n");
  }

  lemma DigestIsOnePart(t: Texts, digest: seq<string>, dropped: nat)
    ensures |DigestPart(t, digest, dropped)| <= 1
  {
  }

  /** Without any digest line, and with every other section at its full allowance, the seed fits. */
  lemma WithoutDigestItFits(t: Texts, input: SeedInput)
    requires TextsOk(t) && Sized(input, 3000)
    ensures !TooLong(t, input, FULL.(dropped := |DigestSource(input.rounds)|))
  {
    var shape := FULL.(dropped := |DigestSource(input.rounds)|);
    assert Digest(t, input.rounds, shape.dropped) == [];
    EmptyDigestLength(t, input, 3000);
    AssembledLength(t, input, 3000, shape);
  }

  /** With all given up, the seed fits even around a commit base of 11000 characters. */
  lemma BareSeedFits(t: Texts, input: SeedInput)
    requires TextsOk(t) && Sized(input, 11000)
    ensures !TooLong(t, input, Shape(|DigestSource(input.rounds)|, 0, 0, 0))
  {
    var shape := Shape(|DigestSource(input.rounds)|, 0, 0, 0);
    assert Digest(t, input.rounds, shape.dropped) == [];
    EmptyDigestLength(t, input, 11000);
    AssembledLength(t, input, 11000, shape);
  }

  lemma DigestLineLength(t: Texts, r: SeedRound)
    requires TextsOk(t) && RowSized(r)
    ensures |DigestLine(t, r)| <= SEED_DIGEST_LINE_CAP + 70
  {
    FirstLineIsShorter(r.handback.GetOr(""));
    DecLength(r.round, 20);
    var line := "round " + Dec(r.round) + " " + r.step.GetOr("?") + " [" + r.verdict.GetOr("no-verdict") + "]: "
                + FirstLine(r.handback.GetOr(""));
    assert Pow10(21) == 10 * HUGE;
    if |line| > SEED_DIGEST_LINE_CAP { DecLength(|line| - SEED_DIGEST_LINE_CAP, 21); }
  }

  lemma {:induction false} FirstLineIsShorter(text: string)
    ensures |FirstLine(text)| <= |text|
  {
    if text == "" {
    } else {
      FirstLineIsShorter(text[1..]);
    }
  }

  lemma {:induction false} LinesTotal(lines: seq<string>, each: nat)
    requires forall i | 0 <= i < |lines| :: |lines[i]| <= each
    ensures Total(lines) <= |lines| * each
  {
    if lines == [] {
    } else {
      LinesTotal(lines[1..], each);
    }
  }

  lemma {:induction false} EntriesAreSized(rows: seq<SeedRound>)
    requires forall i | 0 <= i < |rows| :: RowSized(rows[i])
    ensures forall i | 0 <= i < |PerRound(rows)| :: RowSized(PerRound(rows)[i])
  {
    if rows == [] {
    } else {
      var before := rows[..|rows| - 1];
      EntriesAreSized(before);
      UpsertIsSized(PerRound(before), rows[|rows| - 1]);
    }
  }

  lemma {:induction false} UpsertIsSized(entries: seq<SeedRound>, row: SeedRound)
    requires RowSized(row) && forall i | 0 <= i < |entries| :: RowSized(entries[i])
    ensures forall i | 0 <= i < |Upsert(entries, row)| :: RowSized(Upsert(entries, row)[i])
  {
    if entries == [] || entries[0].round == row.round {
    } else {
      UpsertIsSized(entries[1..], row);
    }
  }

  /** Up to 20 digest lines and a commit base of 400 characters, nothing has to be given up. */
  lemma FullSeedFits(t: Texts, input: SeedInput)
    requires TextsOk(t) && Sized(input, 400) && |DigestSource(input.rounds)| <= 20
    ensures !TooLong(t, input, FULL)
  {
    hide DigestLine, PerRound, Assemble;
    var source, digest := DigestSource(input.rounds), Digest(t, input.rounds, 0);
    EntriesAreSized(input.rounds);
    forall i | 0 <= i < |digest| ensures |digest[i]| <= 270 {
      assert RowSized(source[i]);
      DigestLineLength(t, source[i]);
    }
    LinesTotal(digest, 270);
    JoinIsTotal(digest, "\n");
    AssembledLength(t, input, 400, FULL);
  }

  lemma NothingIsDropped(t: Texts, input: SeedInput, text: string)
    requires TextsOk(t) && Sized(input, 400) && |DigestSource(input.rounds)| <= 20 && IsSeedText(t, input, text)
    ensures text == Assemble(t, input, FULL)
  {
    FullSeedFits(t, input);
    FullIsNeeded(t, input);
    assert Final(t, input, FULL);
    SeedTextIsUnique(t, input, text, Assemble(t, input, FULL));
  }

  /** The text with d digest lines dropped and everything else in full, d being the least number that makes it fit. */
  ghost predicate LeastDrop(t: Texts, input: SeedInput, d: nat, text: string) {
    && d <= |DigestSource(input.rounds)| && text == Assemble(t, input, FULL.(dropped := d))
    && forall less: nat | less < d :: TooLong(t, input, FULL.(dropped := less))
  }

  /**
   * The budget: whatever the loop returns fits, has given up digest lines and nothing else, and no smaller number of
   * dropped lines would have fitted. So the handback keeps its 8000 + 4000 characters and the message its 4000.
   */
  lemma SeedFitsByDroppingLines(t: Texts, input: SeedInput, text: string)
    requires TextsOk(t) && Sized(input, 3000) && IsSeedText(t, input, text)
    ensures |text| <= 24000 && exists d: nat :: LeastDrop(t, input, d, text)
  {
    hide Assemble, FinalRound, PerRound;
    var shape :| Final(t, input, shape) && text == Assemble(t, input, shape);
    WithoutDigestItFits(t, input);
    FinalIsLeast(t, input, shape);
  }

  lemma FinalIsLeast(t: Texts, input: SeedInput, shape: Shape)
    requires Final(t, input, shape) && !TooLong(t, input, FULL.(dropped := |DigestSource(input.rounds)|))
    ensures !TooLong(t, input, shape) && LeastDrop(t, input, shape.dropped, Assemble(t, input, shape))
  {
    hide Assemble;
    assert WithTail(|DigestSource(input.rounds)|, SEED_HANDBACK_TAIL_KEEP) == FULL.(dropped := |DigestSource(input.rounds)|);
    assert shape == FULL.(dropped := shape.dropped);
  }

  /** A text that is still too long means that no shape in the order of giving up would have fitted. */
  lemma TooLongIffNothingFits(t: Texts, input: SeedInput, text: string)
    requires IsSeedText(t, input, text)
    ensures |text| > SEED_TOTAL_BUDGET <==>
            forall shape | InOrder(shape, |DigestSource(input.rounds)|) :: TooLong(t, input, shape)
  {
    hide Assemble, DigestSource;
    var last :| Final(t, input, last) && text == Assemble(t, input, last);
    if TooLong(t, input, last) {
      forall shape | InOrder(shape, |DigestSource(input.rounds)|)
        ensures TooLong(t, input, shape)
      {
        BeforeTheLast(t, input, last, shape);
      }
    }
  }

  lemma BeforeTheLast(t: Texts, input: SeedInput, last: Shape, shape: Shape)
    requires Final(t, input, last) && TooLong(t, input, last) && InOrder(shape, |DigestSource(input.rounds)|)
    ensures TooLong(t, input, shape)
  {
    hide Assemble, DigestSource;
    var lines := |DigestSource(input.rounds)|;
    if shape.dropped < lines {
      assert shape == FULL.(dropped := shape.dropped);
    } else if shape.tail > 0 {
      assert shape == WithTail(lines, shape.tail);
    } else if shape.head > 0 {
      assert shape == WithHead(lines, shape.head);
    } else {
      assert shape == WithMessage(lines, shape.message);
      assert shape.message > 0 || shape == last;
    }
  }

  /** Every seed fits its budget as long as the commit base, which is rendered twice and uncut, has at most 11000 characters. */
  lemma SeedFits(t: Texts, input: SeedInput, text: string)
    requires TextsOk(t) && Sized(input, 11000) && IsSeedText(t, input, text)
    ensures |text| <= 24000
  {
    BareSeedFits(t, input);
    TooLongIffNothingFits(t, input, text);
  }

  /** The input determines the text: the first one that fits when things are given up in the loop's order. */
  lemma SeedTextIsUnique(t: Texts, input: SeedInput, a: string, b: string)
    requires IsSeedText(t, input, a) && IsSeedText(t, input, b)
    ensures a == b
  {
    hide Assemble, DigestSource;
    var x :| Final(t, input, x) && a == Assemble(t, input, x);
    var y :| Final(t, input, y) && b == Assemble(t, input, y);
    NoFurther(t, input, x, y);
    NoFurther(t, input, y, x);
  }

  /** Of two shapes to stop at, neither gives up more than the other. */
  lemma NoFurther(t: Texts, input: SeedInput, x: Shape, y: Shape)
    requires Final(t, input, x) && Final(t, input, y)
    ensures x.dropped >= y.dropped && x.tail <= y.tail && x.head <= y.head && x.message <= y.message
  {
    hide Assemble, DigestSource;
    var lines := |DigestSource(input.rounds)|;
    assert x.dropped < lines ==> x == FULL.(dropped := x.dropped);
    assert x.dropped == lines && x.tail > 0 ==> x == WithTail(lines, x.tail);
    assert x.dropped == lines && x.tail == 0 && x.head > 0 ==> x == WithHead(lines, x.head);
    assert x.dropped == lines && x.tail == 0 && x.head == 0 ==> x == WithMessage(lines, x.message);
  }

  /** The real wording of the seed satisfies the sizes used above. */
  lemma SeedBudget(input: SeedInput, text: string)
    requires Sized(input, 3000) && IsSeedText(SEED_TEXTS, input, text)
    ensures |text| <= 24000 && exists d: nat :: LeastDrop(SEED_TEXTS, input, d, text)
  {
    SeedTextsAreOk();
    SeedFitsByDroppingLines(SEED_TEXTS, input, text);
  }

  /** Why the bounds speak of the commit base: it is rendered twice and uncut, so a base over half the budget cannot fit. */
  lemma LongCommitBaseBreaksTheBudget(t: Texts, input: SeedInput, shape: Shape)
    requires Present(input.commitBase) && 2 * |input.commitBase.value| > SEED_TOTAL_BUDGET
    requires shape.dropped <= |DigestSource(input.rounds)|
    ensures |Assemble(t, input, shape)| > SEED_TOTAL_BUDGET
  {
    var digest := Digest(t, input.rounds, shape.dropped);
    PartsTotal(t, input, digest, shape);
    JoinIsTotal(Parts(t, input, digest, shape), "\n\n");
  }

  // ------------------------------------------------------------ what is cut, and one line for each round

  /** An elided text keeps both its ends, and the number it states is what is missing between them. */
  lemma ElisionKeepsEnds(t: Texts, text: string, head: nat, tail: nat)
    requires |text| > head + tail
    ensures var r := ElideMiddle(t, text, head, tail);
      && text[..head] <= r && |r| >= head + tail && r[|r| - tail..] == text[|text| - tail..]
      && exists n: nat :: head + n + tail == |text| && r[head..|r| - tail] == t.cutOpen + Dec(n) + t.elideClose
  {
    var n := |text| - head - tail;
    var r, middle := ElideMiddle(t, text, head, tail), t.cutOpen + Dec(n) + t.elideClose;
    assert r == text[..head] + middle + text[|text| - tail..];
    assert r[head..|r| - tail] == middle;
  }

  predicate OneLine(s: string) {
    '\n' !in s
  }

  lemma {:induction false} FirstLineIsOneLine(text: string)
    ensures OneLine(FirstLine(text))
  {
    if text == "" || text[0] == '\n' {
    } else {
      FirstLineIsOneLine(text[1..]);
    }
  }

  lemma {:induction false} DecIsOneLine(n: nat)
    ensures OneLine(Dec(n))
  {
    if n < 10 {
    } else {
      DecIsOneLine(n / 10);
    }
  }

  /** The step and the verdict are single words, and the inline cut marker has no line break. */
  ghost predicate WordsOk(t: Texts, rounds: seq<SeedRound>) {
    && OneLine(t.inlineCutOpen) && OneLine(t.cutClose)
    && forall i | 0 <= i < |rounds| :: OneLine(rounds[i].step.GetOr("?")) && OneLine(rounds[i].verdict.GetOr("no-verdict"))
  }

  lemma DigestLineIsOneLine(t: Texts, r: SeedRound)
    requires WordsOk(t, [r])
    ensures OneLine(DigestLine(t, r))
  {
    assert [r][0] == r;
    FirstLineIsOneLine(r.handback.GetOr(""));
    DecIsOneLine(r.round);
    var line := "round " + Dec(r.round) + " " + r.step.GetOr("?") + " [" + r.verdict.GetOr("no-verdict") + "]: "
                + FirstLine(r.handback.GetOr(""));
    assert OneLine(line);
    if |line| > SEED_DIGEST_LINE_CAP {
      DecIsOneLine(|line| - SEED_DIGEST_LINE_CAP);
    }
  }

  /** Each round stays one physical line: the digest section splits back into exactly the lines that were kept. */
  lemma DigestSplitsBack(t: Texts, rounds: seq<SeedRound>, dropped: nat)
    requires dropped < |DigestSource(rounds)| && WordsOk(t, DigestSource(rounds))
    ensures Split(Join(Digest(t, rounds, dropped), "\n")) == Digest(t, rounds, dropped)
  {
    hide DigestLine, DigestSource;
    var source, digest := DigestSource(rounds), Digest(t, rounds, dropped);
    forall i | 0 <= i < |digest|
      ensures '\n' !in digest[i]
    {
      DigestLineIsOneLine(t, source[dropped + i]);
    }
    SplitJoin(digest, '\n');
  }

  // ------------------------------------------------------------ one entry per round

  /** The latest row of a round that handed something back. */
  function LatestRow(rows: seq<SeedRound>, round: nat): (row: Option<SeedRound>)
    ensures row.Some? ==> row.value in rows && row.value.round == round && Present(row.value.handback)
  {
    if rows == [] then None
    else
      var last := rows[|rows| - 1];
      if last.round == round && Present(last.handback) then Some(last) else LatestRow(rows[..|rows| - 1], round)
  }

  /** The latest verdict that such a row of the round was given. */
  function LatestVerdict(rows: seq<SeedRound>, round: nat): Option<string> {
    if rows == [] then None
    else
      var last := rows[|rows| - 1];
      if last.round == round && Present(last.handback) && last.verdict.Some? then last.verdict
      else LatestVerdict(rows[..|rows| - 1], round)
  }

  ghost predicate EntryFor(rows: seq<SeedRound>, entries: seq<SeedRound>, round: nat) {
    match LatestRow(rows, round)
    case None => forall i | 0 <= i < |entries| :: entries[i].round != round
    case Some(row) => row.(verdict := LatestVerdict(rows, round)) in entries
  }

  ghost predicate DistinctRounds(entries: seq<SeedRound>) {
    forall i, j | 0 <= i < j < |entries| :: entries[i].round != entries[j].round
  }

  lemma {:induction false} UpsertIs(entries: seq<SeedRound>, row: SeedRound)
    requires DistinctRounds(entries)
    ensures DistinctRounds(Upsert(entries, row))
    ensures forall e: SeedRound | e.round != row.round :: e in entries <==> e in Upsert(entries, row)
    ensures forall e | e in entries && e.round == row.round ::
        row.(verdict := if row.verdict.Some? then row.verdict else e.verdict) in Upsert(entries, row)
    ensures (forall e | e in entries :: e.round != row.round) ==> row in Upsert(entries, row)
  {
    if entries == [] {
    } else {
      var rest := entries[1..];
      assert entries == [entries[0]] + rest;
      if entries[0].round != row.round {
        UpsertIs(rest, row);
        UpsertElements(rest, row);
        assert Upsert(entries, row) == [entries[0]] + Upsert(rest, row);
        forall e | e in Upsert(rest, row)
          ensures e.round != entries[0].round
        {
        }
      } else {
        forall e | e in rest
          ensures e.round != row.round
        {
        }
      }
    }
  }

  /** One entry per round, holding the round's latest handback, its step, and the round's latest verdict. */
  lemma {:induction false} EntriesAreLatest(rows: seq<SeedRound>, round: nat)
    ensures DistinctRounds(PerRound(rows))
    ensures EntryFor(rows, PerRound(rows), round)
  {
    if rows == [] {
    } else {
      var before := rows[..|rows| - 1];
      var last := rows[|rows| - 1];
      EntriesAreLatest(before, round);
      if Present(last.handback) {
        EntriesAreLatest(before, last.round);
        UpsertIs(PerRound(before), last);
        UpsertElements(PerRound(before), last);
        match LatestRow(before, round)
        case None =>
          NoRowNoVerdict(before, round);
        case Some(row) =>
          var e := row.(verdict := LatestVerdict(before, round));
          assert e in PerRound(before) && e.round == round;
      }
    }
  }

  lemma {:induction false} NoRowNoVerdict(rows: seq<SeedRound>, round: nat)
    requires LatestRow(rows, round).None?
    ensures LatestVerdict(rows, round).None?
  {
    if rows == [] {
    } else {
      NoRowNoVerdict(rows[..|rows| - 1], round);
    }
  }

  // ------------------------------------------------------------ the newest rounds survive

  /** The order in which the rows of a chain are read. */
  ghost predicate Ascending(rows: seq<SeedRound>) {
    forall i, j | 0 <= i < j < |rows| :: rows[i].round <= rows[j].round
  }

  ghost predicate StrictlyAscending(entries: seq<SeedRound>) {
    forall i, j | 0 <= i < j < |entries| :: entries[i].round < entries[j].round
  }

  lemma UpsertAtEnd(entries: seq<SeedRound>, row: SeedRound)
    requires StrictlyAscending(entries) && forall i | 0 <= i < |entries| :: entries[i].round <= row.round
    ensures StrictlyAscending(Upsert(entries, row)) && Upsert(entries, row) != []
    ensures var after := Upsert(entries, row); SameText(after[|after| - 1], row)
  {
    var n := |entries|;
    UpsertAt(entries, row, if n > 0 && entries[n - 1].round == row.round then n - 1 else n);
  }

  predicate SameText(e: SeedRound, row: SeedRound) {
    e.round == row.round && e.step == row.step && e.handback == row.handback
  }

  lemma {:induction false} EntriesAscend(rows: seq<SeedRound>)
    requires Ascending(rows)
    ensures StrictlyAscending(PerRound(rows))
    ensures forall e, i | e in PerRound(rows) && |rows| > 0 && i == |rows| - 1 :: e.round <= rows[i].round
    ensures rows != [] && Present(rows[|rows| - 1].handback) ==>
        PerRound(rows) != [] && SameText(PerRound(rows)[|PerRound(rows)| - 1], rows[|rows| - 1])
  {
    if rows == [] {
    } else {
      var before := rows[..|rows| - 1];
      var last := rows[|rows| - 1];
      EntriesAscend(before);
      forall e | e in PerRound(before)
        ensures e.round <= last.round
      {
        assert before != [];
        assert e.round <= before[|before| - 1].round;
      }
      forall i | 0 <= i < |PerRound(before)|
        ensures PerRound(before)[i].round <= last.round
      {
        assert PerRound(before)[i] in PerRound(before);
      }
      if Present(last.handback) {
        UpsertAtEnd(PerRound(before), last);
        UpsertElements(PerRound(before), last);
      }
    }
  }

  /** The final section shows the terminal round's own handback, and is absent exactly when that round has none. */
  lemma FinalIsTerminal(rows: seq<SeedRound>)
    requires Ascending(rows) && rows != []
    ensures FinalRound(rows).Some? <==> Present(rows[|rows| - 1].handback)
    ensures FinalRound(rows).Some? ==> SameText(FinalRound(rows).value, rows[|rows| - 1])
  {
    EntriesAscend(rows);
  }

  /** Every dropped line is about an older round than every line that is kept, and than the final section. */
  lemma SurvivorsAreNewest(rows: seq<SeedRound>, dropped: nat, i: nat, j: nat)
    requires Ascending(rows) && i < dropped <= j
    requires j <= |DigestSource(rows)| && (j == |DigestSource(rows)| ==> FinalRound(rows).Some?)
    ensures DigestSource(rows)[i].round
         < (if j < |DigestSource(rows)| then DigestSource(rows)[j] else FinalRound(rows).value).round
  {
    EntriesAscend(rows);
  }

  ghost predicate Drops(rows: seq<SeedRound>, dropped: nat, round: nat)
    requires dropped <= |DigestSource(rows)|
  {
    exists i: nat :: i < dropped && DigestSource(rows)[i].round == round
  }

  ghost predicate DropsExactly(rows: seq<SeedRound>, dropped: nat)
    requires dropped <= |DigestSource(rows)|
  {
    forall round: nat :: 1 <= round <= dropped <==> Drops(rows, dropped, round)
  }

  /**
   * The truncation note names rounds 1 to `dropped`, but the code counts lines. The note is right exactly when the
   * newest dropped line is about round `dropped`: a round that handed nothing back has no line and shifts the count.
   */
  lemma NoteIsRightWhen(rows: seq<SeedRound>, dropped: nat)
    requires Ascending(rows) && forall i | 0 <= i < |rows| :: rows[i].round >= 1
    requires 0 < dropped <= |DigestSource(rows)|
    ensures DropsExactly(rows, dropped) <==> DigestSource(rows)[dropped - 1].round == dropped
  {
    EntriesAscend(rows);
    EntriesAreRows(rows);
    var source := DigestSource(rows);
    assert source[0] in PerRound(rows);
    CountsUp(source, dropped - 1);
    assert Drops(rows, dropped, source[dropped - 1].round);
    if source[dropped - 1].round == dropped {
      forall i: nat | i < dropped
        ensures source[i].round == i + 1
      {
        Squeeze(source, i, dropped - 1);
      }
      forall round: nat | 1 <= round <= dropped
        ensures Drops(rows, dropped, round)
      {
        assert source[round - 1].round == round;
      }
    }
  }

  lemma {:induction false} CountsUp(entries: seq<SeedRound>, i: nat)
    requires StrictlyAscending(entries) && i < |entries| && entries[0].round >= 1
    ensures entries[i].round >= i + 1
  {
    if i <= 0 {
    } else {
      CountsUp(entries, i - 1);
      assert entries[i - 1].round < entries[i].round;
    }
  }

  lemma {:induction false} Squeeze(entries: seq<SeedRound>, i: nat, j: nat)
    requires StrictlyAscending(entries) && i <= j < |entries| && entries[0].round >= 1 && entries[j].round == j + 1
    ensures entries[i].round == i + 1
  {
    CountsUp(entries, i);
    if i >= j {
    } else {
      CountsUp(entries, j - 1);
      assert entries[j - 1].round < entries[j].round;
      Squeeze(entries, i, j - 1);
    }
  }

  /** However many lines are dropped the note is right, exactly when the digest's lines are about rounds 1, 2, 3 and so on. */
  lemma NoteIsAlwaysRightIff(rows: seq<SeedRound>)
    requires Ascending(rows) && forall i | 0 <= i < |rows| :: rows[i].round >= 1
    ensures (forall dropped: nat | 0 < dropped <= |DigestSource(rows)| :: DropsExactly(rows, dropped))
       <==> (forall i | 0 <= i < |DigestSource(rows)| :: DigestSource(rows)[i].round == i + 1)
  {
    hide DropsExactly, DigestSource;
    forall dropped: nat | 0 < dropped <= |DigestSource(rows)|
      ensures DropsExactly(rows, dropped) <==> DigestSource(rows)[dropped - 1].round == dropped
    {
      NoteIsRightWhen(rows, dropped);
    }
    forall i | 0 <= i < |DigestSource(rows)|
      ensures DropsExactly(rows, i + 1) <==> DigestSource(rows)[i].round == i + 1
    {
      NoteIsRightWhen(rows, i + 1);
    }
  }

  /** A first round without a handback, then n rounds with one. */
  function LateRounds(text: string, n: nat): seq<SeedRound> {
    [SeedRound(1, None, None, None)] + seq(n, i requires 0 <= i < n => SeedRound(i + 2, None, None, Some(text)))
  }

  lemma {:induction false} LateEntries(text: string, n: nat)
    requires text != ""
    ensures PerRound(LateRounds(text, n)) == LateRounds(text, n)[1..]
  {
    var rows := LateRounds(text, n);
    if n == 0 {
      assert rows == [SeedRound(1, None, None, None)] && rows[..0] == [];
    } else {
      LateEntries(text, n - 1);
      assert rows[..|rows| - 1] == LateRounds(text, n - 1);
      var before := PerRound(LateRounds(text, n - 1));
      UpsertAt(before, rows[n], |before|);
    }
  }

  /**
   * A seed that states the wrong note: after a silent first round come 121 rounds whose digest lines are 200
   * characters or more. Lines have to be dropped, and whichever number is, round 1 is not among them.
   */
  lemma NoteCanBeWrong(t: Texts, line: string, text: string)
    requires |line| == 200 && OneLine(line)
    ensures var input := SeedInput(None, None, LateRounds(line, 121), None);
      IsSeedText(t, input, text) ==> exists shape :: WrongNote(t, input, shape, text)
  {
    hide WrongNote, Assemble;
    var input := SeedInput(None, None, LateRounds(line, 121), None);
    if shape :| Final(t, input, shape) && text == Assemble(t, input, shape) { LateNoteIsWrong(t, line, input, shape, text); }
  }

  /** The text has the digest section with the note about the first `dropped` rounds, and these are not the rounds dropped. */
  ghost predicate WrongNote(t: Texts, input: SeedInput, shape: Shape, text: string) {
    && 0 < shape.dropped <= |DigestSource(input.rounds)|
    && text == Assemble(t, input, shape)
    && DigestPart(t, Digest(t, input.rounds, shape.dropped), shape.dropped) != []
    && !DropsExactly(input.rounds, shape.dropped)
  }

  lemma LateNoteIsWrong(t: Texts, line: string, input: SeedInput, shape: Shape, text: string)
    requires |line| == 200 && OneLine(line) && input == SeedInput(None, None, LateRounds(line, 121), None)
    requires Final(t, input, shape) && text == Assemble(t, input, shape)
    ensures WrongNote(t, input, shape, text)
  {
    var rows := input.rounds;
    LateEntries(line, 121);
    var source := DigestSource(rows);
    assert source == rows[1..121];
    LateDigestIsLong(t, line, input);
    assert shape.dropped == 0 ==> shape == FULL;
    assert forall i: nat | i < shape.dropped :: source[i].round == i + 2;
    assert !Drops(rows, shape.dropped, 1);
  }

  lemma LateDigestIsLong(t: Texts, line: string, input: SeedInput)
    requires |line| == 200 && OneLine(line) && DigestSource(input.rounds) == LateRounds(line, 121)[1..121]
    ensures TooLong(t, input, FULL)
  {
    var source, digest := DigestSource(input.rounds), Digest(t, input.rounds, 0);
    forall i | 0 <= i < |digest| ensures |digest[i]| >= 200 {
      LineOfLongText(t, source[i], line);
    }
    LongLinesTotal(digest, 200);
    JoinIsTotal(digest, "\n");
    PartsTotal(t, input, digest, FULL);
    JoinIsTotal(Parts(t, input, digest, FULL), "\n\n");
  }

  lemma LineOfLongText(t: Texts, r: SeedRound, line: string)
    requires r.handback == Some(line) && OneLine(line) && |line| >= SEED_DIGEST_LINE_CAP
    ensures |DigestLine(t, r)| >= SEED_DIGEST_LINE_CAP
  {
    WholeIsFirstLine(line);
  }

  lemma {:induction false} WholeIsFirstLine(text: string)
    requires OneLine(text)
    ensures FirstLine(text) == text
  {
    if text == "" {
    } else {
      WholeIsFirstLine(text[1..]);
    }
  }

  lemma {:induction false} LongLinesTotal(lines: seq<string>, each: nat)
    requires forall i | 0 <= i < |lines| :: |lines[i]| >= each
    ensures Total(lines) >= |lines| * each
  {
    if lines == [] {
    } else {
      LongLinesTotal(lines[1..], each);
    }
  }
}
