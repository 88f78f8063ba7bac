/** What the frame parser recognises: terminal escapes, marker lines, and the replies the protocol prints. */
module FrameEscapes {
  import opened JsText
  import opened Wrappers
  import opened FrameParser

  // ------------------------------------------------------------ escapes

  /** A stretch of terminal output: plain text, an operating-system command, or a control sequence. */
  datatype Piece =
    | Plain(text: string)
    | Osc(body: string, bell: bool)
    | Csi(params: string, middle: string, last: char)

  ghost predicate Within(s: string, lo: char, hi: char) {
    forall i | 0 <= i < |s| :: lo <= s[i] <= hi
  }

  ghost predicate PieceOk(p: Piece) {
    match p
    case Plain(text) => ESC !in text
    case Osc(body, _) => ESC !in body && BEL !in body
    case Csi(params, middle, last) => Within(params, '0', '?') && Within(middle, ' ', '/') && '@' <= last <= '~'
  }

  function Printed(p: Piece): string {
    match p
    case Plain(text) => text
    case Osc(body, bell) => [ESC, ']'] + body + if bell then [BEL] else [ESC, '\\']
    case Csi(params, middle, last) => [ESC, '['] + params + middle + [last]
  }

  function AllPrinted(pieces: seq<Piece>): string {
    if pieces == [] then "" else Printed(pieces[0]) + AllPrinted(pieces[1..])
  }

  function PlainText(pieces: seq<Piece>): string {
    if pieces == [] then "" else (if pieces[0].Plain? then pieces[0].text else "") + PlainText(pieces[1..])
  }

  function WithoutOsc(pieces: seq<Piece>): seq<Piece> {
    if pieces == [] then [] else (if pieces[0].Osc? then [] else [pieces[0]]) + WithoutOsc(pieces[1..])
  }

  ghost predicate AllOk(pieces: seq<Piece>) {
    forall i | 0 <= i < |pieces| :: PieceOk(pieces[i])
  }

  lemma {:induction false} OscEndIs(s: string, i: nat, k: nat)
    requires i <= k < |s| && (s[k] == BEL || s[k] == ESC) && forall j | i <= j < k :: s[j] != BEL && s[j] != ESC
    ensures OscEnd(s, i) == k
    decreases k - i
  {
    if i == k {
    } else {
      OscEndIs(s, i + 1, k);
    }
  }

  lemma {:induction false} SpanIs(s: string, i: nat, k: nat, lo: char, hi: char)
    requires i <= k < |s| && !(lo <= s[k] <= hi) && forall j | i <= j < k :: lo <= s[j] <= hi
    ensures Span(s, i, lo, hi) == k
    decreases k - i
  {
    if i == k {
    } else {
      SpanIs(s, i + 1, k, lo, hi);
    }
  }

  /** Text without escapes passes both removals as it is, whatever follows. */
  lemma {:induction false} PlainPasses(text: string, rest: string)
    requires ESC !in text
    ensures StripOsc(text + rest) == text + StripOsc(rest) && StripCsi(text + rest) == text + StripCsi(rest)
  {
    if text == "" {
      assert text + rest == rest;
    } else {
      assert text[0] in text;
      assert (text + rest)[1..] == text[1..] + rest;
      PlainPasses(text[1..], rest);
      assert [text[0]] + (text[1..] + StripOsc(rest)) == text + StripOsc(rest);
      assert [text[0]] + (text[1..] + StripCsi(rest)) == text + StripCsi(rest);
    }
  }

  lemma OscIsRemoved(p: Piece, rest: string)
    requires PieceOk(p) && p.Osc?
    ensures StripOsc(Printed(p) + rest) == StripOsc(rest)
  {
    var s := Printed(p) + rest;
    var k := 2 + |p.body|;
    assert forall j | 2 <= j < k :: s[j] == p.body[j - 2] && p.body[j - 2] in p.body;
    OscEndIs(s, 2, k);
    assert OscLength(s) == |Printed(p)|;
    assert s[|Printed(p)|..] == rest;
  }

  lemma CsiIsRemoved(p: Piece, rest: string)
    requires PieceOk(p) && p.Csi?
    ensures StripCsi(Printed(p) + rest) == StripCsi(rest)
  {
    var s := Printed(p) + rest;
    var a, b := 2 + |p.params|, 2 + |p.params| + |p.middle|;
    assert forall j | 2 <= j < a :: s[j] == p.params[j - 2];
    assert forall j | a <= j < b :: s[j] == p.middle[j - a];
    assert s[b] == p.last;
    SpanIs(s, 2, a, '0', '?');
    SpanIs(s, a, b, ' ', '/');
    assert CsiLength(s) == |Printed(p)|;
    assert s[|Printed(p)|..] == rest;
  }

  lemma CsiPassesOsc(p: Piece, rest: string)
    requires PieceOk(p) && p.Csi?
    ensures StripOsc(Printed(p) + rest) == Printed(p) + StripOsc(rest)
  {
    var tail := ['['] + p.params + p.middle + [p.last];
    assert Printed(p) == [ESC] + tail;
    assert Printed(p) + rest == [ESC] + (tail + rest);
    assert ([ESC] + (tail + rest))[1..] == tail + rest;
    assert ESC !in tail;
    PlainPasses(tail, rest);
    assert [ESC] + (tail + StripOsc(rest)) == Printed(p) + StripOsc(rest);
  }

  lemma {:induction false} OscsAreRemoved(pieces: seq<Piece>)
    requires AllOk(pieces)
    ensures StripOsc(AllPrinted(pieces)) == AllPrinted(WithoutOsc(pieces)) && AllOk(WithoutOsc(pieces))
    ensures PlainText(WithoutOsc(pieces)) == PlainText(pieces)
  {
    hide PieceOk, Printed, StripOsc;
    if pieces == [] {
      assert StripOsc("") == "" by { NothingToRemove(); }
    } else {
      var p, rest := pieces[0], pieces[1..];
      OscsAreRemoved(rest);
      OneRemoved(p, AllPrinted(rest));
      if p.Osc? {
        assert [] + WithoutOsc(rest) == WithoutOsc(rest);
      } else {
        assert ([p] + WithoutOsc(rest))[1..] == WithoutOsc(rest);
      }
    }
  }

  lemma OneRemoved(p: Piece, rest: string)
    requires PieceOk(p)
    ensures StripOsc(Printed(p) + rest) == (if p.Osc? then "" else Printed(p)) + StripOsc(rest)
  {
    match p
    case Plain(text) => PlainPasses(text, rest);
    case Osc(_, _) => OscIsRemoved(p, rest);
    case Csi(_, _, _) => CsiPassesOsc(p, rest);
  }

  lemma NothingToRemove()
    ensures StripOsc("") == "" && StripCsi("") == ""
  {
  }

  lemma {:induction false} CsisAreRemoved(pieces: seq<Piece>)
    requires AllOk(pieces) && forall i | 0 <= i < |pieces| :: !pieces[i].Osc?
    ensures StripCsi(AllPrinted(pieces)) == PlainText(pieces)
  {
    hide PieceOk, Printed, StripCsi;
    if pieces == [] {
      NothingToRemove();
    } else {
      CsisAreRemoved(pieces[1..]);
      OneCsiRemoved(pieces[0], AllPrinted(pieces[1..]));
    }
  }

  lemma OneCsiRemoved(p: Piece, rest: string)
    requires PieceOk(p) && !p.Osc?
    ensures StripCsi(Printed(p) + rest) == (if p.Plain? then p.text else "") + StripCsi(rest)
  {
    match p
    case Plain(text) => PlainPasses(text, rest);
    case Csi(_, _, _) => CsiIsRemoved(p, rest);
  }

  lemma {:induction false} NoOscLeft(pieces: seq<Piece>)
    ensures forall i | 0 <= i < |WithoutOsc(pieces)| :: !WithoutOsc(pieces)[i].Osc?
  {
    if pieces == [] {
    } else {
      NoOscLeft(pieces[1..]);
    }
  }

  /** Of terminal output made of text and whole escapes, exactly the text is left, without its carriage returns. */
  lemma EscapesAreStripped(pieces: seq<Piece>)
    requires AllOk(pieces)
    ensures StripAnsi(AllPrinted(pieces)) == DropReturns(PlainText(pieces))
  {
    hide AllPrinted, PlainText, WithoutOsc, StripOsc, StripCsi, DropReturns;
    OscsAreRemoved(pieces);
    NoOscLeft(pieces);
    CsisAreRemoved(WithoutOsc(pieces));
  }

  /** No carriage return is left, and the other characters keep their order. */
  lemma {:induction false} ReturnsAreDropped(s: string)
    ensures '\r' !in DropReturns(s)
    ensures multiset(DropReturns(s)) == multiset(s)['\r' := 0]
    ensures '\r' !in s ==> DropReturns(s) == s
  {
    if s == "" {
    } else {
      ReturnsAreDropped(s[1..]);
      assert s == [s[0]] + s[1..];
      assert DropReturns(s) == (if s[0] == '\r' then "" else [s[0]]) + DropReturns(s[1..]);
    }
  }

  // ------------------------------------------------------------ marker lines

  /** A marker line is the prefix and one word, with blanks around them. */
  ghost predicate PrefixAndWord(line: string, prefix: string) {
    exists left: string, word: string, right: string ::
      Blank(left) && Blank(right) && IsWord(word) && line == left + (prefix + word) + right
  }

  predicate IsWord(word: string) {
    word != "" && forall i | 0 <= i < |word| :: !IsSpace(word[i])
  }

  lemma MarkerLinesAre(line: string, prefix: string)
    requires prefix == BEGIN_PREFIX || prefix == END_PREFIX
    ensures IsMarkerLine(line, prefix) <==> PrefixAndWord(line, prefix)
  {
    if IsMarkerLine(line, prefix) {
      var left, right := TrimSplits(line);
      var word := Trim(line)[|prefix|..];
      assert Trim(line) == prefix + word && IsWord(word);
      assert line == left + (prefix + word) + right;
    }
    if PrefixAndWord(line, prefix) {
      var left, word, right :| Blank(left) && Blank(right) && IsWord(word) && line == left + (prefix + word) + right;
      var core := prefix + word;
      assert core[0] == 'A' && core[|core| - 1] == word[|word| - 1];
      TrimCore(left, core, right);
      forall i | |prefix| <= i < |core| ensures !IsSpace(core[i]) { assert core[i] == word[i - |prefix|]; }
    }
  }

  // ------------------------------------------------------------ replies

  /** beginBrokerReply and endBrokerReply. */
  function BeginReply(id: string): string {
    BEGIN_PREFIX + id
  }

  function EndReply(id: string): string {
    END_PREFIX + id
  }

  lemma IdIsWord(id: string)
    requires IsWorkItemId(id)
    ensures IsWord(id)
  {
    forall i | 0 <= i < |id| ensures !IsSpace(id[i]) { assert id[i] in id; }
  }

  lemma WordIsMarker(prefix: string, word: string)
    requires IsWord(word)
    ensures PrefixAndWord(prefix + word, prefix)
  {
    var left, right := "", "";
    assert Blank(left) && Blank(right) && prefix + word == left + (prefix + word) + right;
  }

  /** What the protocol prints is a frame: its BEGIN and END lines, for a work item id, around any body without END lines. */
  lemma ReplyIsFrame(id: string, body: seq<string>)
    requires IsWorkItemId(id) && NoEnd(body)
    ensures Framed([], BeginReply(id), body, EndReply(id), []).Valid()
  {
    IdIsWord(id);
    WordIsMarker(BEGIN_PREFIX, id);
    MarkerLinesAre(BeginReply(id), BEGIN_PREFIX);
    var word := EndReply(id);
    assert word[0] == 'A' && word[|word| - 1] == id[|id| - 1];
    TrimCore("", word, "");
    assert "" + word + "" == word;
    assert Trim(EndReply(id)) == END_PREFIX + id;
  }

  /** A printed reply, in whatever chunks it comes, is returned once, as its trimmed body. */
  lemma ReplyComesBack(chunks: seq<string>, id: string, body: seq<string>)
    requires EscFree(chunks) && IsWorkItemId(id) && NoEnd(body)
    requires Split(StripAnsi(Concat(chunks))) == [BeginReply(id)] + body + [EndReply(id)]
    ensures Frames(START, chunks) == [Trim(Unlines(body))]
  {
    hide Frames, Split, StripAnsi, BeginReply, EndReply, IsWorkItemId, NoEnd;
    var f := Framed([], BeginReply(id), body, EndReply(id), []);
    ReplyIsFrame(id, body);
    assert f.Lines() == [BeginReply(id)] + body + [EndReply(id)];
    OneFrameHoweverCut(chunks, f);
  }
}
