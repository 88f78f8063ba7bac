/** The brace scanner that recovers JSON objects from prose (extract-json-object-candidates.ts). */
module JsonScanner {
  /** The scanner between two characters; `text` is the candidate read so far, from its opening brace. */
  datatype Scanner = Scanner(text: string, depth: nat, inString: bool, escaping: bool, candidates: seq<string>)

  const FRESH := Scanner("", 0, false, false, [])

  function Step(s: Scanner, c: char): Scanner {
    if s.depth > 0 && s.inString then
      var t := s.(text := s.text + [c]);
      if s.escaping then t.(escaping := false)
      else if c == '\\' then t.(escaping := true)
      else if c == '"' then t.(inString := false)
      else t
    else if c == '{' then s.(text := if s.depth == 0 then "{" else s.text + "{", depth := s.depth + 1)
    else if s.depth == 0 then s
    else if c == '"' then s.(text := s.text + "\"", inString := true)
    else if c == '}' && s.depth == 1 then s.(text := "", depth := 0, candidates := s.candidates + [s.text + "}"])
    else s.(text := s.text + [c], depth := if c == '}' then s.depth - 1 else s.depth)
  }

  function Run(s: Scanner, text: string): Scanner
    decreases text
  {
    if text == "" then s else Run(Step(s, text[0]), text[1..])
  }

  function Candidates(text: string): seq<string> {
    Run(FRESH, text).candidates
  }

  /** extractJsonObjectCandidates: the same scan, keeping the index where the open candidate starts. */
  method ExtractJsonObjectCandidates(stdout: string) returns (candidates: seq<string>)
    ensures candidates == Candidates(stdout)
  {
    candidates := [];
    var start, depth, inString, escaping := -1, 0, false, false;
    ghost var s := FRESH;
    var index := 0;
    while index < |stdout|
      invariant 0 <= index <= |stdout| && -1 <= start < index as int && 0 <= depth
      invariant start == -1 <==> depth == 0
      invariant s == Scanner(if start == -1 then "" else stdout[start..index], depth, inString, escaping, candidates)
      invariant Run(s, stdout[index..]) == Run(FRESH, stdout)
      invariant depth == 0 ==> !inString
    {
      var c := stdout[index];
      s := Step(s, c);
      assert stdout[index..][1..] == stdout[index + 1..];
      assert start != -1 ==> stdout[start..index + 1] == stdout[start..index] + [c];
      index := index + 1;
      if start != -1 && inString {
        if escaping {
          escaping := false;
          continue;
        }
        if c == '\\' {
          escaping := true;
          continue;
        }
        if c == '"' {
          inString := false;
        }
        continue;
      }
      if c == '{' {
        if depth == 0 {
          start := index - 1;
        }
        depth := depth + 1;
        continue;
      }
      if depth == 0 {
        continue;
      }
      if c == '"' {
        inString := true;
        continue;
      }
      if c == '}' {
        depth := depth - 1;
        if depth == 0 && start != -1 {
          candidates := candidates + [stdout[start..index]];
          start := -1;
        }
      }
    }
  }

  // ------------------------------------------------------------ JSON texts (RFC 8259)

  /** Section 7: an unescaped character, a two-character escape, or a four-digit escape. */
  datatype StringPart = Plain(c: char) | Escape(c: char) | Unicode(hex: string) {
    predicate Valid() {
      match this
      case Plain(c) => c >= ' ' && c != '"' && c != '\\'
      case Escape(c) => c in "\"\\/bfnrt"
      case Unicode(hex) => |hex| == 4 && forall h | h in hex :: IsHex(h)
    }

    function Print(): string {
      match this
      case Plain(c) => [c]
      case Escape(c) => ['\\', c]
      case Unicode(hex) => "\\u" + hex
    }
  }

  predicate IsHex(h: char) {
    '0' <= h <= '9' || 'a' <= h <= 'f' || 'A' <= h <= 'F'
  }

  /** Section 2. */
  predicate IsBlank(s: string) {
    forall c | c in s :: c == ' ' || c == '\t' || c == '\n' || c == '\r'
  }

  /** A scalar is a number or a literal name; all that matters here is that neither holds a brace or a quote. */
  datatype Json =
    | Scalar(text: string)
    | Text(parts: seq<StringPart>)
    | Array(elements: seq<Element>, inside: string)
    | Object(members: seq<Member>, inside: string)

  /** A value with the white space around it. */
  datatype Element = Element(before: string, value: Json, after: string)

  datatype Member = Member(name: seq<StringPart>, beforeName: string, afterName: string, value: Element)

  ghost predicate PartsOk(parts: seq<StringPart>) {
    forall p | p in parts :: p.Valid()
  }

  ghost predicate Ok(v: Json)
    decreases v
  {
    match v
    case Scalar(text) => '{' !in text && '}' !in text && '"' !in text
    case Text(parts) => PartsOk(parts)
    case Array(elements, inside) => IsBlank(inside) && forall e | e in elements :: ElementOk(e)
    case Object(members, inside) => IsBlank(inside) && forall m | m in members :: MemberOk(m)
  }

  ghost predicate ElementOk(e: Element)
    decreases e
  {
    IsBlank(e.before) && IsBlank(e.after) && Ok(e.value)
  }

  ghost predicate MemberOk(m: Member)
    decreases m
  {
    PartsOk(m.name) && IsBlank(m.beforeName) && IsBlank(m.afterName) && ElementOk(m.value)
  }

  function PrintParts(parts: seq<StringPart>): string {
    if parts == [] then "" else parts[0].Print() + PrintParts(parts[1..])
  }

  function PrintString(parts: seq<StringPart>): string {
    "\"" + PrintParts(parts) + "\""
  }

  function Print(v: Json): string
    decreases v
  {
    match v
    case Scalar(text) => text
    case Text(parts) => PrintString(parts)
    case Array(elements, inside) => "[" + (if elements == [] then inside else PrintElements(elements)) + "]"
    case Object(members, inside) => "{" + (if members == [] then inside else PrintMembers(members)) + "}"
  }

  function PrintElement(e: Element): string
    decreases e
  {
    e.before + Print(e.value) + e.after
  }

  function PrintElements(elements: seq<Element>): string
    requires elements != []
    decreases elements
  {
    if |elements| == 1 then PrintElement(elements[0])
    else PrintElement(elements[0]) + "," + PrintElements(elements[1..])
  }

  function PrintMember(m: Member): string
    decreases m
  {
    m.beforeName + PrintString(m.name) + m.afterName + ":" + PrintElement(m.value)
  }

  function PrintMembers(members: seq<Member>): string
    requires members != []
    decreases members
  {
    if |members| == 1 then PrintMember(members[0])
    else PrintMember(members[0]) + "," + PrintMembers(members[1..])
  }

  // ------------------------------------------------------------ scanning printed values

  lemma {:induction false} RunConcat(s: Scanner, a: string, b: string)
    ensures Run(s, a + b) == Run(Run(s, a), b)
    decreases a
  {
    if a == "" {
      assert a + b == b;
    } else {
      assert (a + b)[1..] == a[1..] + b;
      RunConcat(Step(s, a[0]), a[1..], b);
    }
  }

  /** Reading `text` only makes the open candidate longer. */
  ghost predicate Passes(s: Scanner, text: string) {
    Run(s, text) == s.(text := s.text + text)
  }

  /** The scanner is inside a candidate and outside its strings. */
  predicate Inside(s: Scanner) {
    s.depth > 0 && !s.inString && !s.escaping
  }

  lemma PassesBoth(s: Scanner, a: string, b: string)
    requires Passes(s, a) && Passes(s.(text := s.text + a), b)
    ensures Passes(s, a + b)
  {
    RunConcat(s, a, b);
    assert s.text + (a + b) == s.text + a + b;
  }

  lemma {:induction false} PassPlain(s: Scanner, text: string)
    requires Inside(s) && '{' !in text && '}' !in text && '"' !in text
    ensures Passes(s, text)
    decreases text
  {
    if text == "" {
      assert s.text + "" == s.text;
    } else {
      assert text[0] in text;
      PassPlain(s.(text := s.text + [text[0]]), text[1..]);
      assert s.text + [text[0]] + text[1..] == s.text + text;
    }
  }

  lemma PassPart(s: Scanner, part: StringPart)
    requires s.depth > 0 && s.inString && !s.escaping && part.Valid()
    ensures Passes(s, part.Print())
  {
    match part
    case Plain(c) =>
      assert [c][1..] == "";
    case Escape(c) =>
      PassEscape(s, c);
    case Unicode(hex) =>
      PassEscape(s, 'u');
      assert part.Print() == ['\\', 'u'] + hex;
      PassHex(s.(text := s.text + ['\\', 'u']), hex);
      PassesBoth(s, ['\\', 'u'], hex);
  }

  lemma PassEscape(s: Scanner, c: char)
    requires s.depth > 0 && s.inString && !s.escaping
    ensures Passes(s, ['\\', c])
  {
    var t := Step(s, '\\');
    assert ['\\', c][1..] == [c] && [c][1..] == "";
    assert Run(s, ['\\', c]) == Run(t, [c]) == Step(t, c);
    assert s.text + ['\\'] + [c] == s.text + ['\\', c];
  }

  lemma {:induction false} PassHex(s: Scanner, hex: string)
    requires s.depth > 0 && s.inString && !s.escaping && forall h | h in hex :: IsHex(h)
    ensures Passes(s, hex)
    decreases hex
  {
    if hex == "" {
      assert s.text + "" == s.text;
    } else {
      assert hex[0] in hex;
      PassHex(s.(text := s.text + [hex[0]]), hex[1..]);
      assert s.text + [hex[0]] + hex[1..] == s.text + hex;
    }
  }

  lemma {:induction false} PassParts(s: Scanner, parts: seq<StringPart>)
    requires s.depth > 0 && s.inString && !s.escaping && PartsOk(parts)
    ensures Passes(s, PrintParts(parts))
    decreases parts
  {
    if parts == [] {
      assert s.text + "" == s.text;
    } else {
      assert parts[0] in parts;
      var first := parts[0].Print();
      PassPart(s, parts[0]);
      PassParts(s.(text := s.text + first), parts[1..]);
      PassesBoth(s, first, PrintParts(parts[1..]));
    }
  }

  /** The closing quote that ends a string is the one that was printed, whatever the string holds. */
  lemma PassString(s: Scanner, parts: seq<StringPart>)
    requires Inside(s) && PartsOk(parts)
    ensures Passes(s, PrintString(parts))
  {
    var body := PrintParts(parts);
    var within := s.(text := s.text + "\"", inString := true);
    PassParts(within, parts);
    var text := PrintString(parts);
    assert text[1..] == body + "\"";
    RunConcat(within, body, "\"");
    assert Run(s, text) == Run(within, body + "\"");
    assert "\""[1..] == "";
    assert s.text + "\"" + body + "\"" == s.text + text;
  }

  lemma {:induction false} PassValue(s: Scanner, v: Json)
    requires Inside(s) && Ok(v)
    ensures Passes(s, Print(v))
    decreases v
  {
    match v
    case Scalar(text) =>
      PassPlain(s, text);
    case Text(parts) =>
      PassString(s, parts);
    case Array(elements, inside) =>
      var text := if elements == [] then inside else PrintElements(elements);
      PassPlain(s, "[");
      var t := s.(text := s.text + "[");
      if elements == [] {
        PassPlain(t, inside);
      } else {
        PassElements(t, elements);
      }
      PassesBoth(s, "[", text);
      PassPlain(s.(text := s.text + ("[" + text)), "]");
      PassesBoth(s, "[" + text, "]");
    case Object(members, inside) =>
      var text := ObjectBody(v);
      var within := s.(text := s.text + "{", depth := s.depth + 1);
      PassBody(within, v);
      assert Print(v) == "{" + text + "}";
      assert Print(v)[1..] == text + "}";
      RunConcat(within, text, "}");
      assert "}"[1..] == "";
      assert s.text + "{" + text + "}" == s.text + Print(v);
  }

  function ObjectBody(v: Json): string
    requires v.Object?
  {
    if v.members == [] then v.inside else PrintMembers(v.members)
  }

  lemma {:induction false} PassBody(s: Scanner, v: Json)
    requires Inside(s) && v.Object? && Ok(v)
    ensures Passes(s, ObjectBody(v))
    decreases v, 0
  {
    if v.members == [] {
      PassPlain(s, v.inside);
    } else {
      PassMembers(s, v.members);
    }
  }

  lemma {:induction false} PassElement(s: Scanner, e: Element)
    requires Inside(s) && ElementOk(e)
    ensures Passes(s, PrintElement(e))
    decreases e
  {
    PassPlain(s, e.before);
    var t := s.(text := s.text + e.before);
    PassValue(t, e.value);
    PassesBoth(s, e.before, Print(e.value));
    var text := e.before + Print(e.value);
    PassPlain(s.(text := s.text + text), e.after);
    PassesBoth(s, text, e.after);
  }

  lemma {:induction false} PassElements(s: Scanner, elements: seq<Element>)
    requires Inside(s) && elements != [] && forall e | e in elements :: ElementOk(e)
    ensures Passes(s, PrintElements(elements))
    decreases elements
  {
    assert elements[0] in elements;
    PassElement(s, elements[0]);
    if |elements| <= 1 {
    } else {
      var first := PrintElement(elements[0]);
      PassPlain(s.(text := s.text + first), ",");
      PassesBoth(s, first, ",");
      PassElements(s.(text := s.text + (first + ",")), elements[1..]);
      PassesBoth(s, first + ",", PrintElements(elements[1..]));
    }
  }

  lemma {:induction false} PassMember(s: Scanner, m: Member)
    requires Inside(s) && MemberOk(m)
    ensures Passes(s, PrintMember(m))
    decreases m
  {
    PassPlain(s, m.beforeName);
    PassString(s.(text := s.text + m.beforeName), m.name);
    PassesBoth(s, m.beforeName, PrintString(m.name));
    var a := m.beforeName + PrintString(m.name);
    PassPlain(s.(text := s.text + a), m.afterName);
    PassesBoth(s, a, m.afterName);
    var b := a + m.afterName;
    PassPlain(s.(text := s.text + b), ":");
    PassesBoth(s, b, ":");
    PassElement(s.(text := s.text + (b + ":")), m.value);
    PassesBoth(s, b + ":", PrintElement(m.value));
  }

  lemma {:induction false} PassMembers(s: Scanner, members: seq<Member>)
    requires Inside(s) && members != [] && forall m | m in members :: MemberOk(m)
    ensures Passes(s, PrintMembers(members))
    decreases members
  {
    assert members[0] in members;
    PassMember(s, members[0]);
    if |members| <= 1 {
    } else {
      var first := PrintMember(members[0]);
      PassPlain(s.(text := s.text + first), ",");
      PassesBoth(s, first, ",");
      PassMembers(s.(text := s.text + (first + ",")), members[1..]);
      PassesBoth(s, first + ",", PrintMembers(members[1..]));
    }
  }

  // ------------------------------------------------------------ the objects in the prose

  lemma {:induction false} SkipProse(s: Scanner, prose: string)
    requires s.depth == 0 && !s.inString && '{' !in prose
    ensures Run(s, prose) == s
    decreases prose
  {
    if prose == "" {
    } else {
      assert prose[0] in prose;
      SkipProse(s, prose[1..]);
    }
  }

  lemma TakeObject(found: seq<string>, v: Json)
    requires v.Object? && Ok(v)
    ensures Run(FRESH.(candidates := found), Print(v)) == FRESH.(candidates := found + [Print(v)])
  {
    var s := FRESH.(candidates := found);
    var within := s.(text := "{", depth := 1);
    PassBody(within, v);
    var text := ObjectBody(v);
    assert Print(v) == "{" + text + "}";
    assert Print(v)[1..] == text + "}";
    RunConcat(within, text, "}");
    assert "}"[1..] == "";
  }

  /** An object, and the prose between it and the next object. */
  datatype Piece = Piece(value: Json, prose: string)

  ghost predicate PieceOk(p: Piece) {
    p.value.Object? && Ok(p.value) && '{' !in p.prose
  }

  function Weave(pieces: seq<Piece>): string {
    if pieces == [] then "" else Print(pieces[0].value) + pieces[0].prose + Weave(pieces[1..])
  }

  function Printed(pieces: seq<Piece>): seq<string> {
    if pieces == [] then [] else [Print(pieces[0].value)] + Printed(pieces[1..])
  }

  lemma {:induction false} TakePieces(found: seq<string>, pieces: seq<Piece>)
    requires forall p | p in pieces :: PieceOk(p)
    ensures Run(FRESH.(candidates := found), Weave(pieces)).candidates == found + Printed(pieces)
    decreases pieces
  {
    if pieces == [] {
      assert found + Printed(pieces) == found;
    } else {
      hide Run, Print;
      assert pieces[0] in pieces;
      var printed, prose := Print(pieces[0].value), pieces[0].prose;
      TakeObject(found, pieces[0].value);
      RunConcat(FRESH.(candidates := found), printed, prose);
      SkipProse(FRESH.(candidates := found + [printed]), prose);
      RunConcat(FRESH.(candidates := found), printed + prose, Weave(pieces[1..]));
      TakePieces(found + [printed], pieces[1..]);
      assert found + Printed(pieces) == found + [printed] + Printed(pieces[1..]);
    }
  }

  /** Printed objects come back exactly, in order, out of any prose without an opening brace. */
  lemma ObjectsAreRecovered(prose: string, pieces: seq<Piece>)
    requires '{' !in prose && forall p | p in pieces :: PieceOk(p)
    ensures Candidates(prose + Weave(pieces)) == Printed(pieces)
  {
    RunConcat(FRESH, prose, Weave(pieces));
    SkipProse(FRESH, prose);
    TakePieces([], pieces);
  }

  /** The condition on the prose is needed: one stray opening brace before an object hides it. */
  lemma StrayBraceHides(v: Json)
    requires v.Object? && Ok(v)
    ensures Candidates("{" + Print(v)) == []
  {
    var within := FRESH.(text := "{", depth := 1);
    assert ("{" + Print(v))[1..] == Print(v);
    PassValue(within, v);
  }

  // ------------------------------------------------------------ any input

  /** What was read since the open candidate began leads a fresh scanner to the same place. */
  ghost predicate StandsAlone(s: Scanner) {
    && (s.depth > 0 ==> Run(FRESH, s.text) == s.(candidates := []))
    && (s.depth == 0 ==> s.text == "" && !s.inString)
    && (s.escaping ==> s.inString)
    && forall c | c in s.candidates :: Candidates(c) == [c]
  }

  lemma StepStandsAlone(s: Scanner, c: char)
    requires StandsAlone(s)
    ensures StandsAlone(Step(s, c))
  {
    RunConcat(FRESH, s.text, [c]);
    assert [c][1..] == "";
    assert s.depth == 0 ==> s.text + [c] == [c];
  }

  lemma {:induction false} RunStandsAlone(s: Scanner, text: string)
    requires StandsAlone(s)
    ensures StandsAlone(Run(s, text))
    decreases text
  {
    if text == "" {
    } else {
      StepStandsAlone(s, text[0]);
      RunStandsAlone(Step(s, text[0]), text[1..]);
    }
  }

  /** Whatever the input, each candidate is balanced by itself: scanned alone it gives itself and nothing else. */
  lemma CandidatesStandAlone(stdout: string, candidate: string)
    requires candidate in Candidates(stdout)
    ensures Candidates(candidate) == [candidate]
  {
    RunStandsAlone(FRESH, stdout);
  }
}
