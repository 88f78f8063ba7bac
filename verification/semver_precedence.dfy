/** Agreement of the comparator with the precedence of SemVer 2.0.0, section 11. */
module SemverPrecedence {
  import opened JsText
  import opened Semver

  /** Section 9: a dot-separated identifier, numeric without leading zeroes, or with at least one letter or hyphen. */
  datatype Identifier = Numeric(n: nat) | Alphanumeric(text: string)

  datatype Version = Version(major: nat, minor: nat, patch: nat, pre: seq<Identifier>)

  predicate IsIdentifierChar(c: char) {
    IsDigit(c) || 'A' <= c <= 'Z' || 'a' <= c <= 'z' || c == '-'
  }

  ghost predicate IdentifierOk(id: Identifier) {
    id.Alphanumeric? ==>
      && id.text != "" && (forall i | 0 <= i < |id.text| :: IsIdentifierChar(id.text[i]))
      && exists i :: 0 <= i < |id.text| && !IsDigit(id.text[i])
  }

  ghost predicate VersionOk(v: Version) {
    forall i | 0 <= i < |v.pre| :: IdentifierOk(v.pre[i])
  }

  function PrintIdentifier(id: Identifier): string {
    match id
    case Numeric(n) => Dec(n)
    case Alphanumeric(text) => text
  }

  function PrintIdentifiers(ids: seq<Identifier>): (texts: seq<string>)
    ensures |texts| == |ids| && forall i | 0 <= i < |ids| :: texts[i] == PrintIdentifier(ids[i])
  {
    seq(|ids|, i requires 0 <= i < |ids| => PrintIdentifier(ids[i]))
  }

  function Core(v: Version): string {
    Join([Dec(v.major), Dec(v.minor), Dec(v.patch)], ".")
  }

  function Print(v: Version): string {
    if v.pre == [] then Core(v) else Core(v) + "-" + Join(PrintIdentifiers(v.pre), ".")
  }

  // ------------------------------------------------------------ section 11

  /** 11.4.1 to 11.4.3. */
  function IdentifierPrecedence(x: Identifier, y: Identifier): int {
    match (x, y)
    case (Numeric(m), Numeric(n)) => Order(m, n)
    case (Numeric(_), Alphanumeric(_)) => -1
    case (Alphanumeric(_), Numeric(_)) => 1
    case (Alphanumeric(s), Alphanumeric(t)) => TextOrder(s, t)
  }

  /** 11.4 and 11.4.4: from left to right until a difference; a larger set of fields is higher if all before are equal. */
  function FieldsPrecedence(a: seq<Identifier>, b: seq<Identifier>): int {
    if a == [] || b == [] then Order(|a|, |b|)
    else if IdentifierPrecedence(a[0], b[0]) != 0 then IdentifierPrecedence(a[0], b[0])
    else FieldsPrecedence(a[1..], b[1..])
  }

  /** 11.2 and 11.3: major, minor and patch numerically, then a pre-release below the normal version. */
  function Precedence(a: Version, b: Version): int {
    if a.major != b.major then Order(a.major, b.major)
    else if a.minor != b.minor then Order(a.minor, b.minor)
    else if a.patch != b.patch then Order(a.patch, b.patch)
    else if a.pre == [] || b.pre == [] then Order(if a.pre == [] then 1 else 0, if b.pre == [] then 1 else 0)
    else FieldsPrecedence(a.pre, b.pre)
  }

  // ------------------------------------------------------------ printed numbers

  lemma {:induction false} DecIsDigits(n: nat)
    ensures Dec(n) != "" && forall i | 0 <= i < |Dec(n)| :: IsDigit(Dec(n)[i])
  {
    if n < 10 {
    } else {
      DecIsDigits(n / 10);
    }
  }

  lemma {:induction false} DecValue(n: nat)
    ensures (forall i | 0 <= i < |Dec(n)| :: IsDigit(Dec(n)[i])) && Value(Dec(n)) == n
  {
    DecIsDigits(n);
    if n < 10 {
      assert Dec(n)[..0] == "" && Value("") == 0;
    } else {
      DecValue(n / 10);
      assert Dec(n)[..|Dec(n)| - 1] == Dec(n / 10);
    }
  }

  lemma {:induction false} LeadingDigitsOf(digits: string, rest: string)
    requires forall i | 0 <= i < |digits| :: IsDigit(digits[i])
    requires rest == "" || !IsDigit(rest[0])
    ensures LeadingDigits(digits + rest) == digits
  {
    if digits == "" {
      assert digits + rest == rest;
    } else {
      assert (digits + rest)[1..] == digits[1..] + rest;
      LeadingDigitsOf(digits[1..], rest);
    }
  }

  /** A number is read up to the first character that is no digit. */
  lemma ParseDec(n: nat, rest: string)
    requires rest == "" || !IsDigit(rest[0])
    ensures ParseInt(Dec(n) + rest) == n
  {
    DecIsDigits(n);
    DecValue(n);
    var s := Dec(n) + rest;
    assert s[0] == Dec(n)[0] && IsDigit(s[0]);
    assert TrimStart(s) == s;
    LeadingDigitsOf(Dec(n), rest);
  }

  lemma NumericIsPrinted(id: Identifier)
    requires IdentifierOk(id)
    ensures IsNumeric(PrintIdentifier(id)) <==> id.Numeric?
    ensures id.Numeric? ==> Value(PrintIdentifier(id)) == id.n
  {
    if id.Numeric? {
      DecIsDigits(id.n);
      DecValue(id.n);
    }
  }

  // ------------------------------------------------------------ parsing printed versions

  lemma {:induction false} CutIs(core: string, pre: string)
    requires '-' !in core
    ensures CutAtHyphen(core) == (core, "") && CutAtHyphen(core + "-" + pre) == (core, pre)
  {
    if core == "" {
      assert core + "-" + pre == "-" + pre;
      assert ("-" + pre)[1..] == pre;
    } else {
      assert core[0] in core;
      var text := core + "-" + pre;
      assert text[1..] == core[1..] + "-" + pre && text[0] == core[0];
      CutIs(core[1..], pre);
      assert [core[0]] + core[1..] == core;
    }
  }

  lemma DigitsHave(n: nat, c: char)
    requires !IsDigit(c)
    ensures c !in Dec(n)
  {
    DecIsDigits(n);
  }

  lemma CoreIs(v: Version)
    ensures Core(v) == Dec(v.major) + "." + (Dec(v.minor) + "." + Dec(v.patch))
  {
    var parts := [Dec(v.major), Dec(v.minor), Dec(v.patch)];
    assert parts[1..] == [Dec(v.minor), Dec(v.patch)];
    var two := [Dec(v.minor), Dec(v.patch)];
    assert two[1..] == [Dec(v.patch)];
    assert Join(two, ".") == Dec(v.minor) + "." + Dec(v.patch);
    assert Join(parts, ".") == parts[0] + "." + Join(two, ".");
  }

  /** What follows the patch number may be anything that starts with no digit and holds no hyphen. */
  lemma ParseCore(v: Version, tail: string, pre: string)
    requires '-' !in tail && (tail == "" || !IsDigit(tail[0]))
    ensures Parse(Core(v) + tail) == Parsed(v.major, v.minor, v.patch, [])
    ensures Parse(Core(v) + tail + "-" + pre) == Parsed(v.major, v.minor, v.patch, if pre == "" then [] else Split(pre, '.'))
  {
    var core := Core(v) + tail;
    CoreIs(v);
    DigitsHave(v.major, '-');
    DigitsHave(v.minor, '-');
    DigitsHave(v.patch, '-');
    DecIsDigits(v.major);
    assert core[0] == Dec(v.major)[0] && IsDigit(core[0]);
    CutIs(core, pre);
    assert (core + "-" + pre)[0] == core[0];
    NumbersOf(v, tail);
  }

  lemma NumbersOf(v: Version, tail: string)
    requires tail == "" || !IsDigit(tail[0])
    ensures var parts := Split(Core(v) + tail, '.');
      NumberAt(parts, 0) == v.major && NumberAt(parts, 1) == v.minor && NumberAt(parts, 2) == v.patch
  {
    var rest := Split(tail, '.');
    CoreParts(v);
    SplitAppend(Core(v), tail, '.');
    var parts := Split(Core(v) + tail, '.');
    var last := Dec(v.patch) + rest[0];
    GlueThree(Dec(v.major), Dec(v.minor), Dec(v.patch), rest);
    ParseDec(v.major, "");
    ParseDec(v.minor, "");
    assert Dec(v.major) + "" == Dec(v.major) && Dec(v.minor) + "" == Dec(v.minor);
    FirstPart(tail);
    ParseDec(v.patch, rest[0]);
  }

  lemma GlueThree(a: string, b: string, c: string, rest: seq<string>)
    requires rest != []
    ensures Glue([a, b, c], rest) == [a, b, c + rest[0]] + rest[1..]
  {
    assert [a, b, c][..2] == [a, b];
  }

  lemma FirstPart(tail: string)
    requires tail == "" || !IsDigit(tail[0])
    ensures var first := Split(tail, '.')[0]; first == "" || !IsDigit(first[0])
  {
  }

  lemma CoreParts(v: Version)
    ensures Split(Core(v), '.') == [Dec(v.major), Dec(v.minor), Dec(v.patch)]
  {
    var parts := [Dec(v.major), Dec(v.minor), Dec(v.patch)];
    DigitsHave(v.major, '.');
    DigitsHave(v.minor, '.');
    DigitsHave(v.patch, '.');
    SplitJoin(parts, '.');
  }

  lemma IdentifierIsWhole(id: Identifier)
    requires IdentifierOk(id)
    ensures PrintIdentifier(id) != "" && '.' !in PrintIdentifier(id)
  {
    if id.Numeric? {
      DecIsDigits(id.n);
      DigitsHave(id.n, '.');
    }
  }

  lemma PreParts(ids: seq<Identifier>)
    requires ids != [] && forall i | 0 <= i < |ids| :: IdentifierOk(ids[i])
    ensures var text := Join(PrintIdentifiers(ids), "."); text != "" && Split(text, '.') == PrintIdentifiers(ids)
  {
    var texts := PrintIdentifiers(ids);
    forall i | 0 <= i < |texts|
      ensures '.' !in texts[i]
    {
      IdentifierIsWhole(ids[i]);
    }
    SplitJoin(texts, '.');
    IdentifierIsWhole(ids[0]);
    assert |Join(texts, ".")| >= |texts[0]|;
  }

  lemma ParsePrint(v: Version)
    requires VersionOk(v)
    ensures Parse(Print(v)) == Parsed(v.major, v.minor, v.patch, PrintIdentifiers(v.pre))
  {
    assert Core(v) + "" == Core(v);
    if v.pre == [] {
      ParseCore(v, "", "");
    } else {
      ParseCore(v, "", Join(PrintIdentifiers(v.pre), "."));
      PreParts(v.pre);
    }
  }

  // ------------------------------------------------------------ agreement

  lemma IdentifierAgrees(x: Identifier, y: Identifier)
    requires IdentifierOk(x) && IdentifierOk(y)
    ensures IdentifierOrder(PrintIdentifier(x), PrintIdentifier(y)) == IdentifierPrecedence(x, y)
  {
    NumericIsPrinted(x);
    NumericIsPrinted(y);
  }

  lemma {:induction false} FieldsAgree(a: seq<Identifier>, b: seq<Identifier>)
    requires forall i | 0 <= i < |a| :: IdentifierOk(a[i])
    requires forall i | 0 <= i < |b| :: IdentifierOk(b[i])
    ensures ListOrder(PrintIdentifiers(a), PrintIdentifiers(b)) == FieldsPrecedence(a, b)
  {
    if a == [] || b == [] {
    } else {
      IdentifierAgrees(a[0], b[0]);
      FieldsAgree(a[1..], b[1..]);
      assert PrintIdentifiers(a)[1..] == PrintIdentifiers(a[1..]);
      assert PrintIdentifiers(b)[1..] == PrintIdentifiers(b[1..]);
    }
  }

  /** For all versions without build metadata the comparator gives the precedence of section 11. */
  lemma AgreesWithSemver(a: Version, b: Version)
    requires VersionOk(a) && VersionOk(b)
    ensures Compare(Print(a), Print(b)) == Precedence(a, b)
  {
    ParsePrint(a);
    ParsePrint(b);
    if a.pre != [] && b.pre != [] {
      FieldsAgree(a.pre, b.pre);
    }
  }

  // ------------------------------------------------------------ build metadata

  /** Section 10: dot-separated identifiers after a plus sign, to be ignored. */
  predicate BuildOk(build: string) {
    build != "" && forall i | 0 <= i < |build| :: IsIdentifierChar(build[i]) || build[i] == '.'
  }

  lemma {:induction false} CutSplits(s: string) returns (core: string, pre: string)
    requires '-' in s
    ensures s == core + "-" + pre && '-' !in core && CutAtHyphen(s) == (core, pre)
  {
    if s[0] == '-' {
      core, pre := "", s[1..];
    } else {
      var c, p := CutSplits(s[1..]);
      core, pre := [s[0]] + c, p;
    }
  }

  /** The comparator does not know build metadata: it ignores it exactly after a normal version, up to a final hyphen. */
  lemma BuildIsIgnoredWhen(v: Version, build: string)
    requires VersionOk(v) && BuildOk(build)
    ensures Compare(Print(v) + "+" + build, Print(v)) == 0 <==> v.pre == [] && '-' !in build[..|build| - 1]
  {
    ParsePrint(v);
    if v.pre == [] {
      BuildAfterNormal(v, build);
    } else {
      BuildAfterPre(v, build);
    }
  }

  lemma BuildAfterNormal(v: Version, build: string)
    requires VersionOk(v) && BuildOk(build) && v.pre == []
    ensures Compare(Print(v) + "+" + build, Print(v)) == if '-' in build[..|build| - 1] then -1 else 0
  {
    hide Parse, Split, Core, VersionOk;
    ParsePrint(v);
    assert PrintIdentifiers(v.pre) == [];
    if '-' in build {
      var pre := BuildWithHyphen(v, build);
    } else {
      NoHyphenInFront(build);
      Regroup(Core(v), build);
      ParseCore(v, "+" + build, "");
    }
  }

  lemma Regroup(core: string, build: string)
    ensures core + "+" + build == core + ("+" + build)
  {
  }

  lemma NoHyphenInFront(build: string)
    requires build != "" && '-' !in build
    ensures '-' !in build[..|build| - 1]
  {
    assert build == build[..|build| - 1] + [build[|build| - 1]];
  }

  /** What follows the first hyphen of the build metadata is taken for a pre-release. */
  lemma BuildWithHyphen(v: Version, build: string) returns (pre: string)
    requires v.pre == [] && '-' in build
    ensures Parse(Print(v) + "+" + build) == Parsed(v.major, v.minor, v.patch, if pre == "" then [] else Split(pre, '.'))
    ensures pre == "" <==> '-' !in build[..|build| - 1]
  {
    var core: string;
    core, pre := CutSplits(build);
    assert Print(v) + "+" + build == Core(v) + ("+" + core) + "-" + pre;
    ParseCore(v, "+" + core, pre);
    if pre == "" {
      assert build[..|build| - 1] == core;
    } else {
      assert build[|core|] == '-' && build[..|build| - 1][|core|] == '-';
    }
  }

  lemma ParseWithBuild(v: Version, build: string)
    requires VersionOk(v) && v.pre != []
    ensures Parse(Print(v) + "+" + build)
         == Parsed(v.major, v.minor, v.patch, Glue(PrintIdentifiers(v.pre), Split("+" + build, '.')))
  {
    var text, tail := Join(PrintIdentifiers(v.pre), "."), "+" + build;
    PreParts(v.pre);
    assert Core(v) + "" == Core(v);
    assert Print(v) + "+" + build == Core(v) + "" + "-" + (text + tail);
    ParseCore(v, "", text + tail);
    SplitAppend(text, tail, '.');
  }

  lemma BuildAfterPre(v: Version, build: string)
    requires VersionOk(v) && BuildOk(build) && v.pre != []
    ensures Compare(Print(v) + "+" + build, Print(v)) == 1
  {
    hide Parse, Print, Core, Split, IsNumeric;
    var texts, rest := PrintIdentifiers(v.pre), Split("+" + build, '.');
    ParsePrint(v);
    ParseWithBuild(v, build);
    PlusFirst(build);
    var n := |texts| - 1;
    IdentifierIsWhole(v.pre[n]);
    LongerIsHigher(texts[..n], texts[n], rest[0], rest[1..]);
    assert texts == texts[..n] + [texts[n]];
    assert Glue(texts, rest) == texts[..n] + [texts[n] + rest[0]] + rest[1..];
  }

  lemma PlusFirst(build: string)
    ensures var first := Split("+" + build, '.')[0]; first != "" && first[0] == '+'
  {
  }

  lemma {:induction false} LongerIsHigher(front: seq<string>, last: string, more: string, rest: seq<string>)
    requires last != "" && more != "" && !IsDigit(more[0])
    ensures ListOrder(front + [last + more] + rest, front + [last]) == 1
  {
    var a, b := front + [last + more] + rest, front + [last];
    if front == [] {
      assert a == [last + more] + rest && b == [last];
      assert (last + more)[|last|] == more[0];
      TextGrows(last, more);
    } else {
      TextTies(front[0], front[0]);
      assert a[1..] == front[1..] + [last + more] + rest && b[1..] == front[1..] + [last];
      LongerIsHigher(front[1..], last, more, rest);
    }
  }

  lemma {:induction false} TextGrows(x: string, more: string)
    requires more != ""
    ensures TextOrder(x + more, x) == 1
  {
    if x == "" {
    } else {
      assert (x + more)[1..] == x[1..] + more;
      TextGrows(x[1..], more);
    }
  }

  // ------------------------------------------------------------ a leading v, and missing or further parts

  /** One leading v makes no difference, on either side, whatever follows it. */
  lemma LeadingVIgnored(a: string, b: string)
    requires a == "" || a[0] != 'v'
    ensures Compare("v" + a, b) == Compare(a, b) && Compare(b, "v" + a) == Compare(b, a)
  {
    assert ("v" + a)[1..] == a;
  }

  function Dotted(numbers: seq<nat>): string {
    Join(seq(|numbers|, i requires 0 <= i < |numbers| => Dec(numbers[i])), ".")
  }

  lemma {:induction false} JoinHasNo(parts: seq<string>, separator: string, c: char)
    requires c !in separator && forall i | 0 <= i < |parts| :: c !in parts[i]
    ensures c !in Join(parts, separator)
  {
    if |parts| <= 1 {
    } else {
      JoinHasNo(parts[1..], separator, c);
    }
  }

  /** Of dotted numbers the first three count; those missing are zero, and further ones are ignored. */
  lemma DottedNumbers(numbers: seq<nat>)
    requires numbers != []
    ensures var p := Parse(Dotted(numbers));
      && p.pre == []
      && forall i: nat | i < 3 :: p.Main(i) == if i < |numbers| then numbers[i] else 0
  {
    var parts := seq(|numbers|, i requires 0 <= i < |numbers| => Dec(numbers[i]));
    forall i | 0 <= i < |parts| ensures '.' !in parts[i] && '-' !in parts[i] && ParseInt(parts[i]) == numbers[i] {
      DigitsHave(numbers[i], '.');
      DigitsHave(numbers[i], '-');
      ParseDec(numbers[i], "");
      assert Dec(numbers[i]) + "" == Dec(numbers[i]);
    }
    JoinHasNo(parts, ".", '-');
    CutIs(Dotted(numbers), "");
    SplitJoin(parts, '.');
    DecIsDigits(numbers[0]);
    assert parts[0] <= Dotted(numbers);
  }
}
