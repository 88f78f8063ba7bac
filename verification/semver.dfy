/** The version comparator (semver-compare.ts), and that it is a total preorder on all strings. */
module Semver {
  import opened JsText

  datatype Parsed = Parsed(major: nat, minor: nat, patch: nat, pre: seq<string>) {
    function Main(i: nat): nat
      requires i < 3
    {
      if i == 0 then major else if i == 1 then minor else patch
    }
  }

  // ------------------------------------------------------------ parse

  predicate IsDigit(c: char) {
    '0' <= c <= '9'
  }

  function LeadingDigits(s: string): string {
    if s != "" && IsDigit(s[0]) then [s[0]] + LeadingDigits(s[1..]) else ""
  }

  /** The value of a run of digits, exactly: JavaScript numbers hold it exactly below 2^53. */
  function Value(digits: string): nat
    requires forall i | 0 <= i < |digits| :: IsDigit(digits[i])
  {
    if digits == "" then 0
    else
      assert IsDigit(digits[|digits| - 1]);
      Value(digits[..|digits| - 1]) * 10 + (digits[|digits| - 1] as int - '0' as int)
  }

  lemma {:induction false} LeadingDigitsAreDigits(s: string)
    ensures forall i | 0 <= i < |LeadingDigits(s)| :: IsDigit(LeadingDigits(s)[i])
  {
    if s == "" || !IsDigit(s[0]) {
    } else {
      LeadingDigitsAreDigits(s[1..]);
    }
  }

  /** Number.parseInt(s, 10) || 0. The text is cut at the first hyphen before, so that no minus sign can occur. */
  function ParseInt(s: string): nat {
    var t := TrimStart(s);
    var digits := LeadingDigits(if t != "" && t[0] == '+' then t[1..] else t);
    LeadingDigitsAreDigits(if t != "" && t[0] == '+' then t[1..] else t);
    Value(digits)
  }

  /** What stands before the first hyphen, and what after it. */
  function CutAtHyphen(s: string): (string, string) {
    if s == "" then ("", "")
    else if s[0] == '-' then ("", s[1..])
    else var (core, pre) := CutAtHyphen(s[1..]); ([s[0]] + core, pre)
  }

  function NumberAt(parts: seq<string>, i: nat): nat {
    if i < |parts| then ParseInt(parts[i]) else 0
  }

  function Parse(version: string): Parsed {
    var v := if version != "" && version[0] == 'v' then version[1..] else version;
    var (core, pre) := CutAtHyphen(v);
    var parts := Split(core, '.');
    Parsed(NumberAt(parts, 0), NumberAt(parts, 1), NumberAt(parts, 2), if pre == "" then [] else Split(pre, '.'))
  }

  // ------------------------------------------------------------ compare

  function Order(a: int, b: int): int {
    if a < b then -1 else if a > b then 1 else 0
  }

  /** The order of strings: by the first character that differs, a prefix before what it begins. */
  function TextOrder(x: string, y: string): int {
    if x == "" && y == "" then 0
    else if x == "" then -1
    else if y == "" then 1
    else if x[0] != y[0] then (if x[0] < y[0] then -1 else 1)
    else TextOrder(x[1..], y[1..])
  }

  /** /^\d+$/. */
  predicate IsNumeric(x: string) {
    x != "" && forall i | 0 <= i < |x| :: IsDigit(x[i])
  }

  function IdentifierOrder(x: string, y: string): int {
    if IsNumeric(x) && IsNumeric(y) then Order(Value(x), Value(y))
    else if IsNumeric(x) != IsNumeric(y) then (if IsNumeric(x) then -1 else 1)
    else TextOrder(x, y)
  }

  function ListOrder(a: seq<string>, b: seq<string>): int {
    if a == [] && b == [] then 0
    else if a == [] then -1
    else if b == [] then 1
    else if IdentifierOrder(a[0], b[0]) != 0 then IdentifierOrder(a[0], b[0])
    else ListOrder(a[1..], b[1..])
  }

  function PreOrder(a: seq<string>, b: seq<string>): int {
    if a == [] && b == [] then 0
    else if a == [] then 1
    else if b == [] then -1
    else ListOrder(a, b)
  }

  function ParsedOrder(a: Parsed, b: Parsed): int {
    if a.major != b.major then Order(a.major, b.major)
    else if a.minor != b.minor then Order(a.minor, b.minor)
    else if a.patch != b.patch then Order(a.patch, b.patch)
    else PreOrder(a.pre, b.pre)
  }

  function Compare(a: string, b: string): int {
    ParsedOrder(Parse(a), Parse(b))
  }

  /** The three-valued comparison of two identifiers in the loop: None when they tie. */
  method CompareIdentifiers(x: string, y: string) returns (r: int)
    ensures r == IdentifierOrder(x, y)
  {
    var xNum, yNum := IsNumeric(x), IsNumeric(y);
    if xNum && yNum {
      var dx, dy := Value(x), Value(y);
      if dx != dy {
        return if dx < dy then -1 else 1;
      }
    } else if xNum != yNum {
      return if xNum then -1 else 1;
    } else if x != y {
      TextTies(x, y);
      TextRange(x, y);
      return if TextOrder(x, y) < 0 then -1 else 1;
    } else {
      TextTies(x, y);
    }
    r := 0;
  }

  /** compareSemver: two index loops with early returns. */
  method CompareSemver(a: string, b: string) returns (r: int)
    ensures r == Compare(a, b)
  {
    var pa, pb := Parse(a), Parse(b);
    for i := 0 to 3
      invariant forall k: nat | k < i :: pa.Main(k) == pb.Main(k)
    {
      var av, bv := pa.Main(i), pb.Main(i);
      if av != bv {
        assert (i > 0 ==> pa.Main(0) == pb.Main(0)) && (i > 1 ==> pa.Main(1) == pb.Main(1));
        return if av < bv then -1 else 1;
      }
    }
    assert pa.Main(0) == pb.Main(0) && pa.Main(1) == pb.Main(1) && pa.Main(2) == pb.Main(2);
    if pa.pre == [] && pb.pre == [] {
      return 0;
    }
    if pa.pre == [] {
      return 1;
    }
    if pb.pre == [] {
      return -1;
    }
    var n := if |pa.pre| > |pb.pre| then |pa.pre| else |pb.pre|;
    for i := 0 to n
      invariant i <= |pa.pre| && i <= |pb.pre|
      invariant ListOrder(pa.pre[i..], pb.pre[i..]) == ListOrder(pa.pre, pb.pre)
    {
      if i >= |pa.pre| {
        return -1;
      }
      if i >= |pb.pre| {
        return 1;
      }
      assert pa.pre[i..][1..] == pa.pre[i + 1..] && pb.pre[i..][1..] == pb.pre[i + 1..];
      var c := CompareIdentifiers(pa.pre[i], pb.pre[i]);
      if c != 0 {
        return c;
      }
    }
    r := 0;
  }

  // ------------------------------------------------------------ a total preorder

  lemma {:induction false} TextTies(x: string, y: string)
    ensures TextOrder(x, y) == 0 <==> x == y
    ensures TextOrder(x, y) == -TextOrder(y, x)
  {
    if x == "" || y == "" {
    } else {
      TextTies(x[1..], y[1..]);
      assert x == [x[0]] + x[1..] && y == [y[0]] + y[1..];
    }
  }

  /** Three comparisons fit together: below and below is below, and a tie only when both tie. */
  predicate Chain(xy: int, yz: int, xz: int) {
    xy <= 0 && yz <= 0 ==> xz <= 0 && (xz == 0 <==> xy == 0 && yz == 0)
  }

  lemma {:induction false} TextChains(x: string, y: string, z: string)
    ensures Chain(TextOrder(x, y), TextOrder(y, z), TextOrder(x, z))
  {
    if x == "" || y == "" || z == "" {
    } else {
      TextChains(x[1..], y[1..], z[1..]);
    }
  }

  lemma IdentifierTurns(x: string, y: string)
    ensures IdentifierOrder(x, y) == -IdentifierOrder(y, x)
  {
    TextTies(x, y);
  }

  lemma IdentifierChains(x: string, y: string, z: string)
    ensures Chain(IdentifierOrder(x, y), IdentifierOrder(y, z), IdentifierOrder(x, z))
  {
    TextChains(x, y, z);
  }

  lemma {:induction false} ListTurns(a: seq<string>, b: seq<string>)
    ensures ListOrder(a, b) == -ListOrder(b, a)
  {
    if a == [] || b == [] {
    } else {
      IdentifierTurns(a[0], b[0]);
      ListTurns(a[1..], b[1..]);
    }
  }

  lemma {:induction false} ListChains(a: seq<string>, b: seq<string>, c: seq<string>)
    ensures Chain(ListOrder(a, b), ListOrder(b, c), ListOrder(a, c))
  {
    if a == [] || b == [] || c == [] {
    } else {
      IdentifierChains(a[0], b[0], c[0]);
      ListChains(a[1..], b[1..], c[1..]);
    }
  }

  lemma ParsedChains(a: Parsed, b: Parsed, c: Parsed)
    ensures Chain(ParsedOrder(a, b), ParsedOrder(b, c), ParsedOrder(a, c))
  {
    ListChains(a.pre, b.pre, c.pre);
  }

  lemma ParsedTurns(a: Parsed, b: Parsed)
    ensures ParsedOrder(a, b) == -ParsedOrder(b, a)
  {
    ListTurns(a.pre, b.pre);
  }

  lemma {:induction false} ListRange(a: seq<string>, b: seq<string>)
    ensures -1 <= ListOrder(a, b) <= 1
  {
    if a == [] || b == [] {
    } else {
      TextRange(a[0], b[0]);
      ListRange(a[1..], b[1..]);
    }
  }

  lemma {:induction false} TextRange(x: string, y: string)
    ensures -1 <= TextOrder(x, y) <= 1
  {
    if x == "" || y == "" {
    } else {
      TextRange(x[1..], y[1..]);
    }
  }

  /** On all strings: three-valued, total and turned round by swapping, and transitive with ties as an equivalence. */
  lemma CompareIsATotalPreorder(a: string, b: string, c: string)
    ensures -1 <= Compare(a, b) <= 1
    ensures Compare(a, b) == -Compare(b, a)
    ensures Compare(a, b) <= 0 && Compare(b, c) <= 0 ==> Compare(a, c) <= 0
    ensures Compare(a, b) < 0 && Compare(b, c) <= 0 ==> Compare(a, c) < 0
    ensures Compare(a, b) == 0 ==> Compare(a, c) == Compare(b, c)
  {
    var x, y, z := Parse(a), Parse(b), Parse(c);
    ListRange(x.pre, y.pre);
    ListRange(x.pre, z.pre);
    ListRange(y.pre, z.pre);
    ParsedTurns(x, y);
    ParsedTurns(y, z);
    ParsedTurns(x, z);
    ParsedChains(x, y, z);
    ParsedChains(y, x, z);
    ParsedChains(z, x, y);
    ParsedChains(z, y, x);
  }
}
