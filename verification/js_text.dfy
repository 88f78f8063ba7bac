/** The JavaScript string operations that several modules use: trim, split and join. */
module JsText {
  predicate IsSpace(c: char) {
    || c == '\t' || c == '\n' || c == '\U{000B}' || c == '\U{000C}' || c == '\r' || c == ' '
    || c == '\U{00A0}' || c == '\U{1680}' || '\U{2000}' <= c <= '\U{200A}'
    || c == '\U{2028}' || c == '\U{2029}' || c == '\U{202F}' || c == '\U{205F}' || c == '\U{3000}' || c == '\U{FEFF}'
  }

  predicate Blank(s: string) {
    forall i | 0 <= i < |s| :: IsSpace(s[i])
  }

  function TrimStart(s: string): string {
    if s != "" && IsSpace(s[0]) then TrimStart(s[1..]) else s
  }

  function TrimEnd(s: string): string {
    if s != "" && IsSpace(s[|s| - 1]) then TrimEnd(s[..|s| - 1]) else s
  }

  function Trim(s: string): string {
    TrimEnd(TrimStart(s))
  }

  lemma {:induction false} TrimEndSplits(s: string) returns (right: string)
    ensures s == TrimEnd(s) + right && Blank(right)
    ensures TrimEnd(s) != "" ==> !IsSpace(TrimEnd(s)[|TrimEnd(s)| - 1])
    decreases |s|
  {
    if s != "" && IsSpace(s[|s| - 1]) {
      var r := TrimEndSplits(s[..|s| - 1]);
      right := r + [s[|s| - 1]];
      assert s == s[..|s| - 1] + [s[|s| - 1]];
    } else {
      right := "";
    }
  }

  lemma {:induction false} TrimStartSplits(s: string) returns (left: string)
    ensures s == left + TrimStart(s) && Blank(left)
    ensures TrimStart(s) != "" ==> !IsSpace(TrimStart(s)[0])
    decreases |s|
  {
    if s != "" && IsSpace(s[0]) {
      var l := TrimStartSplits(s[1..]);
      left := [s[0]] + l;
    } else {
      left := "";
    }
  }

  lemma TrimSplits(s: string) returns (left: string, right: string)
    ensures s == left + Trim(s) + right && Blank(left) && Blank(right)
    ensures Trim(s) != "" ==> !IsSpace(Trim(s)[0]) && !IsSpace(Trim(s)[|Trim(s)| - 1])
  {
    left := TrimStartSplits(s);
    right := TrimEndSplits(TrimStart(s));
  }

  lemma {:induction false} TrimStartBlank(left: string, rest: string)
    requires Blank(left) && (rest == "" || !IsSpace(rest[0]))
    ensures TrimStart(left + rest) == rest
    decreases |left|
  {
    if left == "" {
      assert left + rest == rest;
    } else {
      assert (left + rest)[1..] == left[1..] + rest;
      TrimStartBlank(left[1..], rest);
    }
  }

  lemma {:induction false} TrimEndBlank(rest: string, right: string)
    requires Blank(right) && (rest == "" || !IsSpace(rest[|rest| - 1]))
    ensures TrimEnd(rest + right) == rest
    decreases |right|
  {
    if right == "" {
      assert rest + right == rest;
    } else {
      var s := rest + right;
      assert s[..|s| - 1] == rest + right[..|right| - 1];
      TrimEndBlank(rest, right[..|right| - 1]);
    }
  }

  /** Trimming finds exactly the core between the blanks. */
  lemma TrimCore(left: string, core: string, right: string)
    requires Blank(left) && Blank(right) && core != "" && !IsSpace(core[0]) && !IsSpace(core[|core| - 1])
    ensures Trim(left + core + right) == core
  {
    assert left + core + right == left + (core + right);
    TrimStartBlank(left, core + right);
    TrimEndBlank(core, right);
  }

  lemma TrimBlank(s: string)
    ensures Trim(s) == "" <==> Blank(s)
  {
    if Blank(s) {
      assert s + "" == s;
      TrimStartBlank(s, "");
    } else {
      var left, right := TrimSplits(s);
    }
  }

  lemma TrimIgnoresEnd(s: string, right: string)
    requires Blank(right)
    ensures Trim(s + right) == Trim(s)
  {
    var l, r := TrimSplits(s);
    if Trim(s) == "" {
      TrimBlank(s);
      TrimBlank(s + right);
    } else {
      assert s + right == l + Trim(s) + (r + right);
      TrimCore(l, Trim(s), r + right);
    }
  }

  // ------------------------------------------------------------ split and join

  /** text.split(separator), for a separator of one character. */
  function Split(s: string, separator: char := '\n'): (parts: seq<string>)
    ensures |parts| > 0
  {
    if s == "" then [""]
    else
      var rest := Split(s[1..], separator);
      if s[0] == separator then [""] + rest else [[s[0]] + rest[0]] + rest[1..]
  }

  function Join(parts: seq<string>, separator: string): string {
    if parts == [] then ""
    else if |parts| == 1 then parts[0]
    else parts[0] + separator + Join(parts[1..], separator)
  }

  lemma {:induction false} JoinSplit(s: string, separator: char := '\n')
    ensures Join(Split(s, separator), [separator]) == s
  {
    if s == "" {
    } else {
      JoinSplit(s[1..], separator);
      var rest := Split(s[1..], separator);
      if s[0] == separator {
        assert ([""] + rest)[1..] == rest;
        assert "" + [separator] + s[1..] == s;
      } else if |rest| > 1 {
        var lines := [[s[0]] + rest[0]] + rest[1..];
        assert lines[1..] == rest[1..];
        assert [s[0]] + rest[0] + [separator] + Join(rest[1..], [separator]) == [s[0]] + (rest[0] + [separator] + Join(rest[1..], [separator]));
      }
    }
  }

  /** The lines of a followed by those of b, the last line of a running on into the first of b. */
  function Glue(x: seq<string>, y: seq<string>): (lines: seq<string>)
    requires x != [] && y != []
    ensures |lines| == |x| + |y| - 1
  {
    x[..|x| - 1] + [x[|x| - 1] + y[0]] + y[1..]
  }

  lemma {:induction false} SplitAppend(a: string, b: string, separator: char := '\n')
    ensures Split(a + b, separator) == Glue(Split(a, separator), Split(b, separator))
  {
    if a == "" {
      assert a + b == b;
      assert "" + Split(b, separator)[0] == Split(b, separator)[0];
    } else {
      assert (a + b)[1..] == a[1..] + b;
      SplitAppend(a[1..], b, separator);
      if a[0] == separator {
        GlueBreak(Split(a[1..], separator), Split(b, separator));
      } else {
        GlueChar(a[0], Split(a[1..], separator), Split(b, separator));
      }
    }
  }

  lemma GlueBreak(x: seq<string>, y: seq<string>)
    requires x != [] && y != []
    ensures Glue([""] + x, y) == [""] + Glue(x, y)
  {
  }

  lemma GlueChar(c: char, x: seq<string>, y: seq<string>)
    requires x != [] && y != []
    ensures Glue([[c] + x[0]] + x[1..], y) == [[c] + Glue(x, y)[0]] + Glue(x, y)[1..]
  {
    var lines := [[c] + x[0]] + x[1..];
    if |x| == 1 {
      assert ([c] + x[0]) + y[0] == [c] + (x[0] + y[0]);
    } else {
      assert lines[|x| - 1] == x[|x| - 1];
    }
  }

  lemma GlueOne(last: string, y: seq<string>)
    requires y != []
    ensures Glue([last], y) == [last + y[0]] + y[1..]
  {
    assert [last][..0] == [];
  }

  lemma {:induction false} SplitHasNoBreaks(s: string, i: nat, separator: char := '\n')
    requires i < |Split(s, separator)|
    ensures separator !in Split(s, separator)[i]
  {
    if s == "" {
    } else {
      if s[0] == separator {
        if i > 0 {
          SplitHasNoBreaks(s[1..], i - 1, separator);
        }
      } else {
        SplitHasNoBreaks(s[1..], i, separator);
      }
    }
  }

  lemma {:induction false} SplitOneLine(s: string, separator: char := '\n')
    requires separator !in s
    ensures Split(s, separator) == [s]
  {
    if s == "" {
    } else {
      assert s[0] in s;
      SplitOneLine(s[1..], separator);
      assert [s[0]] + s[1..] == s;
    }
  }

  lemma {:induction false} SplitJoin(parts: seq<string>, separator: char)
    requires parts != [] && forall i | 0 <= i < |parts| :: separator !in parts[i]
    ensures Split(Join(parts, [separator]), separator) == parts
  {
    SplitOneLine(parts[0], separator);
    if |parts| <= 1 {
    } else {
      var rest := Join(parts[1..], [separator]);
      SplitJoin(parts[1..], separator);
      assert Join(parts, [separator]) == parts[0] + ([separator] + rest);
      assert ([separator] + rest)[1..] == rest;
      SplitAppend(parts[0], [separator] + rest, separator);
      assert parts[0] + "" == parts[0];
    }
  }

  // ------------------------------------------------------------ decimal numbers

  function Dec(n: nat): string {
    if n < 10 then [('0' as int + n) as char] else Dec(n / 10) + [('0' as int + n % 10) as char]
  }
}
