/**
 * The Kotlin string operations the renderers rely on: `Char.isWhitespace`, `lines()`,
 * `joinToString`, `split`, `trim`, `lowercase`, `Int.toString` and `trimIndent()`.
 *
 * `trimIndent()` is modelled as the Kotlin standard library defines it: split into lines
 * (on "\r\n", "\n" and "\r"), compute the smallest indent of the non-blank lines, drop a
 * blank first and a blank last line, cut the common indent from every other line and join
 * the lines with "\n". Every template of the handler starts and ends with a newline and
 * contains a line that starts in column 0; `TrimIndentFramed` shows that for such a string
 * `trimIndent()` only removes that first and last newline.
 */
module Text {

  /** Kotlin's `Char.isWhitespace` on the JVM (`Character.isWhitespace || Character.isSpaceChar`). */
  predicate IsWhitespace(c: char) {
    || c == '\t' || c == '\n' || c == '\U{000B}' || c == '\U{000C}' || c == '\r'
    || ('\U{001C}' <= c <= '\U{001F}')
    || c == ' ' || c == '\U{00A0}' || c == '\U{1680}'
    || ('\U{2000}' <= c <= '\U{200A}')
    || c == '\U{2028}' || c == '\U{2029}' || c == '\U{202F}' || c == '\U{205F}' || c == '\U{3000}'
  }

  /** `String.isBlank()`. */
  predicate IsBlank(s: string) {
    forall i :: 0 <= i < |s| ==> IsWhitespace(s[i])
  }

  /** The number of leading whitespace characters of a line. */
  function IndentWidth(s: string): (n: nat)
    ensures n <= |s|
    ensures forall i :: 0 <= i < n ==> IsWhitespace(s[i])
    ensures n < |s| ==> !IsWhitespace(s[n])
  {
    if |s| == 0 || !IsWhitespace(s[0]) then 0 else 1 + IndentWidth(s[1..])
  }

  /** `parts.joinToString(separator = sep)`. */
  function Join(sep: string, parts: seq<string>): string {
    if |parts| == 0 then ""
    else if |parts| == 1 then parts[0]
    else parts[0] + sep + Join(sep, parts[1..])
  }

  /** `s.split(d)` for a one-character delimiter: every piece, empty ones included. */
  function Split(s: string, d: char): (r: seq<string>)
    ensures |r| >= 1
    ensures forall i :: 0 <= i < |r| ==> d !in r[i]
  {
    if |s| == 0 then [""]
    else
      var rest := Split(s[1..], d);
      if s[0] == d then [""] + rest else [[s[0]] + rest[0]] + rest[1..]
  }

  /** `s.lines()`: the lines of `s`, split at "\r\n", "\n" or "\r"; a final empty line is kept. */
  function Lines(s: string): (r: seq<string>)
    ensures |r| >= 1
    ensures forall i :: 0 <= i < |r| ==> '\n' !in r[i] && '\r' !in r[i]
  {
    if |s| == 0 then [""]
    else if s[0] == '\n' then [""] + Lines(s[1..])
    else if s[0] == '\r' then
      if |s| > 1 && s[1] == '\n' then [""] + Lines(s[2..]) else [""] + Lines(s[1..])
    else
      var rest := Lines(s[1..]);
      [[s[0]] + rest[0]] + rest[1..]
  }

  /** Joining lines back together, as `trimIndent()` does. */
  function Unlines(ls: seq<string>): string {
    Join("\n", ls)
  }

  /** `String.drop(n)`. */
  function Drop(s: string, n: nat): string {
    if n >= |s| then "" else s[n..]
  }

  /** The indents of the non-blank lines, in order. */
  function NonBlankIndents(ls: seq<string>): seq<nat> {
    if |ls| == 0 then []
    else (if IsBlank(ls[0]) then [] else [IndentWidth(ls[0])]) + NonBlankIndents(ls[1..])
  }

  /** `minOrNull() ?: 0`. */
  function MinOrZero(xs: seq<nat>): nat {
    if |xs| == 0 then 0
    else if |xs| == 1 then xs[0]
    else
      var m := MinOrZero(xs[1..]);
      if xs[0] <= m then xs[0] else m
  }

  function CutAll(ls: seq<string>, n: nat): (r: seq<string>)
    ensures |r| == |ls|
  {
    seq(|ls|, i requires 0 <= i < |ls| => Drop(ls[i], n))
  }

  /** Drops a blank first and a blank last line and cuts `n` characters from every other line. */
  function Reindent(ls: seq<string>, n: nat): seq<string> {
    if |ls| == 0 then []
    else if |ls| == 1 then (if IsBlank(ls[0]) then [] else [Drop(ls[0], n)])
    else
      (if IsBlank(ls[0]) then [] else [Drop(ls[0], n)])
      + CutAll(ls[1..|ls| - 1], n)
      + (if IsBlank(ls[|ls| - 1]) then [] else [Drop(ls[|ls| - 1], n)])
  }

  /** Kotlin's `String.trimIndent()`. */
  function TrimIndent(s: string): string {
    var ls := Lines(s);
    Unlines(Reindent(ls, MinOrZero(NonBlankIndents(ls))))
  }

  /** A string that holds no line break. */
  predicate SingleLine(s: string) {
    '\n' !in s && '\r' !in s
  }

  /**
   * A Kotlin raw string whose opening and closing quotes stand on lines of their own, given
   * as its lines; a line may be an interpolated value, which may itself span several lines.
   */
  function Template(ls: seq<string>): string {
    "\n" + Join("\n", ls) + "\n"
  }

  function TrimStart(s: string): (r: string)
    ensures r == "" || !IsWhitespace(r[0])
    ensures forall c :: c in r ==> c in s
  {
    if |s| > 0 && IsWhitespace(s[0]) then TrimStart(s[1..]) else s
  }

  function TrimEnd(s: string): (r: string)
    ensures r == "" || !IsWhitespace(r[|r| - 1])
    ensures forall c :: c in r ==> c in s
  {
    if |s| > 0 && IsWhitespace(s[|s| - 1]) then TrimEnd(s[..|s| - 1]) else s
  }

  /** `String.trim()`: no whitespace at either end, and only characters of `s`. */
  function Trim(s: string): (r: string)
    ensures r == "" || (!IsWhitespace(r[0]) && !IsWhitespace(r[|r| - 1]))
    ensures forall c :: c in r ==> c in s
  {
    var t := TrimEnd(s);
    var r := TrimStart(t);
    assert r != "" ==> r[|r| - 1] == t[|t| - 1] by {
      TrimStartSuffix(t);
    }
    r
  }

  lemma {:induction false} TrimStartSuffix(s: string)
    ensures |TrimStart(s)| <= |s| && TrimStart(s) == s[|s| - |TrimStart(s)|..]
  {
    if |s| > 0 && IsWhitespace(s[0]) {
      TrimStartSuffix(s[1..]);
    }
  }

  function LowerChar(c: char): char {
    if 'A' <= c <= 'Z' then (c as int + 32) as char else c
  }

  /** `lowercase()` for the ASCII letters the schema's label names are made of. */
  function Lower(s: string): (r: string)
    ensures |r| == |s|
    ensures forall i :: 0 <= i < |s| ==> r[i] == LowerChar(s[i])
  {
    seq(|s|, i requires 0 <= i < |s| => LowerChar(s[i]))
  }

  function DigitChar(d: nat): char
    requires d < 10
  {
    "0123456789"[d]
  }

  /** `Int.toString()` for the non-negative counts of the summary page. */
  function NatToString(n: nat): (r: string)
    ensures |r| >= 1
    ensures forall i :: 0 <= i < |r| ==> '0' <= r[i] <= '9'
  {
    if n < 10 then [DigitChar(n)] else NatToString(n / 10) + [DigitChar(n % 10)]
  }

  /** The value of a string of decimal digits. */
  function DigitsValue(s: string): nat
    requires forall i :: 0 <= i < |s| ==> '0' <= s[i] <= '9'
  {
    if |s| == 0 then 0 else 10 * DigitsValue(s[..|s| - 1]) + (s[|s| - 1] as int - '0' as int)
  }

  /** The rendered count reads back as the count. */
  lemma {:induction false} NatToStringRoundTrip(n: nat)
    ensures DigitsValue(NatToString(n)) == n
  {
    var r := NatToString(n);
    if n < 10 {
    } else {
      NatToStringRoundTrip(n / 10);
      assert r[..|r| - 1] == NatToString(n / 10);
    }
  }

  // ---------------------------------------------------------------------------------
  // Split and Join are inverse to each other
  // ---------------------------------------------------------------------------------

  lemma {:induction false} JoinSplit(s: string, d: char)
    ensures Join([d], Split(s, d)) == s
  {
    if |s| > 0 {
      var rest := Split(s[1..], d);
      JoinSplit(s[1..], d);
      if s[0] == d {
        assert Split(s, d) == [""] + rest;
        assert ([""] + rest)[1..] == rest;
      } else {
        if |rest| == 1 {
        } else {
          assert Join([d], rest) == rest[0] + [d] + Join([d], rest[1..]);
          assert ([[s[0]] + rest[0]] + rest[1..])[1..] == rest[1..];
        }
      }
    }
  }

  lemma {:induction false} SplitConcat(a: string, b: string, d: char)
    ensures Split(a + [d] + b, d) == Split(a, d) + Split(b, d)
  {
    if |a| == 0 {
      assert a + [d] + b == [d] + b;
      assert ([d] + b)[1..] == b;
    } else {
      assert (a + [d] + b)[1..] == a[1..] + [d] + b;
      SplitConcat(a[1..], b, d);
    }
  }

  lemma {:induction false} SplitFree(s: string, d: char)
    requires d !in s
    ensures Split(s, d) == [s]
  {
    if |s| > 0 {
      SplitFree(s[1..], d);
      assert [s[0]] + s[1..] == s;
    }
  }

  /** Joining pieces that do not contain the delimiter, then splitting, gives the pieces back. */
  lemma {:induction false} SplitJoin(parts: seq<string>, d: char)
    requires |parts| >= 1
    requires forall i :: 0 <= i < |parts| ==> d !in parts[i]
    ensures Split(Join([d], parts), d) == parts
  {
    if |parts| == 1 {
      SplitFree(parts[0], d);
    } else {
      SplitJoin(parts[1..], d);
      SplitConcat(parts[0], Join([d], parts[1..]), d);
      SplitFree(parts[0], d);
      assert [parts[0]] + parts[1..] == parts;
    }
  }

  lemma SplitFirst(s: string, d: char)
    requires s != "" && s[0] != d
    ensures Split(s, d)[0] != "" && Split(s, d)[0][0] == s[0]
  {
  }

  // ---------------------------------------------------------------------------------
  // Lines and trimIndent
  // ---------------------------------------------------------------------------------

  /** Without carriage returns, `lines()` is a split at "\n". */
  lemma {:induction false} LinesAreSplit(s: string)
    requires '\r' !in s
    ensures Lines(s) == Split(s, '\n')
  {
    if |s| > 0 {
      assert s[1..] == s[1..];
      assert '\r' !in s[1..] by {
        forall c | c in s[1..] ensures c in s { }
      }
      LinesAreSplit(s[1..]);
    }
  }

  lemma {:induction false} NonBlankIndentsHasZero(ls: seq<string>, j: nat)
    requires j < |ls| && !IsBlank(ls[j]) && IndentWidth(ls[j]) == 0
    ensures 0 in NonBlankIndents(ls)
  {
    if j > 0 {
      NonBlankIndentsHasZero(ls[1..], j - 1);
      assert NonBlankIndents(ls) == (if IsBlank(ls[0]) then [] else [IndentWidth(ls[0])]) + NonBlankIndents(ls[1..]);
    }
  }

  lemma {:induction false} MinOrZeroOfZero(xs: seq<nat>)
    requires 0 in xs
    ensures MinOrZero(xs) == 0
  {
    if |xs| > 1 && xs[0] != 0 {
      MinOrZeroOfZero(xs[1..]);
    }
  }

  /** A line that begins with a non-whitespace character sets the common indent to zero. */
  lemma FlushLineMeansNoIndent(ls: seq<string>, j: nat)
    requires j < |ls| && ls[j] != "" && !IsWhitespace(ls[j][0])
    ensures MinOrZero(NonBlankIndents(ls)) == 0
  {
    assert !IsBlank(ls[j]);
    NonBlankIndentsHasZero(ls, j);
    MinOrZeroOfZero(NonBlankIndents(ls));
  }

  /** The lines of "\n" + body + "\n" are an empty line, the lines of body and an empty line. */
  lemma FramedLines(body: string)
    requires '\r' !in body
    ensures Lines("\n" + body + "\n") == [""] + Split(body, '\n') + [""]
  {
    var s := "\n" + body + "\n";
    assert s == "" + ['\n'] + (body + ['\n'] + "");
    assert '\r' !in s;
    LinesAreSplit(s);
    SplitConcat("", body + ['\n'] + "", '\n');
    SplitConcat(body, "", '\n');
  }

  /** In the body a + b, the first line of b is a line that starts in column 0. */
  lemma FlushLineOfBody(a: string, b: string) returns (j: nat)
    requires a == "" || a[|a| - 1] == '\n'
    requires b != "" && !IsWhitespace(b[0])
    ensures j < |Split(a + b, '\n')|
    ensures Split(a + b, '\n')[j] != "" && !IsWhitespace(Split(a + b, '\n')[j][0])
  {
    SplitFirst(b, '\n');
    if a == "" {
      assert a + b == b;
      j := 0;
    } else {
      var a' := a[..|a| - 1];
      assert a + b == a' + ['\n'] + b;
      SplitConcat(a', b, '\n');
      j := |Split(a', '\n')|;
      assert Split(a + b, '\n')[j] == Split(b, '\n')[0];
    }
  }

  lemma ReindentFramed(L: seq<string>)
    ensures Reindent([""] + L + [""], 0) == L
  {
    var ls := [""] + L + [""];
    assert ls[1..|ls| - 1] == L;
    assert IsBlank(ls[0]) && IsBlank(ls[|ls| - 1]);
    assert CutAll(L, 0) == L;
  }

  /**
   * A template of the shape "\n" + a + b + "\n", where b starts a line with a non-whitespace
   * character, is unchanged by `trimIndent()` apart from the framing newlines.
   */
  lemma TrimIndentFramed(a: string, b: string)
    requires '\r' !in a && '\r' !in b
    requires a == "" || a[|a| - 1] == '\n'
    requires b != "" && !IsWhitespace(b[0])
    ensures TrimIndent("\n" + (a + b) + "\n") == a + b
  {
    var body := a + b;
    FramedLines(body);
    var L := Split(body, '\n');
    var ls := [""] + L + [""];
    var j := FlushLineOfBody(a, b);
    assert ls[j + 1] == L[j];
    FlushLineMeansNoIndent(ls, j + 1);
    ReindentFramed(L);
    JoinSplit(body, '\n');
  }

  /** The lines of a join of lines that hold no line break are those lines. */
  lemma LinesOfJoin(parts: seq<string>)
    requires |parts| >= 1
    requires forall i :: 0 <= i < |parts| ==> '\n' !in parts[i] && '\r' !in parts[i]
    ensures Lines(Join("\n", parts)) == parts
  {
    CharNotInJoin("\n", parts, '\r');
    LinesAreSplit(Join("\n", parts));
    SplitJoin(parts, '\n');
  }

  lemma CharOfDrop(s: string, n: nat, c: char)
    requires c !in s
    ensures c !in Drop(s, n)
  {
    if n < |s| {
      forall x | x in s[n..] ensures x in s { }
    }
  }

  /** `trimIndent()` always yields "\n"-separated text: its result holds no carriage return. */
  lemma TrimIndentHasNoCarriageReturn(s: string)
    ensures '\r' !in TrimIndent(s)
  {
    var ls := Lines(s);
    var n := MinOrZero(NonBlankIndents(ls));
    var r := Reindent(ls, n);
    forall i | 0 <= i < |ls| ensures '\r' !in Drop(ls[i], n) {
      CharOfDrop(ls[i], n, '\r');
    }
    if |ls| > 1 {
      var mid := ls[1..|ls| - 1];
      forall i | 0 <= i < |mid| ensures '\r' !in CutAll(mid, n)[i] {
        assert mid[i] == ls[i + 1];
        CharOfDrop(mid[i], n, '\r');
      }
    }
    assert forall i :: 0 <= i < |r| ==> '\r' !in r[i];
    CharNotInJoin("\n", r, '\r');
  }

  /** Joining two non-empty lists of pieces is joining their joins. */
  lemma {:induction false} JoinAppend(sep: string, xs: seq<string>, ys: seq<string>)
    requires |xs| >= 1 && |ys| >= 1
    ensures Join(sep, xs + ys) == Join(sep, xs) + sep + Join(sep, ys)
  {
    if |xs| == 1 {
      assert (xs + ys)[1..] == ys;
    } else {
      assert (xs + ys)[1..] == xs[1..] + ys;
      JoinAppend(sep, xs[1..], ys);
    }
  }

  /** A join of pieces that do not contain `c` does not contain `c`, if the separator does not. */
  lemma {:induction false} CharNotInJoin(sep: string, parts: seq<string>, c: char)
    requires c !in sep
    requires forall i :: 0 <= i < |parts| ==> c !in parts[i]
    ensures c !in Join(sep, parts)
  {
    if |parts| > 1 {
      CharNotInJoin(sep, parts[1..], c);
    }
  }

  /** Splitting does not invent characters. */
  lemma {:induction false} CharNotInSplit(s: string, d: char, c: char)
    requires c !in s
    ensures forall i :: 0 <= i < |Split(s, d)| ==> c !in Split(s, d)[i]
  {
    if |s| > 0 {
      assert c !in s[1..] by {
        forall x | x in s[1..] ensures x in s { }
      }
      CharNotInSplit(s[1..], d, c);
    }
  }

  /** A join of at least one non-empty piece is non-empty. */
  lemma JoinNonEmpty(sep: string, parts: seq<string>)
    requires |parts| >= 1 && parts[0] != ""
    ensures Join(sep, parts) != ""
  {
  }

  /** A join starts with its first piece. */
  lemma JoinStartsWithFirst(sep: string, parts: seq<string>)
    requires |parts| >= 1 && parts[0] != ""
    ensures Join(sep, parts) != "" && Join(sep, parts)[0] == parts[0][0]
  {
    if |parts| > 1 {
      assert Join(sep, parts) == parts[0] + (sep + Join(sep, parts[1..]));
    }
  }

  /**
   * `trimIndent()` of a template with a line that starts in column 0 only removes the framing
   * newlines: every interpolated value appears verbatim, whatever its own indentation.
   */
  lemma TrimIndentTemplate(ls: seq<string>, j: nat)
    requires forall i :: 0 <= i < |ls| ==> '\r' !in ls[i]
    requires j < |ls| && ls[j] != "" && !IsWhitespace(ls[j][0])
    ensures TrimIndent(Template(ls)) == Join("\n", ls)
  {
    var a, b := SplitAtLine(ls, j);
    TrimIndentFramed(a, b);
  }

  /** The join of `ls`, cut just before line `j`. */
  lemma SplitAtLine(ls: seq<string>, j: nat) returns (a: string, b: string)
    requires forall i :: 0 <= i < |ls| ==> '\r' !in ls[i]
    requires j < |ls| && ls[j] != ""
    ensures Join("\n", ls) == a + b
    ensures '\r' !in a && '\r' !in b
    ensures a == "" || a[|a| - 1] == '\n'
    ensures b != "" && b[0] == ls[j][0]
  {
    a := if j == 0 then "" else Join("\n", ls[..j]) + "\n";
    b := Join("\n", ls[j..]);
    if j == 0 {
      assert ls[j..] == ls;
    } else {
      JoinAppend("\n", ls[..j], ls[j..]);
      assert ls[..j] + ls[j..] == ls;
      CharNotInJoin("\n", ls[..j], '\r');
    }
    JoinStartsWithFirst("\n", ls[j..]);
    CharNotInJoin("\n", ls[j..], '\r');
  }

  /**
   * When no line of a template holds a line break, its lines after `trimIndent()` are
   * exactly the template's lines.
   */
  lemma TrimIndentTemplateLines(ls: seq<string>, j: nat)
    requires forall i :: 0 <= i < |ls| ==> SingleLine(ls[i])
    requires j < |ls| && ls[j] != "" && !IsWhitespace(ls[j][0])
    ensures Lines(TrimIndent(Template(ls))) == ls
  {
    TrimIndentTemplate(ls, j);
    LinesOfJoin(ls);
  }

  /** Interpolating the join of `mid` as one line is the same as writing its pieces as lines. */
  lemma JoinSpliced(sep: string, pre: seq<string>, mid: seq<string>, post: seq<string>)
    requires |mid| >= 1
    ensures Join(sep, pre + [Join(sep, mid)] + post) == Join(sep, pre + mid + post)
  {
    var m := Join(sep, mid);
    JoinSplicedFirst(sep, mid, post);
    if |pre| == 0 {
      assert pre + [m] + post == [m] + post && pre + mid + post == mid + post;
    } else {
      JoinAppend(sep, pre, [m] + post);
      JoinAppend(sep, pre, mid + post);
      AppendAssoc(pre, [m], post);
      AppendAssoc(pre, mid, post);
    }
  }

  predicate AllSingleLines(ls: seq<string>) {
    forall i :: 0 <= i < |ls| ==> SingleLine(ls[i])
  }

  lemma AllSingleLinesAppend(a: seq<string>, b: seq<string>)
    requires AllSingleLines(a) && AllSingleLines(b)
    ensures AllSingleLines(a + b)
  {
    forall i | 0 <= i < |a + b| ensures SingleLine((a + b)[i]) {
      if i < |a| {
        assert (a + b)[i] == a[i];
      } else {
        assert (a + b)[i] == b[i - |a|];
      }
    }
  }

  lemma AppendAssoc<T>(a: seq<T>, b: seq<T>, c: seq<T>)
    ensures a + b + c == a + (b + c)
  {
    var x, y := a + b + c, a + (b + c);
    assert |x| == |y|;
    forall i | 0 <= i < |x| ensures x[i] == y[i] {
      if i < |a| {
        assert x[i] == a[i] == y[i];
      } else if i < |a| + |b| {
        assert x[i] == b[i - |a|] == y[i];
      } else {
        assert x[i] == c[i - |a| - |b|] == y[i];
      }
    }
  }

  /** Three joined groups spliced into one sequence, each in place of its join. */
  lemma JoinSplicedThree(sep: string, p1: seq<string>, a: seq<string>, p2: seq<string>, b: seq<string>,
                         p3: seq<string>, c: seq<string>)
    requires |a| >= 1 && |b| >= 1 && |c| >= 1
    ensures Join(sep, p1 + [Join(sep, a)] + p2 + [Join(sep, b)] + p3 + [Join(sep, c)]) ==
      Join(sep, p1 + a + p2 + b + p3 + c)
  {
    var ja, jb, jc := Join(sep, a), Join(sep, b), Join(sep, c);
    SpliceRegroup(p1, [ja], a, p2, [jb], b, p3, [jc], c);
    JoinSpliced(sep, p1, a, p2 + [jb] + p3 + [jc]);
    JoinSpliced(sep, p1 + a + p2, b, p3 + [jc]);
    JoinSpliced(sep, p1 + a + p2 + b + p3, c, []);
  }

  /** The regroupings `JoinSplicedThree` steps through, one group at a time. */
  lemma SpliceRegroup<T>(p1: seq<T>, x: seq<T>, a: seq<T>, p2: seq<T>, y: seq<T>, b: seq<T>,
                         p3: seq<T>, z: seq<T>, c: seq<T>)
    ensures p1 + x + p2 + y + p3 + z == p1 + x + (p2 + y + p3 + z)
    ensures p1 + a + (p2 + y + p3 + z) == (p1 + a + p2) + y + (p3 + z)
    ensures p1 + a + p2 + b + (p3 + z) == (p1 + a + p2 + b + p3) + z + []
    ensures (p1 + a + p2 + b + p3) + c + [] == p1 + a + p2 + b + p3 + c
  {
  }

  lemma JoinSplicedFirst(sep: string, mid: seq<string>, post: seq<string>)
    requires |mid| >= 1
    ensures Join(sep, [Join(sep, mid)] + post) == Join(sep, mid + post)
  {
    var m := Join(sep, mid);
    if |post| == 0 {
      assert [m] + post == [m] && mid + post == mid;
    } else {
      JoinAppend(sep, [m], post);
      JoinAppend(sep, mid, post);
    }
  }

  /** A template interpolated alone into another template adds an empty first and last line. */
  lemma TemplateOfTemplate(ls: seq<string>)
    requires |ls| >= 1
    ensures Template([Template(ls)]) == Template([""] + ls + [""])
  {
    JoinSpliced("\n", [""], ls, [""]);
    JoinAppend("\n", [""], ls);
    JoinAppend("\n", [""] + ls, [""]);
    assert Join("\n", [""] + [Join("\n", ls)] + [""]) == "\n" + Join("\n", ls) + "\n";
  }

  /** A template nested alone in another is framed by two empty lines, and nothing else changes. */
  lemma NestedTemplateLines(ls: seq<string>)
    requires |ls| >= 1 && ls[0] != "" && !IsWhitespace(ls[0][0])
    requires forall i :: 0 <= i < |ls| ==> SingleLine(ls[i])
    ensures Lines(TrimIndent(Template([Template(ls)]))) == [""] + ls + [""]
  {
    TemplateOfTemplate(ls);
    var all := [""] + ls + [""];
    assert all[1] == ls[0];
    assert forall i :: 0 <= i < |all| ==> SingleLine(all[i]);
    TrimIndentTemplateLines(all, 1);
  }

  /**
   * A table nested alone in a template: a head of single lines, the first starting in column
   * 0, and rows joined into the last line; the result reads as the head and the rows, framed
   * by two empty lines.
   */
  lemma FramedTableLines(head: seq<string>, rows: seq<string>)
    requires |head| >= 1 && head[0] != "" && !IsWhitespace(head[0][0])
    requires forall i :: 0 <= i < |head| ==> SingleLine(head[i])
    requires |rows| >= 1 && forall i :: 0 <= i < |rows| ==> SingleLine(rows[i])
    ensures Lines(TrimIndent(Template([Template(head + [Join("\n", rows)])]))) == [""] + head + rows + [""]
  {
    var ls := head + rows;
    SplicedTemplate(head, rows);
    forall i | 0 <= i < |ls| ensures SingleLine(ls[i]) {
      if i < |head| {
        assert ls[i] == head[i];
      } else {
        assert ls[i] == rows[i - |head|];
      }
    }
    assert ls[0] == head[0];
    NestedTemplateLines(ls);
    RegroupFramed(head, rows);
  }

  lemma RegroupFramed(a: seq<string>, b: seq<string>)
    ensures [""] + (a + b) + [""] == [""] + a + b + [""]
  {
    var x, y := [""] + (a + b) + [""], [""] + a + b + [""];
    assert |x| == |y|;
    forall i | 0 <= i < |x| ensures x[i] == y[i] {
      if i == 0 {
      } else if i <= |a| {
        assert x[i] == a[i - 1] == y[i];
      } else if i <= |a| + |b| {
        assert x[i] == b[i - 1 - |a|] == y[i];
      }
    }
  }

  /** Rows joined into a template's last line read as lines of the template itself. */
  lemma SplicedTemplate(head: seq<string>, rows: seq<string>)
    requires |rows| >= 1
    ensures Template(head + [Join("\n", rows)]) == Template(head + rows)
  {
    JoinSpliced("\n", head, rows, []);
    assert head + [Join("\n", rows)] + [] == head + [Join("\n", rows)];
    assert head + rows + [] == head + rows;
  }

  /** Two sections, the first starting in column 0, one template line each. */
  lemma TrimIndentOfTwo(x: string, y: string)
    requires x != "" && !IsWhitespace(x[0]) && '\r' !in x && '\r' !in y
    ensures TrimIndent(Template([x, y])) == x + "\n" + y
  {
    TrimIndentTemplate([x, y], 0);
    assert [x, y][1..] == [y];
  }

  /** Two sections, the first starting in column 0, separated by an empty template line. */
  lemma TrimIndentOfTwoApart(x: string, y: string)
    requires x != "" && !IsWhitespace(x[0]) && '\r' !in x && '\r' !in y
    ensures TrimIndent(Template([x, "", y])) == x + "\n\n" + y
  {
    TrimIndentTemplate([x, "", y], 0);
    assert [x, "", y][1..] == ["", y] && ["", y][1..] == [y];
    assert Join("\n", ["", y]) == "\n" + y;
    assert Join("\n", [x, "", y]) == x + "\n" + ("\n" + y);
    AppendAssoc(x + "\n", "\n", y);
    AppendAssoc(x, "\n", "\n");
    assert "\n" + "\n" == "\n\n";
  }

  /** A final line break adds one empty last line. */
  lemma LinesOfNewlineEnded(s: string)
    requires '\r' !in s
    ensures Lines(s + "\n") == Lines(s) + [""]
  {
    LinesAreSplit(s);
    LinesAreSplit(s + "\n");
    SplitConcat(s, "", '\n');
    assert s + "\n" == s + ['\n'] + "";
  }

  lemma LowerKeeps(s: string, c: char)
    requires c !in s && !('A' <= c <= 'Z') && !('a' <= c <= 'z')
    ensures c !in Lower(s)
  {
  }

  /** Cutting a known prefix and suffix off a string leaves the part between them. */
  lemma Between(p: string, q: string, a: string, b: string)
    requires p + a + q == p + b + q
    ensures a == b
  {
    var s := p + a + q;
    assert a == s[|p|..|s| - |q|];
    assert b == (p + b + q)[|p|..|s| - |q|];
  }
}
