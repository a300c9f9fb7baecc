/**
 * The parts of java.lang.String, java.lang.Integer and java.io.BufferedReader
 * that the file-backed storage relies on to write and read its text, as
 * functions over strings: trim, indexOf, lastIndexOf, startsWith, endsWith,
 * replace of one character by nothing, split (for the two separators the
 * source uses), Integer.parseInt and Integer.toString, println and readLine.
 */
module Text {
  import opened Wrappers

  // ------------------------------------------------------------------ trim

  /** The first index from st on whose character is above U+0020, or |s|. */
  function SkipLow(s: string, st: nat): (r: nat)
    requires st <= |s|
    ensures st <= r <= |s|
    ensures forall i :: st <= i < r ==> s[i] <= ' '
    ensures r < |s| ==> s[r] > ' '
    decreases |s| - st
  {
    if st < |s| && s[st] <= ' ' then SkipLow(s, st + 1) else st
  }

  /** The end left once characters up to U+0020 are dropped from the back, not below st. */
  function DropLow(s: string, st: nat, len: nat): (r: nat)
    requires st <= len <= |s|
    ensures st <= r <= len
    ensures forall i :: r <= i < len ==> s[i] <= ' '
    ensures r > st ==> s[r - 1] > ' '
    decreases len
  {
    if st < len && s[len - 1] <= ' ' then DropLow(s, st, len - 1) else len
  }

  /**
   * String.trim: the characters up to U+0020 at both ends are dropped; what
   * is left starts and ends above U+0020 and is all of s between the two
   * dropped runs.
   */
  function Trim(s: string): (r: string)
    ensures |r| <= |s|
    ensures r == [] || (r[0] > ' ' && r[|r| - 1] > ' ')
    ensures exists a, b :: 0 <= a <= b <= |s| && r == s[a..b]
              && (forall i :: 0 <= i < a ==> s[i] <= ' ') && (forall i :: b <= i < |s| ==> s[i] <= ' ')
  {
    var st := SkipLow(s, 0);
    s[st..DropLow(s, st, |s|)]
  }

  /** A string whose ends are above U+0020 is its own trim. */
  lemma TrimTight(s: string)
    requires s == [] || (s[0] > ' ' && s[|s| - 1] > ' ')
    ensures Trim(s) == s
  {
  }

  function Spaces(n: nat): (r: string)
    ensures |r| == n && forall i :: 0 <= i < n ==> r[i] == ' '
  {
    if n == 0 then [] else [' '] + Spaces(n - 1)
  }

  /** SkipLow stops at the first character above U+0020. */
  lemma {:induction false} SkipLowAt(s: string, st: nat, k: nat)
    requires st <= k <= |s|
    requires forall i :: st <= i < k ==> s[i] <= ' '
    requires k < |s| ==> s[k] > ' '
    ensures SkipLow(s, st) == k
    decreases k - st
  {
    if st < k {
      SkipLowAt(s, st + 1, k);
    }
  }

  /** DropLow stops after the last character above U+0020. */
  lemma {:induction false} DropLowAt(s: string, st: nat, len: nat, k: nat)
    requires st <= k <= len <= |s|
    requires forall i :: k <= i < len ==> s[i] <= ' '
    requires k > st ==> s[k - 1] > ' '
    ensures DropLow(s, st, len) == k
    decreases len - k
  {
    if k < len {
      DropLowAt(s, st, len - 1, k);
    }
  }

  /** Indentation does not survive trim. */
  lemma TrimIndented(n: nat, s: string)
    requires s == [] || (s[0] > ' ' && s[|s| - 1] > ' ')
    ensures Trim(Spaces(n) + s) == s
  {
    IndentSkipped(n, s);
    TightEnd(n, s);
    AfterPrefix(Spaces(n), s);
  }

  /** The leading run trim drops is exactly the indentation. */
  lemma IndentSkipped(n: nat, s: string)
    requires s == [] || s[0] > ' '
    ensures SkipLow(Spaces(n) + s, 0) == n
  {
    var t := Spaces(n) + s;
    assert forall i :: 0 <= i < n ==> t[i] == Spaces(n)[i];
    assert n < |t| ==> t[n] == s[0];
    SkipLowAt(t, 0, n);
  }

  /** Nothing is dropped at the back of a text that ends above U+0020. */
  lemma TightEnd(n: nat, s: string)
    requires s == [] || s[|s| - 1] > ' '
    ensures DropLow(Spaces(n) + s, n, |Spaces(n) + s|) == |Spaces(n) + s|
  {
    var t := Spaces(n) + s;
    assert |t| > n ==> t[|t| - 1] == s[|s| - 1];
    DropLowAt(t, n, |t|, |t|);
  }

  lemma AfterPrefix<T>(a: seq<T>, b: seq<T>)
    ensures (a + b)[|a|..] == b
  {
  }

  // ------------------------------------------------------ searching strings

  /** String.indexOf of one character: the first position, or -1. */
  function IndexOf(s: string, c: char): (r: int)
    ensures -1 <= r < |s|
    ensures r >= 0 ==> s[r] == c && forall j :: 0 <= j < r ==> s[j] != c
    ensures r == -1 <==> forall j :: 0 <= j < |s| ==> s[j] != c
  {
    if |s| == 0 then -1
    else if s[0] == c then 0
    else
      var k := IndexOf(s[1..], c);
      if k < 0 then -1 else k + 1
  }

  /** String.lastIndexOf of one character: the last position, or -1. */
  function LastIndexOf(s: string, c: char): (r: int)
    ensures -1 <= r < |s|
    ensures r >= 0 ==> s[r] == c && forall j :: r < j < |s| ==> s[j] != c
    ensures r == -1 <==> forall j :: 0 <= j < |s| ==> s[j] != c
  {
    if |s| == 0 then -1
    else if s[|s| - 1] == c then |s| - 1
    else LastIndexOf(s[..|s| - 1], c)
  }

  predicate StartsWith(s: string, prefix: string) {
    |prefix| <= |s| && s[..|prefix|] == prefix
  }

  predicate EndsWith(s: string, suffix: string) {
    |suffix| <= |s| && s[|s| - |suffix|..] == suffix
  }

  /** s.replace(c, "") for a one-character target: every c is removed. */
  function RemoveChar(s: string, c: char): (r: string)
    ensures |r| <= |s|
    ensures forall i :: 0 <= i < |r| ==> r[i] != c
    ensures (forall i :: 0 <= i < |s| ==> s[i] != c) ==> r == s
    ensures multiset(r) == multiset(s)[c := 0]
  {
    if |s| == 0 then []
    else
      assert s == [s[0]] + s[1..];
      (if s[0] == c then [] else [s[0]]) + RemoveChar(s[1..], c)
  }

  lemma {:induction false} RemoveCharAppend(a: string, b: string, c: char)
    ensures RemoveChar(a + b, c) == RemoveChar(a, c) + RemoveChar(b, c)
  {
    if |a| > 0 {
      AppendTail(a, b);
      RemoveCharAppend(a[1..], b, c);
      AppendAssoc(if a[0] == c then [] else [a[0]], RemoveChar(a[1..], c), RemoveChar(b, c));
    } else {
      AppendEmpty(a, b);
    }
  }

  lemma AppendAssoc<T>(a: seq<T>, b: seq<T>, c: seq<T>)
    ensures (a + b) + c == a + (b + c)
  {
  }

  lemma AppendTail<T>(a: seq<T>, b: seq<T>)
    requires |a| > 0
    ensures |a + b| > 0 && (a + b)[0] == a[0] && (a + b)[1..] == a[1..] + b
  {
  }

  lemma AppendNil<T>(a: seq<T>)
    ensures a + [] == a && [] + a == a
  {
  }

  lemma AppendEmpty<T>(a: seq<T>, b: seq<T>)
    requires |a| == 0
    ensures a + b == b
  {
  }

  /** Removing the quotes around a quote-free string gives the string. */
  lemma Unquote(s: string)
    requires forall i :: 0 <= i < |s| ==> s[i] != '"'
    ensures RemoveChar("\"" + s + "\"", '"') == s
  {
    RemoveCharAppend("\"" + s, "\"", '"');
    RemoveCharAppend("\"", s, '"');
  }

  // --------------------------------------------------------------- split

  /**
   * The two separators split is called with: "," and the regular expression
   * \},\s*\{ that separates two records.
   */
  datatype Separator = Comma | RecordBreak {
    /** The only character a match can start with. */
    function Lead(): char {
      match this
      case Comma => ','
      case RecordBreak => '}'
    }
  }

  /** The characters of the regular-expression class \s. */
  predicate IsRegexSpace(ch: char) {
    ch == ' ' || ch == '\t' || ch == '\n' || ch == '\U{B}' || ch == '\U{C}' || ch == '\r'
  }

  /** Length of the run of \s characters at the start of s. */
  function SpaceRun(s: string): (n: nat)
    ensures n <= |s|
    ensures forall i :: 0 <= i < n ==> IsRegexSpace(s[i])
    ensures n < |s| ==> !IsRegexSpace(s[n])
  {
    if |s| > 0 && IsRegexSpace(s[0]) then 1 + SpaceRun(s[1..]) else 0
  }

  /**
   * Length of the separator match that starts at the beginning of s, 0 when
   * none does. The greedy \s* can only be followed by { after the whole run.
   */
  function MatchLength(sep: Separator, s: string): (n: nat)
    ensures n <= |s|
    ensures n > 0 ==> s[0] == sep.Lead()
  {
    match sep
    case Comma => if |s| > 0 && s[0] == ',' then 1 else 0
    case RecordBreak =>
      if |s| >= 2 && s[0] == '}' && s[1] == ',' then
        var w := SpaceRun(s[2..]);
        if 2 + w < |s| && s[2 + w] == '{' then 3 + w else 0
      else 0
  }

  /**
   * The pieces between the matches found scanning s from left to right;
   * cur is the piece collected so far.
   */
  function Pieces(sep: Separator, cur: string, s: string): (r: seq<string>)
    ensures |r| >= 1
    ensures (forall i :: 0 <= i < |s| ==> s[i] != sep.Lead()) ==> r == [cur + s]
    ensures sep == Comma && (forall i :: 0 <= i < |cur| ==> cur[i] != ',') ==>
              forall k, j :: 0 <= k < |r| && 0 <= j < |r[k]| ==> r[k][j] != ','
    decreases |s|
  {
    if |s| == 0 then
      assert cur + s == cur;
      [cur]
    else
      var n := MatchLength(sep, s);
      if n > 0 then [cur] + Pieces(sep, [], s[n..])
      else
        assert cur + [s[0]] + s[1..] == cur + s;
        Pieces(sep, cur + [s[0]], s[1..])
  }

  function DropTrailingEmpty(ps: seq<string>): (r: seq<string>)
    ensures |r| <= |ps| && r == ps[..|r|]
    ensures r == [] || r[|r| - 1] != []
  {
    if |ps| > 0 && ps[|ps| - 1] == [] then DropTrailingEmpty(ps[..|ps| - 1]) else ps
  }

  /**
   * String.split with limit 0: with no match the result is the string
   * itself; otherwise the pieces, less the trailing empty ones.
   */
  function Split(sep: Separator, s: string): (r: seq<string>)
    ensures (forall i :: 0 <= i < |s| ==> s[i] != sep.Lead()) ==> r == [s]
    ensures sep == Comma ==> forall k, j :: 0 <= k < |r| && 0 <= j < |r[k]| ==> r[k][j] != ','
  {
    var ps := Pieces(sep, [], s);
    assert [] + s == s;
    if |ps| == 1 then ps
    else
      var kept := DropTrailingEmpty(ps);
      assert forall k :: 0 <= k < |kept| ==> kept[k] == ps[k];
      kept
  }

  /** Characters that cannot start a match are collected into the current piece. */
  lemma {:induction false} PiecesSkip(sep: Separator, cur: string, a: string, t: string)
    requires forall i :: 0 <= i < |a| ==> a[i] != sep.Lead()
    ensures Pieces(sep, cur, a + t) == Pieces(sep, cur + a, t)
    decreases |a|
  {
    if |a| == 0 {
      assert a + t == t && cur + a == cur;
    } else {
      assert MatchLength(sep, a + t) == 0;
      assert (a + t)[1..] == a[1..] + t;
      PiecesSkip(sep, cur + [a[0]], a[1..], t);
      assert cur + [a[0]] + a[1..] == cur + a;
    }
  }

  /** A comma closes the current piece. */
  lemma PiecesAtComma(cur: string, t: string)
    ensures Pieces(Comma, cur, "," + t) == [cur] + Pieces(Comma, [], t)
  {
    assert ("," + t)[1..] == t;
  }

  /** "},{" closes the current piece. */
  lemma PiecesAtRecordBreak(cur: string, t: string)
    ensures Pieces(RecordBreak, cur, "},{" + t) == [cur] + Pieces(RecordBreak, [], t)
  {
    var s := "},{" + t;
    assert s[2..] == "{" + t;
    assert SpaceRun(s[2..]) == 0;
    assert MatchLength(RecordBreak, s) == 3;
    assert s[3..] == t;
  }

  // ------------------------------------------------------ integers as text

  predicate IsDigit(c: char) {
    '0' <= c <= '9'
  }

  predicate AllDigits(s: string) {
    forall i :: 0 <= i < |s| ==> IsDigit(s[i])
  }

  function DigitChar(d: nat): (c: char)
    requires d < 10
    ensures IsDigit(c) && c as int - '0' as int == d
  {
    (('0' as int) + d) as char
  }

  /** The decimal digits of n, most significant first, without leading zeros. */
  function NatToString(n: nat): (r: string)
    ensures |r| > 0 && AllDigits(r)
  {
    if n < 10 then [DigitChar(n)] else NatToString(n / 10) + [DigitChar(n % 10)]
  }

  /** Integer.toString, which string concatenation with an int uses. */
  function IntToString(n: int): (r: string)
    ensures |r| > 0
    ensures n >= 0 ==> AllDigits(r)
    ensures n < 0 ==> r[0] == '-' && AllDigits(r[1..])
  {
    if n < 0 then "-" + NatToString(-n) else NatToString(n)
  }

  /** The value of a string of decimal digits. */
  function DigitsValue(s: string): nat
    requires AllDigits(s)
  {
    if |s| == 0 then 0
    else DigitsValue(s[..|s| - 1]) * 10 + (s[|s| - 1] as int - '0' as int)
  }

  lemma {:induction false} DigitsRoundTrip(n: nat)
    ensures DigitsValue(NatToString(n)) == n
  {
    if n >= 10 {
      var s := NatToString(n);
      assert s[..|s| - 1] == NatToString(n / 10);
      DigitsRoundTrip(n / 10);
    }
  }

  const IntMin: int := -0x8000_0000
  const IntMax: int := 0x7fff_ffff

  /**
   * Integer.parseInt in base 10: an optional sign, then one or more digits,
   * with a value in the range of int; None where parseInt throws.
   */
  function ParseInt(s: string): (r: Option<int>)
    ensures r.Some? ==> IntMin <= r.value <= IntMax
    ensures r.Some? ==> |s| > 0 && AllDigits(if s[0] == '-' || s[0] == '+' then s[1..] else s)
    ensures r.Some? && |s| > 0 && s[0] == '-' ==> r.value <= 0
    ensures r.Some? && |s| > 0 && s[0] != '-' ==> r.value >= 0
  {
    if |s| == 0 then None
    else if s[0] == '-' || s[0] == '+' then
      if |s| == 1 || !AllDigits(s[1..]) then None
      else
        var v: int := if s[0] == '-' then 0 - DigitsValue(s[1..]) as int else DigitsValue(s[1..]);
        if IntMin <= v <= IntMax then Some(v) else None
    else if AllDigits(s) && DigitsValue(s) <= IntMax then Some(DigitsValue(s))
    else None
  }

  /** Every int is read back by parseInt from its decimal text. */
  lemma ParseIntToString(n: int)
    requires IntMin <= n <= IntMax
    ensures ParseInt(IntToString(n)) == Some(n)
  {
    if n < 0 {
      DigitsRoundTrip(-n);
      assert IntToString(n)[1..] == NatToString(-n);
    } else {
      DigitsRoundTrip(n);
    }
  }

  // -------------------------------------------------------------- lines

  predicate IsLineBreak(c: char) {
    c == '\n' || c == '\r'
  }

  predicate NoLineBreak(s: string) {
    forall i :: 0 <= i < |s| ==> !IsLineBreak(s[i])
  }

  /** What PrintWriter.println writes for each line, with "\n" as line separator. */
  function PrintLines(lines: seq<string>): (r: string)
    ensures |r| >= |lines|
    ensures r == [] <==> lines == []
    ensures lines != [] ==> r[|r| - 1] == '\n'
  {
    if |lines| == 0 then [] else lines[0] + "\n" + PrintLines(lines[1..])
  }

  lemma PrintOne(line: string)
    ensures PrintLines([line]) == line + "\n"
  {
    assert [line][1..] == [];
  }

  lemma {:induction false} PrintLinesAppend(a: seq<string>, b: seq<string>)
    ensures PrintLines(a + b) == PrintLines(a) + PrintLines(b)
  {
    if |a| == 0 {
      assert a + b == b;
    } else {
      assert (a + b)[1..] == a[1..] + b;
      PrintLinesAppend(a[1..], b);
    }
  }

  /**
   * The lines BufferedReader.readLine returns until it returns null: a line
   * ends at "\n", "\r" or "\r\n", and a last line needs no terminator.
   */
  function ReadLinesFrom(cur: string, s: string): (r: seq<string>)
    ensures NoLineBreak(cur) ==> forall k :: 0 <= k < |r| ==> NoLineBreak(r[k])
    decreases |s|
  {
    if |s| == 0 then (if cur == [] then [] else [cur])
    else if s[0] == '\n' then [cur] + ReadLinesFrom([], s[1..])
    else if s[0] == '\r' then
      [cur] + ReadLinesFrom([], if |s| > 1 && s[1] == '\n' then s[2..] else s[1..])
    else ReadLinesFrom(cur + [s[0]], s[1..])
  }

  /** The lines readLine returns until it returns null; none holds a line break. */
  function ReadLines(s: string): (r: seq<string>)
    ensures forall k :: 0 <= k < |r| ==> NoLineBreak(r[k])
  {
    ReadLinesFrom([], s)
  }

  lemma {:induction false} ReadLinesSkip(cur: string, a: string, t: string)
    requires NoLineBreak(a)
    ensures ReadLinesFrom(cur, a + t) == ReadLinesFrom(cur + a, t)
    decreases |a|
  {
    if |a| == 0 {
      assert a + t == t && cur + a == cur;
    } else {
      assert (a + t)[1..] == a[1..] + t;
      ReadLinesSkip(cur + [a[0]], a[1..], t);
      assert cur + [a[0]] + a[1..] == cur + a;
    }
  }

  /** Reading back what println wrote gives the same lines, if none holds a line break. */
  lemma {:induction false} ReadPrintedLines(lines: seq<string>)
    requires forall i :: 0 <= i < |lines| ==> NoLineBreak(lines[i])
    ensures ReadLines(PrintLines(lines)) == lines
  {
    if |lines| > 0 {
      var rest := PrintLines(lines[1..]);
      assert PrintLines(lines) == lines[0] + ("\n" + rest);
      ReadLinesSkip([], lines[0], "\n" + rest);
      assert [] + lines[0] == lines[0];
      assert ("\n" + rest)[1..] == rest;
      ReadPrintedLines(lines[1..]);
    }
  }
}
