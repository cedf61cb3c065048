/**
 * `get_line_values` (main.py:93-123): one line of a colormap file is split
 * on whitespace into at most three tokens, each read as a base-10 integer
 * and checked to lie in 0..255.
 *
 * Splitting follows `str.split()` without arguments: tokens are the maximal
 * runs of characters that are not whitespace. Integer reading follows
 * `int(token)`: an optional sign, then ASCII digits with single underscores
 * allowed between two digits; leading zeros are accepted.
 */
module LineValues {
  import opened Common

  /** Why a line is rejected, in the order the checks are made. */
  datatype LineError = TooManyValues | NotAnInteger | OutOfRange

  datatype Parsed = Values(ints: seq<int>) | Rejected(reason: LineError)

  /** The characters `str.split()` treats as whitespace. */
  predicate IsSpace(c: char) {
    || ('\U{9}' <= c <= '\U{D}') || ('\U{1C}' <= c <= '\U{20}')
    || c == '\U{85}' || c == '\U{A0}' || c == '\U{1680}'
    || ('\U{2000}' <= c <= '\U{200A}') || c == '\U{2028}' || c == '\U{2029}'
    || c == '\U{202F}' || c == '\U{205F}' || c == '\U{3000}'
  }

  /** A token: non-empty, without whitespace. */
  predicate Word(w: string) {
    |w| > 0 && forall i :: 0 <= i < |w| ==> !IsSpace(w[i])
  }

  /** The length of the token at the start of s. */
  function WordLength(s: string): (n: nat)
    requires s != [] && !IsSpace(s[0])
    ensures 1 <= n <= |s| && Word(s[..n]) && (n < |s| ==> IsSpace(s[n]))
  {
    if |s| == 1 || IsSpace(s[1]) then 1 else 1 + WordLength(s[1..])
  }

  /** `line.split()`: the maximal runs of non-whitespace characters, in order. */
  function Split(s: string): (r: seq<string>)
    ensures forall i :: 0 <= i < |r| ==> Word(r[i])
    decreases |s|
  {
    if s == [] then []
    else if IsSpace(s[0]) then Split(s[1..])
    else
      var n := WordLength(s);
      [s[..n]] + Split(s[n..])
  }

  /** Tokens written out separated by single spaces. */
  function Join(ts: seq<string>): string {
    if ts == [] then ""
    else if |ts| == 1 then ts[0]
    else ts[0] + " " + Join(ts[1..])
  }

  /** The characters of s that are not whitespace, in order. */
  function NonSpace(s: string): string {
    if s == [] then "" else (if IsSpace(s[0]) then "" else [s[0]]) + NonSpace(s[1..])
  }

  /** All tokens concatenated. */
  function Concat(ts: seq<string>): string {
    if ts == [] then "" else ts[0] + Concat(ts[1..])
  }

  lemma {:induction false} NonSpaceAppend(a: string, b: string)
    ensures NonSpace(a + b) == NonSpace(a) + NonSpace(b)
    decreases |a|
  {
    if a == [] {
      assert a + b == b;
    } else {
      assert (a + b)[1..] == a[1..] + b;
      NonSpaceAppend(a[1..], b);
    }
  }

  lemma {:induction false} NonSpaceWord(w: string)
    requires forall i :: 0 <= i < |w| ==> !IsSpace(w[i])
    ensures NonSpace(w) == w
    decreases |w|
  {
    if w != [] {
      NonSpaceWord(w[1..]);
    }
  }

  /** Splitting keeps every non-whitespace character and drops all the others. */
  lemma {:induction false} SplitKeepsText(s: string)
    ensures Concat(Split(s)) == NonSpace(s)
    decreases |s|
  {
    if s != [] {
      if IsSpace(s[0]) {
        SplitKeepsText(s[1..]);
      } else {
        var n := WordLength(s);
        assert s == s[..n] + s[n..];
        NonSpaceAppend(s[..n], s[n..]);
        NonSpaceWord(s[..n]);
        SplitKeepsText(s[n..]);
        assert Split(s)[1..] == Split(s[n..]);
      }
    }
  }

  /** A line of whitespace only has no tokens. */
  lemma {:induction false} SplitBlank(s: string)
    requires forall i :: 0 <= i < |s| ==> IsSpace(s[i])
    ensures Split(s) == []
    decreases |s|
  {
    if s != [] {
      SplitBlank(s[1..]);
    }
  }

  lemma {:induction false} WordLengthOf(w: string, tail: string)
    requires Word(w) && (tail == [] || IsSpace(tail[0]))
    ensures WordLength(w + tail) == |w|
    decreases |w|
  {
    if |w| > 1 {
      assert (w + tail)[1..] == w[1..] + tail;
      WordLengthOf(w[1..], tail);
    }
  }

  /** Tokens joined by single spaces split back into the same tokens. */
  lemma {:induction false} SplitJoin(ts: seq<string>)
    requires forall i :: 0 <= i < |ts| ==> Word(ts[i])
    ensures Split(Join(ts)) == ts
    decreases |ts|
  {
    if ts == [] {
    } else if |ts| == 1 {
      var w := ts[0];
      WordLengthOf(w, "");
      assert w + "" == w;
      assert w[|w|..] == [];
      assert w[..|w|] == w;
    } else {
      var w, rest := ts[0], " " + Join(ts[1..]);
      assert Join(ts) == w + rest;
      WordLengthOf(w, rest);
      assert (w + rest)[..|w|] == w;
      assert (w + rest)[|w|..] == rest;
      assert rest[1..] == Join(ts[1..]);
      SplitJoin(ts[1..]);
    }
  }

  predicate IsDigit(c: char) {
    '0' <= c <= '9'
  }

  /**
   * The digits part that `int()` accepts in base 10: digits, where every
   * underscore stands between two digits.
   */
  predicate Numeral(s: string) {
    && |s| > 0
    && forall i {:trigger s[i]} :: 0 <= i < |s| ==>
         IsDigit(s[i]) || (s[i] == '_' && 0 < i < |s| - 1 && IsDigit(s[i - 1]) && IsDigit(s[i + 1]))
  }

  /** The value of the digits of s, underscores skipped. */
  function NumeralValue(s: string): (v: nat) {
    if s == [] then 0
    else if IsDigit(s[|s| - 1]) then 10 * NumeralValue(s[..|s| - 1]) + (s[|s| - 1] - '0') as nat
    else NumeralValue(s[..|s| - 1])
  }

  /**
   * The longest decimal numeral `int()` converts: CPython 3.11 and later
   * refuse a string of more than 4300 digits (underscores not counted)
   * unless the limit has been raised with `sys.set_int_max_str_digits`.
   */
  const MaxDigits := 4300

  /** The number of digits in s. */
  function DigitCount(s: string): (n: nat)
    ensures n <= |s|
    ensures (forall i :: 0 <= i < |s| ==> IsDigit(s[i])) ==> n == |s|
  {
    if s == [] then 0 else (if IsDigit(s[0]) then 1 else 0) + DigitCount(s[1..])
  }

  /** A numeral short enough for `int()` to convert. */
  predicate Convertible(s: string) {
    Numeral(s) && DigitCount(s) <= MaxDigits
  }

  /** `int(token)`: None where Python raises ValueError. */
  function ParseInt(t: string): (r: Option<int>)
    ensures r.Some? <==> |t| > 0 && (Convertible(t) || ((t[0] == '+' || t[0] == '-') && Convertible(t[1..])))
    ensures r.Some? && r.value < 0 ==> t[0] == '-'
  {
    if |t| > 0 && (t[0] == '+' || t[0] == '-') then
      if Convertible(t[1..]) then Some(if t[0] == '-' then -(NumeralValue(t[1..]) as int) else NumeralValue(t[1..]))
      else None
    else if Convertible(t) then Some(NumeralValue(t))
    else None
  }

  /** The decimal digits of n, most significant first. */
  function Digits(n: nat): (s: string)
    ensures |s| > 0 && forall i :: 0 <= i < |s| ==> IsDigit(s[i])
  {
    if n < 10 then [(n + '0' as int) as char] else Digits(n / 10) + [(n % 10 + '0' as int) as char]
  }

  /** The decimal form of n, with a minus sign when negative. */
  function Show(n: int): string {
    if n < 0 then "-" + Digits(-n) else Digits(n)
  }

  lemma {:induction false} DigitsValue(n: nat)
    ensures NumeralValue(Digits(n)) == n
    decreases n
  {
    var s := Digits(n);
    if n >= 10 {
      DigitsValue(n / 10);
      assert s[..|s| - 1] == Digits(n / 10);
    }
  }

  /** 10 to the power k. */
  function Pow10(k: nat): (r: nat)
    ensures r >= 1
  {
    if k == 0 then 1 else 10 * Pow10(k - 1)
  }

  /** A number below 10^k, k >= 1, has at most k decimal digits. */
  lemma {:induction false} DigitsBelow(n: nat, k: nat)
    requires k >= 1 && n < Pow10(k)
    ensures |Digits(n)| <= k
    decreases k
  {
    if n >= 10 {
      assert n / 10 < Pow10(k - 1);
      DigitsBelow(n / 10, k - 1);
    }
  }

  /**
   * Reading back the decimal form of an integer gives that integer, for
   * every integer of at most MaxDigits digits.
   */
  lemma ParseShow(n: int)
    requires -(Pow10(MaxDigits) as int) < n < Pow10(MaxDigits)
    ensures ParseInt(Show(n)) == Some(n)
  {
    var m: nat := if n < 0 then -n else n;
    var d := Digits(m);
    DigitsValue(m);
    DigitsBelow(m, MaxDigits);
    assert Numeral(d) && DigitCount(d) == |d|;
    assert Convertible(d);
    if n < 0 {
      assert Show(n)[1..] == d;
    } else {
      assert IsDigit(d[0]);
    }
  }

  /** A numeral of more than MaxDigits digits is refused, signed or not. */
  lemma TooManyDigits(s: string)
    requires Numeral(s) && DigitCount(s) > MaxDigits
    ensures ParseInt(s) == None && ParseInt("-" + s) == None && ParseInt("+" + s) == None
  {
    assert ("-" + s)[1..] == s && ("+" + s)[1..] == s;
  }

  /** The decimal form of an integer is a token. */
  lemma ShowWord(n: int)
    ensures Word(Show(n))
  {
    var d := Digits(if n < 0 then -n else n);
    assert forall i :: 0 <= i < |d| ==> !IsSpace(d[i]);
  }

  /**
   * The list comprehension `[int(value) for value in values]`: every token
   * read as an integer, None as soon as one of them is not one.
   */
  function ParseAll(ts: seq<string>): (r: Option<seq<int>>)
    ensures r.None? <==> exists i :: 0 <= i < |ts| && ParseInt(ts[i]).None?
    ensures r.Some? ==> |r.value| == |ts| && forall i :: 0 <= i < |ts| ==> ParseInt(ts[i]) == Some(r.value[i])
  {
    if ts == [] then Some([])
    else match ParseInt(ts[0])
      case None => None
      case Some(v) =>
        var rest := ParseAll(ts[1..]);
        if rest.None? then
          var i :| 0 <= i < |ts[1..]| && ParseInt(ts[1..][i]).None?;
          assert ParseInt(ts[i + 1]).None?;
          None
        else Some([v] + rest.value)
  }

  predicate InByte(v: int) {
    0 <= v <= 255
  }

  /**
   * `get_line_values`: more than three tokens, then a token that is not an
   * integer, then an integer outside 0..255 reject the line; otherwise the
   * integers come back in token order.
   */
  function GetLineValues(line: string): (r: Parsed)
    ensures r == Rejected(TooManyValues) <==> |Split(line)| > 3
    ensures r == Rejected(NotAnInteger) <==>
      |Split(line)| <= 3 && exists i :: 0 <= i < |Split(line)| && ParseInt(Split(line)[i]).None?
    ensures r == Rejected(OutOfRange) <==>
      && |Split(line)| <= 3 && ParseAll(Split(line)).Some?
      && exists i :: 0 <= i < |Split(line)| && !InByte(ParseAll(Split(line)).value[i])
    ensures r.Values? ==>
      && |r.ints| == |Split(line)| <= 3
      && forall i :: 0 <= i < |r.ints| ==> InByte(r.ints[i]) && ParseInt(Split(line)[i]) == Some(r.ints[i])
  {
    var values := Split(line);
    if |values| > 3 then Rejected(TooManyValues)
    else match ParseAll(values)
      case None => Rejected(NotAnInteger)
      case Some(ints) =>
        if exists i :: 0 <= i < |ints| && !InByte(ints[i]) then Rejected(OutOfRange) else Values(ints)
  }

  /** The decimal forms of a list of integers. */
  function ShowAll(vs: seq<int>): (ts: seq<string>)
    ensures |ts| == |vs| && forall i :: 0 <= i < |vs| ==> ts[i] == Show(vs[i])
  {
    if vs == [] then [] else [Show(vs[0])] + ShowAll(vs[1..])
  }

  /**
   * A line written as up to three values in 0..255 separated by single
   * spaces is read back as those values.
   */
  lemma LineRoundTrip(vs: seq<int>)
    requires |vs| <= 3 && forall i :: 0 <= i < |vs| ==> InByte(vs[i])
    ensures GetLineValues(Join(ShowAll(vs))) == Values(vs)
  {
    var ts := ShowAll(vs);
    assert Pow10(3) == 1000;
    forall i | 0 <= i < |ts| ensures Word(ts[i]) && ParseInt(ts[i]) == Some(vs[i]) {
      ShowWord(vs[i]);
      DigitsBelow(vs[i], 3);
      ParseShow(vs[i]);
    }
    SplitJoin(ts);
    var r := ParseAll(ts);
    assert r.value == vs;
  }

  /** A blank line gives no values. */
  lemma BlankLine(line: string)
    requires forall i :: 0 <= i < |line| ==> IsSpace(line[i])
    ensures GetLineValues(line) == Values([])
  {
    SplitBlank(line);
  }
}
