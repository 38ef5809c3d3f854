/** Text primitives behind the save format and the asset loaders: the words of
    a line, decimal formatting (`std::to_string`), the `operator>>` extractions
    of an `std::istringstream` (words, `int`, `uint32_t`), `std::stoi`, and the
    comma-separated fields that `getline(ss, tok, ',')` reads. */
module Text {
  import opened Grid

  /** The characters `isspace` accepts in the "C" locale. */
  predicate IsSpace(c: char)
  {
    c == ' ' || c == '\t' || c == '\n' || c == '\r' || c == '\U{000B}' || c == '\U{000C}'
  }

  /** A word: what one `>> std::string` extraction can return. */
  predicate IsWord(s: string)
  {
    |s| > 0 && forall i :: 0 <= i < |s| ==> !IsSpace(s[i])
  }

  /** Text that an extraction sees as the end of a word or number. */
  predicate EndsToken(s: string)
  {
    s == [] || IsSpace(s[0])
  }

  function DropSpaces(s: string): (r: string)
    ensures |r| <= |s| && r == s[|s| - |r|..]
    ensures r == [] || !IsSpace(r[0])
  {
    if s != [] && IsSpace(s[0]) then DropSpaces(s[1..]) else s
  }

  /** Length of the longest prefix without whitespace. */
  function WordLen(s: string): (n: nat)
    ensures n <= |s|
    ensures IsWord(s[..n]) || n == 0
    ensures EndsToken(s[n..])
  {
    if s != [] && !IsSpace(s[0]) then
      var k := WordLen(s[1..]);
      assert s[..1 + k] == [s[0]] + s[1..][..k];
      assert s[1 + k..] == s[1..][k..];
      1 + k
    else 0
  }

  lemma {:induction false} WordLenOfWord(a: string, b: string)
    requires IsWord(a) && EndsToken(b)
    ensures WordLen(a + b) == |a|
    decreases |a|
  {
    assert (a + b)[0] == a[0];
    if |a| > 1 {
      assert (a + b)[1..] == a[1..] + b;
      WordLenOfWord(a[1..], b);
    } else {
      assert (a + b)[1..] == b;
    }
  }

  lemma DropSpacesOfWord(a: string, b: string)
    requires IsWord(a)
    ensures DropSpaces(a + b) == a + b
  {
    assert (a + b)[0] == a[0];
  }

  /** A single leading space is skipped like any other whitespace. */
  lemma DropSpaceCons(s: string)
    ensures DropSpaces(" " + s) == DropSpaces(s)
  {
    assert (" " + s)[1..] == s;
  }

  /** Words joined by single spaces, the way the save format writes a line. */
  function Join(ws: seq<string>): string
  {
    if ws == [] then ""
    else if |ws| == 1 then ws[0]
    else ws[0] + " " + Join(ws[1..])
  }

  /** A joined line of words starts with its first word and the rest follows
      after one space. */
  lemma JoinCons(ws: seq<string>)
    requires |ws| >= 2
    ensures Join(ws) == ws[0] + (" " + Join(ws[1..]))
  {
  }

  // ---- decimal integers ----

  function DigitChar(d: int): (c: char)
    requires 0 <= d < 10
    ensures '0' <= c <= '9'
    ensures (c as int) - ('0' as int) == d
  {
    (('0' as int) + d) as char
  }

  predicate IsDigit(c: char)
  {
    '0' <= c <= '9'
  }

  predicate AllDigits(s: string)
  {
    forall i :: 0 <= i < |s| ==> IsDigit(s[i])
  }

  function NatToString(n: nat): (s: string)
    ensures |s| > 0 && AllDigits(s)
  {
    if n < 10 then [DigitChar(n)] else NatToString(n / 10) + [DigitChar(n % 10)]
  }

  /** `std::to_string(int)`: an optional minus sign and the decimal digits. */
  function IntToString(n: int): (s: string)
    ensures IsWord(s)
    ensures s[0] == '-' <==> n < 0
  {
    if n < 0 then "-" + NatToString(-n) else NatToString(n)
  }

  /** The value of a run of decimal digits. */
  function DigitsValue(s: string): nat
    requires AllDigits(s)
  {
    if s == [] then 0 else DigitsValue(s[..|s| - 1]) * 10 + ((s[|s| - 1] as int) - ('0' as int))
  }

  /** Length of the longest prefix made of decimal digits. */
  function DigitRun(s: string): (n: nat)
    ensures n <= |s| && AllDigits(s[..n])
    ensures n < |s| ==> !IsDigit(s[n])
  {
    if s != [] && IsDigit(s[0]) then
      var k := DigitRun(s[1..]);
      assert s[..1 + k] == [s[0]] + s[1..][..k];
      1 + k
    else 0
  }

  lemma {:induction false} NatRoundTrip(n: nat)
    ensures DigitsValue(NatToString(n)) == n
  {
    if n < 10 {
      assert NatToString(n)[..0] == [];
    } else {
      var s := NatToString(n);
      assert s[..|s| - 1] == NatToString(n / 10);
      NatRoundTrip(n / 10);
    }
  }

  lemma {:induction false} DigitRunOfDigits(a: string, b: string)
    requires AllDigits(a) && EndsToken(b)
    ensures DigitRun(a + b) == |a|
    decreases |a|
  {
    if a == [] {
      assert a + b == b;
    } else {
      assert (a + b)[0] == a[0];
      assert (a + b)[1..] == a[1..] + b;
      DigitRunOfDigits(a[1..], b);
    }
  }

  /** A number as the numeric extractors scan it: after the whitespace, an
      optional sign and the digit run; None when there are no digits.
      Yields (negative, magnitude, text after the digits). */
  function ScanNumber(s: string): (r: Option<(bool, nat, string)>)
  {
    var t := DropSpaces(s);
    var neg := t != [] && t[0] == '-';
    var signLen := if t != [] && (t[0] == '-' || t[0] == '+') then 1 else 0;
    var u := t[signLen..];
    var k := DigitRun(u);
    if k == 0 then None else Some((neg, DigitsValue(u[..k]), u[k..]))
  }

  /** The digits of a number followed by the end of a token scan as that number. */
  lemma ScanDigits(digits: string, rest: string)
    requires |digits| > 0 && AllDigits(digits) && EndsToken(rest)
    ensures DigitRun(digits + rest) == |digits|
    ensures (digits + rest)[..|digits|] == digits
    ensures (digits + rest)[|digits|..] == rest
  {
    DigitRunOfDigits(digits, rest);
  }

  lemma ScanUnsigned(pre: string, digits: string, rest: string)
    requires |digits| > 0 && AllDigits(digits) && EndsToken(rest)
    requires DropSpaces(pre) == digits + rest
    ensures ScanNumber(pre) == Some((false, DigitsValue(digits), rest))
  {
    ScanDigits(digits, rest);
    assert IsDigit((digits + rest)[0]);
  }

  lemma ScanNegative(pre: string, digits: string, rest: string)
    requires |digits| > 0 && AllDigits(digits) && EndsToken(rest)
    requires DropSpaces(pre) == "-" + (digits + rest)
    ensures ScanNumber(pre) == Some((true, DigitsValue(digits), rest))
  {
    ScanDigits(digits, rest);
    var t := DropSpaces(pre);
    assert t[0] == '-';
    assert t[1..] == digits + rest;
  }

  /** Scanning what `std::to_string` wrote finds that number and stops right after it. */
  lemma ScanIntToString(n: int, pre: string, rest: string)
    requires DropSpaces(pre) == IntToString(n) + rest
    requires EndsToken(rest)
    ensures n >= 0 ==> ScanNumber(pre) == Some((false, n, rest))
    ensures n < 0 ==> ScanNumber(pre) == Some((true, -n, rest))
  {
    if n < 0 {
      ScanMinus(n, pre, rest);
    } else {
      ScanNat(n, pre, rest);
    }
  }

  lemma ScanNat(n: int, pre: string, rest: string)
    requires n >= 0 && DropSpaces(pre) == IntToString(n) + rest
    requires EndsToken(rest)
    ensures ScanNumber(pre) == Some((false, n, rest))
  {
    assert IntToString(n) == NatToString(n);
    ScanUnsigned(pre, NatToString(n), rest);
    NatRoundTrip(n);
  }

  lemma ScanMinus(n: int, pre: string, rest: string)
    requires n < 0 && DropSpaces(pre) == IntToString(n) + rest
    requires EndsToken(rest)
    ensures ScanNumber(pre) == Some((true, -n, rest))
  {
    var d := NatToString(-n);
    assert IntToString(n) == "-" + d;
    SignAssoc(d, rest);
    ScanNegative(pre, d, rest);
    NatRoundTrip(-n);
  }

  lemma SignAssoc(d: string, rest: string)
    ensures ("-" + d) + rest == "-" + (d + rest)
  {
  }

  // ---- `std::istringstream` extraction ----

  /** What is left of an `istringstream` and whether it is still good. Once an
      extraction fails, every later extraction fails and leaves its target alone. */
  datatype Stream = Stream(rest: string, good: bool)

  /** A fresh `std::istringstream` over one line. */
  function Open(line: string): (st: Stream)
    ensures st.good && st.rest == line
  {
    Stream(line, true)
  }

  /** `in >> word`: skips whitespace and takes the next word; at the end of the
      text it fails and leaves `prev` in place. */
  function ReadWord(st: Stream, prev: string): (r: (string, Stream))
    ensures r.1.good ==> st.good && IsWord(r.0)
    ensures !r.1.good ==> r.0 == prev
  {
    if !st.good then (prev, st)
    else
      var t := DropSpaces(st.rest);
      if t == [] then (prev, Stream(t, false))
      else
        var n := WordLen(t);
        (t[..n], Stream(t[n..], true))
  }

  const Int32Min: int := -0x8000_0000
  const Int32Max: int := 0x7fff_ffff
  const UInt32Max: int := 0xffff_ffff

  predicate InInt32(v: int)
  {
    Int32Min <= v <= Int32Max
  }

  /** The value a numeric extraction stores, and whether the stream stays good,
      for a scanned number that fits in `[lo, hi]`; outside, the nearer limit. */
  function Convert(neg: bool, mag: nat, lo: int, hi: int): (r: (int, bool))
    requires lo <= 0 <= hi
    ensures lo <= r.0 <= hi
  {
    var v := if neg then -(mag as int) else mag as int;
    if v < lo then (lo, false) else if v > hi then (hi, false) else (v, true)
  }

  /** `in >> v` for an `int`: when the stream has already failed or only
      whitespace is left, `v` keeps `prev`; text without digits stores 0; a
      number outside 32 bits stores the nearer limit; those three fail the stream. */
  function ReadInt32(st: Stream, prev: int): (r: (int, Stream))
    ensures InInt32(prev) ==> InInt32(r.0)
    ensures r.1.good ==> st.good
  {
    if !st.good then (prev, st)
    else if DropSpaces(st.rest) == [] then (prev, Stream([], false))
    else
      match ScanNumber(st.rest)
      case None => (0, Stream(st.rest, false))
      case Some((neg, mag, after)) =>
        var (v, ok) := Convert(neg, mag, Int32Min, Int32Max);
        (v, Stream(after, ok))
  }

  /** `in >> v` for a `uint32_t`: like the `int` case, except that a magnitude
      over 32 bits stores the maximum and a minus sign negates modulo 2^32
      (`-m` reads as `2^32 - m`). */
  function ReadUInt32(st: Stream, prev: int): (r: (int, Stream))
    ensures 0 <= prev <= UInt32Max ==> 0 <= r.0 <= UInt32Max
    ensures r.1.good ==> st.good
  {
    if !st.good then (prev, st)
    else if DropSpaces(st.rest) == [] then (prev, Stream([], false))
    else
      match ScanNumber(st.rest)
      case None => (0, Stream(st.rest, false))
      case Some((neg, mag, after)) =>
        if mag > UInt32Max then (UInt32Max, Stream(after, false))
        else (if neg && mag > 0 then UInt32Max + 1 - mag else mag, Stream(after, true))
  }

  /** Extracting a word reads back a word that was written, and leaves the stream
      just after it. */
  lemma ReadWordOf(pre: string, w: string, rest: string, prev: string)
    requires IsWord(w) && EndsToken(rest)
    requires DropSpaces(pre) == w + rest
    ensures ReadWord(Stream(pre, true), prev) == (w, Stream(rest, true))
  {
    WordLenOfWord(w, rest);
    assert (w + rest)[..|w|] == w;
    assert (w + rest)[|w|..] == rest;
  }

  /** Extracting an `int` reads back what `std::to_string` wrote. */
  lemma ReadInt32Of(pre: string, n: int, rest: string, prev: int)
    requires InInt32(n) && EndsToken(rest)
    requires DropSpaces(pre) == IntToString(n) + rest
    ensures ReadInt32(Stream(pre, true), prev) == (n, Stream(rest, true))
  {
    ScanIntToString(n, pre, rest);
    assert DropSpaces(pre) != [];
    assert Convert(n < 0, if n < 0 then -n else n, Int32Min, Int32Max) == (n, true);
  }

  /** Extracting a `uint32_t` reads back what `std::to_string` wrote. */
  lemma ReadUInt32Of(pre: string, n: int, rest: string, prev: int)
    requires 0 <= n <= UInt32Max && EndsToken(rest)
    requires DropSpaces(pre) == IntToString(n) + rest
    ensures ReadUInt32(Stream(pre, true), prev) == (n, Stream(rest, true))
  {
    ScanIntToString(n, pre, rest);
    assert DropSpaces(pre) != [];
    assert ScanNumber(pre) == Some((false, n, rest));
  }

  /** Extracting a `uint32_t` from the `(int)` cast of a large one (a minus
      sign and the distance to 2^32) reads back the large value. */
  lemma ReadUInt32OfNegative(pre: string, n: int, rest: string, prev: int)
    requires Int32Min <= n < 0 && EndsToken(rest)
    requires DropSpaces(pre) == IntToString(n) + rest
    ensures ReadUInt32(Stream(pre, true), prev) == (n + UInt32Max + 1, Stream(rest, true))
  {
    ScanIntToString(n, pre, rest);
    assert DropSpaces(pre) != [];
    assert ScanNumber(pre) == Some((true, -n, rest));
  }

  // ---- `std::stoi` and comma-separated fields ----

  /** `std::stoi(s)`: leading whitespace, an optional sign, at least one digit,
      and whatever follows is ignored; None where `stoi` throws (no digits, or a
      value outside `int`). */
  function Stoi(s: string): (r: Option<int>)
    ensures r.Some? ==> InInt32(r.value)
  {
    match ScanNumber(s)
    case None => None
    case Some((neg, mag, _)) =>
      var (v, ok) := Convert(neg, mag, Int32Min, Int32Max);
      if ok then Some(v) else None
  }

  /** `stoi` reads back what `std::to_string` wrote. */
  lemma StoiOf(n: int)
    requires InInt32(n)
    ensures Stoi(IntToString(n)) == Some(n)
  {
    var e: string := [];
    var w := IntToString(n);
    assert w + e == w;
    DropSpacesOfWord(w, e);
    ScanIntToString(n, w, e);
    assert Convert(n < 0, if n < 0 then -n else n, Int32Min, Int32Max) == (n, true);
  }

  /** The text of s before the first comma. */
  function UpToComma(s: string): (r: string)
    ensures |r| <= |s| && r == s[..|r|]
    ensures |r| < |s| ==> s[|r|] == ','
    ensures forall i :: 0 <= i < |r| ==> r[i] != ','
  {
    if s == [] || s[0] == ',' then [] else [s[0]] + UpToComma(s[1..])
  }

  /** The comma-separated fields of a CSV row, in order. */
  function CommaFields(s: string): (fs: seq<string>)
    ensures |fs| >= 1
    ensures forall i :: 0 <= i < |fs| ==> ',' !in fs[i]
    decreases |s|
  {
    var f := UpToComma(s);
    if |f| == |s| then [s] else [f] + CommaFields(s[|f| + 1..])
  }
}
