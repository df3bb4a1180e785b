/** The two pieces of Go's `fmt` package the reconciler relies on: printing an
    `int` in decimal (the template's `{{.Port}}`) and scanning a leading decimal
    integer with `Sscanf(text, "%d", &pid)` (the reload signaler's PID). */
module GoFmt {
  import opened Outcomes

  /** Go's `int` on a 64-bit platform. */
  const MinInt: int := -0x8000_0000_0000_0000
  const MaxInt: int := 0x7fff_ffff_ffff_ffff

  predicate IsDigit(c: char) {
    '0' <= c <= '9'
  }

  predicate AllDigits(s: string) {
    forall i :: 0 <= i < |s| ==> IsDigit(s[i])
  }

  function DigitChar(d: nat): (c: char)
    requires d < 10
    ensures IsDigit(c) && c as int - '0' as int == d
  {
    (d + '0' as int) as char
  }

  function DigitValue(c: char): nat
    requires IsDigit(c)
  {
    c as int - '0' as int
  }

  /** The value of a string of decimal digits, most significant first. */
  function DigitsValue(s: string): nat
    requires AllDigits(s)
  {
    if s == [] then 0 else DigitsValue(s[..|s| - 1]) * 10 + DigitValue(s[|s| - 1])
  }

  /** The decimal digits of `n`, without leading zeros. */
  function NatToDecimal(n: nat): (s: string)
    ensures |s| > 0 && AllDigits(s)
    ensures s[0] == '0' ==> n == 0 && |s| == 1
  {
    if n < 10 then [DigitChar(n)] else NatToDecimal(n / 10) + [DigitChar(n % 10)]
  }

  /** How `fmt` prints an `int`: a minus sign for negative values, then the digits. */
  function IntToDecimal(n: int): (s: string)
    ensures |s| > 0
    ensures n < 0 <==> s[0] == '-'
    ensures AllDigits(if n < 0 then s[1..] else s)
  {
    if n < 0 then "-" + NatToDecimal(-n) else NatToDecimal(n)
  }

  /** Reading the digits back gives the number that was printed. */
  lemma {:induction false} NatToDecimalValue(n: nat)
    ensures DigitsValue(NatToDecimal(n)) == n
  {
    var s := NatToDecimal(n);
    if n >= 10 {
      NatToDecimalValue(n / 10);
      assert s[..|s| - 1] == NatToDecimal(n / 10);
    }
  }

  /** The length of the run of decimal digits at the front of `s`. */
  function LeadingDigits(s: string): (k: nat)
    ensures k <= |s| && AllDigits(s[..k])
    ensures k < |s| ==> !IsDigit(s[k])
  {
    if s == [] || !IsDigit(s[0]) then 0 else 1 + LeadingDigits(s[1..])
  }

  /** `text` without the one optional leading sign `Sscanf` accepts. */
  function Unsigned(text: string): (body: string)
    ensures |body| <= |text|
  {
    if |text| > 0 && (text[0] == '+' || text[0] == '-') then text[1..] else text
  }

  /** `Sscanf(text, "%d", &pid)`: an optional sign, then the longest run of
      decimal digits (at least one), whose value must fit in an `int`. What
      follows the digits is ignored. */
  function ScanInt(text: string): (r: Option<int>)
    ensures r.Some? ==> MinInt <= r.value <= MaxInt
    ensures r.Some? ==> |Unsigned(text)| > 0 && IsDigit(Unsigned(text)[0])
    ensures r.Some? ==> (r.value < 0 ==> text[0] == '-')
  {
    var body := Unsigned(text);
    var k := LeadingDigits(body);
    if k == 0 then None
    else
      var magnitude: int := DigitsValue(body[..k]);
      var n := if text[0] == '-' then -magnitude else magnitude;
      if MinInt <= n <= MaxInt then Some(n) else None
  }

  lemma {:induction false} LeadingDigitsOfDecimal(d: string, rest: string)
    requires AllDigits(d)
    requires rest == [] || !IsDigit(rest[0])
    ensures LeadingDigits(d + rest) == |d|
  {
    if d != [] {
      assert (d + rest)[1..] == d[1..] + rest;
      LeadingDigitsOfDecimal(d[1..], rest);
    }
  }

  /** Scanning what `fmt` printed for an `int`, followed by anything that does
      not start with a digit (a newline, say), yields that `int` again. */
  lemma ScanPrintedInt(n: int, rest: string)
    requires MinInt <= n <= MaxInt
    requires rest == [] || !IsDigit(rest[0])
    ensures ScanInt(IntToDecimal(n) + rest) == Some(n)
  {
    var m: nat := if n < 0 then -n else n;
    var d := NatToDecimal(m);
    var sign := if n < 0 then "-" else "";
    assert IntToDecimal(n) == sign + d;
    Regroup(sign, d, rest);
    NatToDecimalValue(m);
    ScanSignedDigits(sign, d, rest);
  }

  /** `Sscanf` with `%d` on an optional sign, a run of digits (leading zeros
      allowed) and anything that does not start with a digit: the result is
      the signed value of the digits when it fits in an `int`, and a failure
      when it overflows. With the contract of `ScanInt`, which demands a digit
      after the optional sign, this fixes `ScanInt` on every input. */
  lemma ScanSignedDigits(sign: string, d: string, rest: string)
    requires sign == "" || sign == "+" || sign == "-"
    requires |d| > 0 && AllDigits(d)
    requires rest == [] || !IsDigit(rest[0])
    ensures var v: int := if sign == "-" then -(DigitsValue(d) as int) else DigitsValue(d);
            ScanInt(sign + (d + rest)) == if MinInt <= v <= MaxInt then Some(v) else None
  {
    var text := sign + (d + rest);
    SignThenBody(sign, d + rest);
    assert Unsigned(text) == d + rest;
    assert text[0] == '-' <==> sign == "-";
    ScanBody(text, d, rest);
  }

  /** A sign of at most one character in front of `body`. */
  lemma SignThenBody(sign: string, body: string)
    requires |sign| <= 1
    ensures sign == [] ==> sign + body == body
    ensures |sign| == 1 ==> (sign + body)[0] == sign[0] && (sign + body)[1..] == body
  {
  }

  lemma Regroup(a: string, b: string, c: string)
    ensures a + b + c == a + (b + c)
  {
  }

  /** `ScanInt` on a text whose unsigned part is a run of digits and a non-digit tail. */
  lemma ScanBody(text: string, d: string, rest: string)
    requires |d| > 0 && AllDigits(d)
    requires rest == [] || !IsDigit(rest[0])
    requires Unsigned(text) == d + rest
    ensures var m: int := DigitsValue(d);
            var v := if text[0] == '-' then -m else m;
            ScanInt(text) == if MinInt <= v <= MaxInt then Some(v) else None
  {
    LeadingDigitsOfDecimal(d, rest);
    assert (d + rest)[..|d|] == d;
  }

  /** Leading zeros are accepted: `0042` followed by the newline scans as 42. */
  lemma ScanLeadingZeros()
    ensures ScanInt("0042\n") == Some(42)
  {
    assert "0042"[..3] == "004" && "004"[..2] == "00" && "00"[..1] == "0" && "0"[..0] == "";
    assert DigitsValue("0042") == 42;
    ScanSignedDigits("", "0042", "\n");
    assert "0042\n" == "" + ("0042" + "\n");
  }

  /** A plus sign is accepted and a leading newline is refused. */
  lemma ScanSignAndNewline()
    ensures ScanInt("+5") == Some(5)
    ensures ScanInt("\n123") == None
  {
    assert "5"[..0] == "";
    ScanSignedDigits("+", "5", "");
    assert "+5" == "+" + ("5" + "");
  }

  /** A numeral one past the largest `int` does not scan. */
  lemma ScanOverflow()
    ensures ScanInt(NatToDecimal(MaxInt + 1)) == None
  {
    var d := NatToDecimal(MaxInt + 1);
    NatToDecimalValue(MaxInt + 1);
    ScanSignedDigits("", d, "");
    assert d == "" + (d + "");
  }
}
