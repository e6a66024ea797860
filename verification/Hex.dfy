/** Certificate serials cross the system as hexadecimal text: `fmt.Sprintf("%x", serial)` on the
    way out, `big.Int.SetString(s, 16)` on the way in.  Serials are unbounded integers. */
module Hex {
  import opened Basics

  function Digit(d: nat): (c: char)
    requires d < 16
  {
    if d < 10 then '0' + d as char else 'a' + (d - 10) as char
  }

  /** The digits the system prints. */
  predicate LowerHex(c: char) {
    '0' <= c <= '9' || 'a' <= c <= 'f'
  }

  /** Both cases are accepted on input. */
  function DigitValue(c: char): (r: Option<nat>) {
    if '0' <= c <= '9' then Some((c - '0') as nat)
    else if 'a' <= c <= 'f' then Some((c - 'a') as nat + 10)
    else if 'A' <= c <= 'F' then Some((c - 'A') as nat + 10)
    else None
  }

  function Magnitude(n: nat): (s: string) {
    if n < 16 then [Digit(n)] else Magnitude(n / 16) + [Digit(n % 16)]
  }

  /** `fmt.Sprintf("%x", n)` for a big integer. */
  function Print(n: int): (s: string) {
    if n < 0 then "-" + Magnitude(-n) else Magnitude(n)
  }

  function ParseDigits(s: string): (r: Option<nat>) {
    if s == "" then Some(0)
    else
      match (ParseDigits(s[..|s| - 1]), DigitValue(s[|s| - 1]))
      case (Some(high), Some(low)) => Some(16 * high + low)
      case _ => None
  }

  function ParseMagnitude(s: string): (r: Option<nat>) {
    if s == "" then None else ParseDigits(s)
  }

  /** `new(big.Int).SetString(s, 16)`: an optional sign, then at least one digit and nothing else. */
  function Parse(s: string): (r: Option<int>) {
    if s != "" && s[0] == '-' then
      match ParseMagnitude(s[1..]) case Some(n) => var m: int := n; Some(-m) case None => None
    else if s != "" && s[0] == '+' then
      match ParseMagnitude(s[1..]) case Some(n) => Some(n) case None => None
    else
      match ParseMagnitude(s) case Some(n) => Some(n) case None => None
  }

  /** The spelling the system prints: lower case, no leading zero, no plus sign, no negative zero. */
  predicate Canonical(s: string) {
    if s != "" && s[0] == '-' then CanonicalMagnitude(s[1..]) && s[1..] != "0"
    else CanonicalMagnitude(s)
  }

  predicate CanonicalMagnitude(s: string) {
    && s != ""
    && (forall i :: 0 <= i < |s| ==> LowerHex(s[i]))
    && (|s| > 1 ==> s[0] != '0')
  }

  lemma DigitRoundTrip(d: nat)
    requires d < 16
    ensures LowerHex(Digit(d)) && DigitValue(Digit(d)) == Some(d)
    ensures Digit(d) == '0' <==> d == 0
    ensures Digit(d) != '-' && Digit(d) != '+'
  {
  }

  /** Sixteen digits, in either case. */
  lemma DigitValueIff(c: char, d: nat)
    ensures DigitValue(c) == Some(d) <==> d < 16 && (c == "0123456789abcdef"[d] || c == "0123456789ABCDEF"[d])
  {
  }

  lemma LowerDigit(c: char)
    requires LowerHex(c)
    ensures DigitValue(c).Some? && DigitValue(c).value < 16 && Digit(DigitValue(c).value) == c
    ensures c != '-' && c != '+'
  {
  }

  lemma {:induction false} MagnitudeRoundTrip(n: nat)
    ensures CanonicalMagnitude(Magnitude(n))
    ensures Magnitude(n)[0] == '0' ==> n == 0
    ensures ParseDigits(Magnitude(n)) == Some(n)
  {
    DigitRoundTrip(n % 16);
    if n < 16 {
      assert ParseDigits("") == Some(0);
      assert [Digit(n)][..0] == "";
    } else {
      MagnitudeRoundTrip(n / 16);
      var s := Magnitude(n);
      assert s[..|s| - 1] == Magnitude(n / 16);
    }
  }

  lemma {:induction false} CanonicalDigits(s: string)
    requires CanonicalMagnitude(s)
    ensures ParseDigits(s).Some? && Magnitude(ParseDigits(s).value) == s
    ensures ParseDigits(s).value == 0 ==> s == "0"
  {
    var front, last := s[..|s| - 1], s[|s| - 1];
    LowerDigit(last);
    if front == "" {
      assert ParseDigits("") == Some(0);
      assert s == [last];
    } else {
      CanonicalDigits(front);
      var high, low := ParseDigits(front).value, DigitValue(last).value;
      assert front != "0";
      assert high > 0;
      assert (16 * high + low) / 16 == high && (16 * high + low) % 16 == low;
      assert s == front + [last];
    }
  }

  /** Printing then parsing a serial of any size gives the same integer back. */
  lemma RoundTrip(n: int)
    ensures Parse(Print(n)) == Some(n)
  {
    var m := if n < 0 then -n else n;
    MagnitudeRoundTrip(m);
    LowerDigit(Magnitude(m)[0]);
    if n < 0 {
      assert Print(n)[1..] == Magnitude(m);
    }
  }

  lemma PrintIsCanonical(n: int)
    ensures Canonical(Print(n))
  {
    var m := if n < 0 then -n else n;
    MagnitudeRoundTrip(m);
    LowerDigit(Magnitude(m)[0]);
    if n < 0 {
      assert Print(n)[1..] == Magnitude(m);
      MagnitudeRoundTrip(0);
    }
  }

  lemma CanonicalReprints(s: string)
    requires Canonical(s) && Parse(s).Some?
    ensures s == Print(Parse(s).value)
  {
    if s[0] == '-' {
      CanonicalDigits(s[1..]);
      assert s == "-" + s[1..];
    } else {
      LowerDigit(s[0]);
      CanonicalDigits(s);
    }
  }

  /** A text is what the system prints for `n` exactly when it is canonical and parses to `n`. */
  lemma CanonicalIff(s: string, n: int)
    ensures s == Print(n) <==> Canonical(s) && Parse(s) == Some(n)
  {
    hide Print, Canonical, Parse;
    RoundTrip(n);
    PrintIsCanonical(n);
    if Canonical(s) && Parse(s) == Some(n) { CanonicalReprints(s); }
  }

  predicate IsSign(c: char) {
    c == '-' || c == '+'
  }

  /** The text after at most one sign. */
  function Unsigned(s: string): (t: string) {
    if s != "" && IsSign(s[0]) then s[1..] else s
  }

  lemma {:induction false} DigitsParseIff(s: string)
    ensures ParseDigits(s).Some? <==> forall i :: 0 <= i < |s| ==> DigitValue(s[i]).Some?
  {
    if s != "" {
      DigitsParseIff(s[..|s| - 1]);
      assert forall i :: 0 <= i < |s| - 1 ==> s[..|s| - 1][i] == s[i];
    }
  }

  /** A text parses exactly when, after at most one sign, there is at least one digit and nothing else; a
      minus sign negates, a plus sign does not matter. */
  lemma ParseIff(s: string)
    ensures Parse(s).Some? <==> Unsigned(s) != "" && forall i :: 0 <= i < |Unsigned(s)| ==> DigitValue(Unsigned(s)[i]).Some?
    ensures Parse(s).Some? ==>
              var n: int := ParseDigits(Unsigned(s)).value; Parse(s).value == if s[0] == '-' then -n else n
  {
    DigitsParseIff(Unsigned(s));
  }
}
