/** Storage keys: documents/<year>/<two-digit month>/<public id>/signed.pdf */
module ObjectKey {
  import opened Basics

  function Decimal(n: nat): (s: string) {
    if n < 10 then ['0' + n as char] else Decimal(n / 10) + ['0' + (n % 10) as char]
  }

  function TwoDigits(n: nat): (s: string) {
    if n < 10 then "0" + Decimal(n) else Decimal(n)
  }

  const HEAD := "documents/"
  const TAIL := "/signed.pdf"

  function Key(year: nat, month: nat, publicId: Id): (k: string) {
    HEAD + (Decimal(year) + "/" + (TwoDigits(month) + "/" + (publicId + TAIL)))
  }

  /** What follows the first slash. */
  function AfterSlash(s: string): (r: string) {
    if s == "" then "" else if s[0] == '/' then s[1..] else AfterSlash(s[1..])
  }

  /** The public id a key was made for. */
  function Owner(key: string): (id: string) {
    if |key| < |HEAD| then ""
    else
      var rest := AfterSlash(AfterSlash(key[|HEAD|..]));
      if |rest| < |TAIL| then "" else rest[..|rest| - |TAIL|]
  }

  /** The number a string of decimal digits stands for. */
  function Numeral(s: string): (r: Option<nat>) {
    if s == "" then Some(0)
    else
      var last := s[|s| - 1];
      match Numeral(s[..|s| - 1])
      case Some(high) => if '0' <= last <= '9' then Some(10 * high + (last - '0') as nat) else None
      case None => None
  }

  /** Years and months are written as plain decimal numerals, without leading zeros but for the month's
      two places. */
  lemma {:induction false} DecimalRoundTrip(n: nat)
    ensures Numeral(Decimal(n)) == Some(n) && Decimal(n) != "" && (Decimal(n)[0] == '0' ==> n == 0 && Decimal(n) == "0")
  {
    if n < 10 {
      assert Decimal(n)[..0] == "";
      assert Numeral("") == Some(0);
    } else {
      DecimalRoundTrip(n / 10);
      assert Decimal(n)[..|Decimal(n)| - 1] == Decimal(n / 10);
    }
  }

  lemma TwoDigitsRoundTrip(month: nat)
    requires month < 100
    ensures |TwoDigits(month)| == 2 && Numeral(TwoDigits(month)) == Some(month)
  {
    DecimalRoundTrip(month);
    if month < 10 {
      var t := TwoDigits(month);
      assert t[..1] == "0" && "0"[..0] == "" && Numeral("") == Some(0) && Numeral("0") == Some(0);
    } else {
      assert |Decimal(month / 10)| == 1;
    }
  }

  predicate NoSlash(s: string) {
    forall i :: 0 <= i < |s| ==> s[i] != '/'
  }

  lemma {:induction false} DecimalHasNoSlash(n: nat)
    ensures NoSlash(Decimal(n))
  {
    if n >= 10 { DecimalHasNoSlash(n / 10); }
  }

  lemma {:induction false} AfterSlashSkips(a: string, b: string)
    requires NoSlash(a)
    ensures AfterSlash(a + "/" + b) == b
  {
    var s := a + "/" + b;
    if a == "" {
      assert s[1..] == b;
    } else {
      AfterSlashSkips(a[1..], b);
      assert s[1..] == a[1..] + "/" + b;
    }
  }

  /** A key determines the public id it was made for, so two signatures never share an object. */
  lemma OwnerOfKey(year: nat, month: nat, publicId: Id)
    ensures Owner(Key(year, month, publicId)) == publicId
  {
    var last := publicId + TAIL;
    var mid := TwoDigits(month) + "/" + last;
    var key := Key(year, month, publicId);
    DecimalHasNoSlash(year);
    DecimalHasNoSlash(month);
    assert key[|HEAD|..] == Decimal(year) + "/" + mid;
    AfterSlashSkips(Decimal(year), mid);
    AfterSlashSkips(TwoDigits(month), last);
    assert last[..|last| - |TAIL|] == publicId;
  }
}
