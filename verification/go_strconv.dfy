/** strconv.Atoi and strconv.Itoa as Go defines them for a 64-bit `int`:
    an optional sign followed by one or more decimal digits, in range. */
module GoStrconv {
  import opened Requests

  const MinInt64: int := -0x8000_0000_0000_0000
  const MaxInt64: int := 0x7fff_ffff_ffff_ffff

  predicate IsDigit(c: char)
  {
    '0' <= c <= '9'
  }

  predicate AllDigits(s: string)
  {
    forall i :: 0 <= i < |s| ==> IsDigit(s[i])
  }

  /** The value of a string of decimal digits, most significant first. */
  function DecimalValue(s: string): nat
    requires AllDigits(s)
  {
    if |s| == 0 then 0
    else DecimalValue(s[..|s| - 1]) * 10 + (s[|s| - 1] as int - '0' as int)
  }

  /** The syntax strconv.Atoi accepts in base 10: an optional '+' or '-'
      followed by one or more decimal digits. */
  predicate Numeral(s: string)
  {
    && |s| >= 1
    && (IsDigit(s[0]) || (|s| >= 2 && (s[0] == '+' || s[0] == '-')))
    && forall i :: 1 <= i < |s| ==> IsDigit(s[i])
  }

  /** The signed value a numeral denotes. */
  function NumeralValue(s: string): int
    requires Numeral(s)
  {
    if s[0] == '-' then -(DecimalValue(s[1..]) as int)
    else if s[0] == '+' then DecimalValue(s[1..])
    else DecimalValue(s)
  }

  /** strconv.Atoi: None stands for Go's syntax and range errors. */
  function Atoi(s: string): (r: Option<int>)
    ensures r.Some? ==> MinInt64 <= r.value <= MaxInt64
    ensures s == "" || s == "-" || s == "+" ==> r.None?
    ensures r.Some? ==> Numeral(s) && r.value == NumeralValue(s)
  {
    var signed := |s| > 0 && (s[0] == '+' || s[0] == '-');
    var digits := if signed then s[1..] else s;
    if |digits| == 0 || !AllDigits(digits) then None
    else
      var magnitude: int := DecimalValue(digits);
      var n := if signed && s[0] == '-' then -magnitude else magnitude;
      if MinInt64 <= n <= MaxInt64 then Some(n) else None
  }

  /** Every numeral whose value is a 64-bit integer parses to that value;
      with Atoi's contract, Atoi fails exactly on the other strings. */
  lemma AtoiNumeral(s: string)
    requires Numeral(s) && MinInt64 <= NumeralValue(s) <= MaxInt64
    ensures Atoi(s) == Some(NumeralValue(s))
  {
    if s[0] == '+' || s[0] == '-' {
      assert AllDigits(s[1..]);
    } else {
      assert AllDigits(s);
    }
  }

  /** The decimal digits of `n`, without leading zeros. */
  function FormatNat(n: nat): (s: string)
    ensures |s| > 0 && AllDigits(s)
    ensures DecimalValue(s) == n
  {
    var last := [(n % 10 + '0' as int) as char];
    if n < 10 then last
    else
      var s := FormatNat(n / 10) + last;
      assert s[..|s| - 1] == FormatNat(n / 10);
      s
  }

  /** strconv.Itoa. */
  function Itoa(n: int): string
  {
    if n < 0 then "-" + FormatNat(-n) else FormatNat(n)
  }

  /** Atoi reads back what Itoa writes, for every 64-bit value. */
  lemma AtoiItoa(n: int)
    requires MinInt64 <= n <= MaxInt64
    ensures Atoi(Itoa(n)) == Some(n)
  {
    var s := Itoa(n);
    if n < 0 {
      assert s[1..] == FormatNat(-n);
    } else {
      assert IsDigit(s[0]);
    }
  }
}
