/** The order reference that travels through the payment gateway: checkout
    writes the new order's id as a decimal string into the session metadata,
    and the webhook hands that string back to the database, which reads it as
    an integer id. */
module OrderRef {
  import opened Records

  predicate IsDigit(c: char)
  {
    '0' <= c <= '9'
  }

  predicate AllDigits(s: string)
  {
    forall i :: 0 <= i < |s| ==> IsDigit(s[i])
  }

  function DigitChar(d: nat): (c: char)
    requires d < 10
    ensures IsDigit(c) && c as int - '0' as int == d
  {
    (('0' as int) + d) as char
  }

  /** The decimal numeral of `n`, as an integer's `toString()` writes it. */
  function IdToString(n: nat): (s: string)
    ensures |s| > 0 && AllDigits(s)
    ensures s[0] == '0' ==> s == "0"
    decreases n
  {
    if n < 10 then [DigitChar(n)] else IdToString(n / 10) + [DigitChar(n % 10)]
  }

  /** The value of a string of decimal digits (leading zeros allowed). */
  function DigitsValue(s: string): nat
    requires AllDigits(s)
  {
    if s == [] then 0
    else DigitsValue(s[..|s| - 1]) * 10 + (s[|s| - 1] as int - '0' as int)
  }

  /** The id the database reads from a reference string: a non-empty run of
      decimal digits denotes an id; anything else makes the statement fail. */
  function ParseId(s: string): (r: Option<nat>)
    ensures r.Some? <==> s != [] && AllDigits(s)
  {
    if s != [] && AllDigits(s) then Some(DigitsValue(s)) else None
  }

  /** Reading back the reference that checkout wrote gives the order's id. */
  lemma {:induction false} ParseIdToString(n: nat)
    ensures ParseId(IdToString(n)) == Some(n)
  {
    DigitsOfId(n);
  }

  lemma {:induction false} DigitsOfId(n: nat)
    ensures DigitsValue(IdToString(n)) == n
    decreases n
  {
    var s := IdToString(n);
    if n < 10 {
      assert s[..|s| - 1] == [];
    } else {
      DigitsOfId(n / 10);
      assert s[..|s| - 1] == IdToString(n / 10);
    }
  }

  /** Distinct orders carry distinct references. */
  lemma IdToStringInjective(m: nat, n: nat)
    requires IdToString(m) == IdToString(n)
    ensures m == n
  {
    ParseIdToString(m);
    ParseIdToString(n);
  }
}
