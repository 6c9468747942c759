/** The text a view reads out of `request.POST` where the database expects
    a primary key: the lookup turns the text into the key it spells. */
module Post {
  import opened Wrappers
  import opened Models

  predicate IsDigit(c: char) {
    '0' <= c <= '9'
  }

  predicate AllDigits(s: string) {
    forall i :: 0 <= i < |s| ==> IsDigit(s[i])
  }

  /** The number a string of decimal digits denotes. */
  function Decimal(s: string): nat
    requires AllDigits(s)
    decreases |s|
  {
    if s == [] then 0 else Decimal(s[..|s| - 1]) * 10 + (s[|s| - 1] as int - '0' as int)
  }

  /** The key a POSTed string names, when it is a decimal number. */
  function ParseId(s: string): (r: Option<Id>)
    ensures r.Some? <==> s != [] && AllDigits(s)
  {
    if s != [] && AllDigits(s) then Some(Decimal(s)) else None
  }

  /** The decimal form of a key, as the page writes it into a form. */
  function ShowId(n: nat): (s: string)
    ensures s != [] && AllDigits(s)
    decreases n
  {
    var last := [('0' as int + n % 10) as char];
    if n < 10 then last else ShowId(n / 10) + last
  }

  lemma {:induction false} DecimalShowId(n: nat)
    ensures Decimal(ShowId(n)) == n
    decreases n
  {
    var s := ShowId(n);
    if n >= 10 {
      DecimalShowId(n / 10);
      assert s[..|s| - 1] == ShowId(n / 10);
    } else {
      assert s[..|s| - 1] == [];
    }
  }

  /** Every key comes back from the page it was written into. */
  lemma ParseShowId(n: nat)
    ensures ParseId(ShowId(n)) == Some(n)
  {
    DecimalShowId(n);
  }
}
