/** The header that marks a request as a retry: the attempt number in decimal, absent on the first
    attempt. */
module AttemptHeaders {
  import opened Wrappers

  function Digit(d: nat): char
    requires d < 10
  {
    '0' + d as char
  }

  function Decimal(n: nat): (s: string)
    ensures s != []
  {
    if n < 10 then [Digit(n)] else Decimal(n / 10) + [Digit(n % 10)]
  }

  /** The empty string means no header. */
  function AttemptHeader(attempt: int): string {
    if attempt <= 0 then "" else Decimal(attempt)
  }

  /** How a callee reads the number back. */
  function Parse(s: string): Option<nat> {
    if s == [] then Some(0)
    else
      var d := s[|s| - 1];
      match Parse(s[..|s| - 1])
      case None => None
      case Some(n) => if '0' <= d <= '9' then Some(10 * n + (d - '0') as int) else None
  }

  lemma {:induction false} DecimalRoundTrip(n: nat)
    ensures Parse(Decimal(n)) == Some(n)
  {
    if n < 10 {
      assert Decimal(n)[..0] == [];
    } else {
      DecimalRoundTrip(n / 10);
      assert Decimal(n)[..|Decimal(n)| - 1] == Decimal(n / 10);
    }
  }

  /** The callee recovers the attempt number from the header, and 0 from its absence. */
  lemma HeaderRoundTrip(attempt: nat)
    ensures Parse(AttemptHeader(attempt)) == Some(attempt)
    ensures AttemptHeader(attempt) == "" <==> attempt == 0
  {
    if attempt > 0 {
      DecimalRoundTrip(attempt);
    }
  }
}
