/** Small value types shared by the backend and the client modules. */
module Common {

  datatype Option<+T> = None | Some(value: T)

  /** An error as either side of the HTTP boundary sees it: an HTTPException raised by
      the backend (status code and detail text), or a request that never got an answer. */
  datatype Error = HttpError(status: int, detail: string) | NetworkError

  /** The outcome of a backend operation, or of one request as the client sees it. */
  datatype Result<+T> = Ok(value: T) | Err(error: Error)

  /** The outcome of a client action that returns nothing but may throw. */
  datatype Outcome = Done | Threw(error: Error)

  /** Decimal digits of a natural number, most significant first. */
  function NatToString(n: nat): (s: string)
    ensures |s| > 0
    ensures forall i :: 0 <= i < |s| ==> '0' <= s[i] <= '9'
    ensures n > 0 ==> s[0] != '0'
    decreases n
  {
    var d := ['0' + (n % 10) as char];
    if n < 10 then d else NatToString(n / 10) + d
  }

  /** How Python formats a float that holds a whole number of magnitude below 10^16
      (`40.0`, `-10.0`); from 10^16 on Python switches to exponent form, which is not
      modelled. */
  function WholeFloatToString(x: int): (s: string)
    ensures |s| >= 3 && s[|s| - 2..] == ".0"
    ensures (s[0] == '-') <==> x < 0
  {
    if x < 0 then "-" + NatToString(-x) + ".0" else NatToString(x) + ".0"
  }

  /** The number a string of decimal digits spells, most significant first. */
  function DigitsValue(s: string): nat
    requires forall i :: 0 <= i < |s| ==> '0' <= s[i] <= '9'
  {
    if s == [] then 0
    else DigitsValue(s[..|s| - 1]) * 10 + (s[|s| - 1] as int - '0' as int)
  }

  /** The digits spell the number back. */
  lemma {:induction false} NatToStringRoundTrip(n: nat)
    ensures DigitsValue(NatToString(n)) == n
    decreases n
  {
    var s := NatToString(n);
    if n >= 10 {
      NatToStringRoundTrip(n / 10);
      assert s[..|s| - 1] == NatToString(n / 10);
    } else {
      assert s[..|s| - 1] == [];
    }
  }

  /** The text between the sign and ".0" spells the magnitude of the number. */
  lemma WholeFloatToStringRoundTrip(x: int)
    ensures var s := WholeFloatToString(x);
      var digits := if x < 0 then s[1..|s| - 2] else s[..|s| - 2];
      && (forall i :: 0 <= i < |digits| ==> '0' <= digits[i] <= '9')
      && DigitsValue(digits) == (if x < 0 then -x else x)
  {
    var s := WholeFloatToString(x);
    if x < 0 {
      assert s[1..|s| - 2] == NatToString(-x);
      NatToStringRoundTrip(-x);
    } else {
      assert s[..|s| - 2] == NatToString(x);
      NatToStringRoundTrip(x);
    }
  }
}
