/** The few pieces of Python the integration leans on: optional values, a call
    that either returns or raises, `str(i)` and `int(s)` on decimal strings,
    and list indexing (which accepts negative positions). */
module Builtins {

  datatype Option<+T> = None | Some(value: T)

  /** The exceptions the integration distinguishes. The first five are the
      classes its `except` clauses name; the rest stand for anything else the
      library or the interpreter can raise. */
  datatype PyException =
    | ClientConnectorError      // aiohttp: the anisette server cannot be reached
    | InvalidCredentialsError   // findmy: wrong email or password
    | UnauthorizedError         // findmy: the account service refused the request
    | UnhandledProtocolError    // findmy: unexpected answer during two-factor exchange
    | InvalidFileException      // plistlib: the text is not a property list
    | ValueError(message: string)
    | IndexError
    | AttributeError
    | OtherException

  /** The outcome of a Python call: it returns a value or raises. */
  datatype Attempt<+T> = Ok(value: T) | Err(exc: PyException)

  predicate IsDigit(c: char) {
    '0' <= c <= '9'
  }

  predicate AllDigits(s: string) {
    forall i | 0 <= i < |s| :: IsDigit(s[i])
  }

  function DigitChar(d: nat): (c: char)
    requires d < 10
    ensures IsDigit(c) && c as int - '0' as int == d
  {
    (('0' as int) + d) as char
  }

  /** Python's `str(n)` for a non-negative integer: its decimal digits, most
      significant first, without leading zeros. */
  function StrOfNat(n: nat): (s: string)
    ensures |s| > 0 && AllDigits(s)
    ensures s[0] != '0' || n == 0
    decreases n
  {
    if n < 10 then [DigitChar(n)] else StrOfNat(n / 10) + [DigitChar(n % 10)]
  }

  /** The value of a string of decimal digits. */
  function DigitsValue(s: string): nat
    requires AllDigits(s)
  {
    if s == [] then 0
    else DigitsValue(s[..|s| - 1]) * 10 + (s[|s| - 1] as int - '0' as int)
  }

  /** Python's `int(s)` for an optional sign followed by decimal digits;
      anything else raises `ValueError`, modelled as `None`. */
  function ParseInt(s: string): Option<int> {
    if |s| > 0 && (s[0] == '-' || s[0] == '+') then
      if |s| > 1 && AllDigits(s[1..]) then
        Some(if s[0] == '-' then -(DigitsValue(s[1..]) as int) else DigitsValue(s[1..]))
      else None
    else if |s| > 0 && AllDigits(s) then Some(DigitsValue(s))
    else None
  }

  lemma {:induction false} DigitsValueOfStr(n: nat)
    ensures DigitsValue(StrOfNat(n)) == n
    decreases n
  {
    var s := StrOfNat(n);
    if n >= 10 {
      assert s[..|s| - 1] == StrOfNat(n / 10);
      DigitsValueOfStr(n / 10);
    } else {
      assert s[..|s| - 1] == [];
    }
  }

  /** `int(str(n)) == n`: the option values the integration writes with `str`
      read back as the same number. */
  lemma ParseIntOfStr(n: nat)
    ensures ParseInt(StrOfNat(n)) == Some(n)
  {
    DigitsValueOfStr(n);
  }

  /** Distinct positions get distinct labels. */
  lemma StrOfNatInjective(m: nat, n: nat)
    ensures StrOfNat(m) == StrOfNat(n) ==> m == n
  {
    ParseIntOfStr(m);
    ParseIntOfStr(n);
  }

  /** Python's `xs[i]` for a list of length `len`: the position it reaches, or
      `None` where Python raises `IndexError`. A negative `i` counts from the
      end. */
  function ListIndex(len: nat, i: int): (k: Option<nat>)
    ensures k.Some? <==> -(len as int) <= i < len as int
    ensures k.Some? ==> k.value < len && k.value == i % len
    ensures 0 <= i < len ==> k == Some(i)
  {
    if 0 <= i < len then Some(i)
    else if -(len as int) <= i < 0 then Some(len + i)
    else None
  }
}
