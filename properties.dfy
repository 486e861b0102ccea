/** The SLP property store that the daemon's configuration is read from.
    Every property is a named text value; the typed accessors interpret that text. */
module Properties {

  import opened Wrappers

  /** The property database: property name to its text value. */
  type Store = map<string, string>

  /** Characters that C's `isspace` accepts in the "C" locale. */
  predicate IsSpace(c: char)
  {
    c == ' ' || c == '\t' || c == '\n' || c == '\U{B}' || c == '\U{C}' || c == '\r'
  }

  predicate IsDigit(c: char)
  {
    '0' <= c <= '9'
  }

  /** What is left of `s` after its leading white space. */
  function SkipSpace(s: string): (t: string)
    ensures |t| <= |s| && t == s[|s| - |t|..]
    ensures |t| > 0 ==> !IsSpace(t[0])
  {
    if |s| > 0 && IsSpace(s[0]) then SkipSpace(s[1..]) else s
  }

  /** The longest prefix of `s` made of decimal digits. */
  function DigitPrefix(s: string): (d: string)
    ensures |d| <= |s| && d == s[..|d|]
    ensures forall i :: 0 <= i < |d| ==> IsDigit(d[i])
    ensures |d| < |s| ==> !IsDigit(s[|d|])
  {
    if |s| > 0 && IsDigit(s[0]) then [s[0]] + DigitPrefix(s[1..]) else []
  }

  /** The number that a string of decimal digits denotes, most significant digit first. */
  function DigitsValue(d: string): int
  {
    if d == [] then 0 else DigitsValue(d[..|d| - 1]) * 10 + (d[|d| - 1] as int - '0' as int)
  }

  /** C's `atoi`: leading white space, an optional sign, then the leading digits;
      a text without digits reads as 0. */
  function Atoi(s: string): (n: int)
    ensures (forall i :: 0 <= i < |s| ==> !IsDigit(s[i])) ==> n == 0
  {
    var t := SkipSpace(s);
    if |t| > 0 && t[0] == '-' then -DigitsValue(DigitPrefix(t[1..]))
    else if |t| > 0 && t[0] == '+' then DigitsValue(DigitPrefix(t[1..]))
    else DigitsValue(DigitPrefix(t))
  }

  function DigitChar(d: nat): (c: char)
    requires d < 10
    ensures IsDigit(c) && c as int - '0' as int == d
  {
    ('0' as int + d) as char
  }

  /** The decimal text of a natural number, without leading zeros. */
  function NatString(n: nat): (s: string)
    decreases n
  {
    if n < 10 then [DigitChar(n)] else NatString(n / 10) + [DigitChar(n % 10)]
  }

  /** The decimal text of an integer, as a configuration file would hold it. */
  function DecimalString(n: int): string
  {
    if n < 0 then "-" + NatString(-n) else NatString(n)
  }

  lemma {:induction false} NatStringIsDigits(n: nat)
    ensures |NatString(n)| > 0
    ensures forall i :: 0 <= i < |NatString(n)| ==> IsDigit(NatString(n)[i])
    decreases n
  {
    if n >= 10 {
      NatStringIsDigits(n / 10);
    }
  }

  lemma {:induction false} DigitPrefixOfDigits(s: string)
    requires forall i :: 0 <= i < |s| ==> IsDigit(s[i])
    ensures DigitPrefix(s) == s
  {
    if |s| > 0 {
      DigitPrefixOfDigits(s[1..]);
    }
  }

  lemma {:induction false} DigitsValueOfNatString(n: nat)
    ensures DigitsValue(NatString(n)) == n
    decreases n
  {
    if n >= 10 {
      var s := NatString(n);
      assert s[..|s| - 1] == NatString(n / 10);
      DigitsValueOfNatString(n / 10);
    }
  }

  /** `atoi` reads back exactly the integer whose decimal text it is given. */
  lemma {:induction false} AtoiDecimal(n: int)
    ensures Atoi(DecimalString(n)) == n
  {
    var m: nat := if n < 0 then -n else n;
    var digits := NatString(m);
    NatStringIsDigits(m);
    DigitPrefixOfDigits(digits);
    DigitsValueOfNatString(m);
    var s := DecimalString(n);
    assert !IsSpace(s[0]);
    assert SkipSpace(s) == s;
    if n < 0 {
      assert s[0] == '-' && s[1..] == digits;
    } else {
      assert s == digits && IsDigit(s[0]);
    }
  }

  /** `SLPPropertyAsBoolean`: true exactly when the property is present and its text
      starts with t, T, y, Y or 1; an absent property reads as false. */
  function AsBoolean(props: Store, name: string): (b: bool)
    ensures b ==> name in props && |props[name]| > 0
  {
    name in props && |props[name]| > 0 && props[name][0] in "tTyY1"
  }

  /** `SLPPropertyAsInteger`: the `atoi` reading of the property; an absent property reads as 0. */
  function AsInteger(props: Store, name: string): (n: int)
    ensures name !in props ==> n == 0
  {
    if name in props then Atoi(props[name]) else 0
  }

  /** `SLPPropertyXDup`: an owned copy of the property's text, or null when it is absent. */
  function XDup(props: Store, name: string): (r: Option<string>)
    ensures r.Some? <==> name in props
    ensures r.Some? ==> r.value == props[name]
  {
    if name in props then Some(props[name]) else None
  }

  /** Writing an integer's decimal text into the store and reading it back as an
      integer gives that integer; no other property's reading changes. */
  lemma {:induction false} AsIntegerOfSetDecimal(props: Store, name: string, n: int, other: string)
    requires other != name
    ensures AsInteger(props[name := DecimalString(n)], name) == n
    ensures AsInteger(props[name := DecimalString(n)], other) == AsInteger(props, other)
  {
    AtoiDecimal(n);
  }

  /** The property subsystem: the parsed configuration and the writes made to it. */
  class PropertyStore {
    var props: Store

    constructor ()
      ensures props == map[]
    {
      props := map[];
    }

    /** `SLPPropertyInit`: `parsed` is the outcome of reading and parsing the
        configuration file, `None` when that failed. Returns 0 on success; a failure
        is taken to leave the store as it was. */
    method Load(parsed: Option<Store>) returns (status: int)
      modifies this
      ensures parsed.Some? ==> status == 0 && props == parsed.value
      ensures parsed.None? ==> status != 0 && props == old(props)
    {
      if parsed.Some? {
        props := parsed.value;
        status := 0;
      } else {
        status := -1;
      }
    }

    /** `SLPPropertySet`: overwrite (or add) one property; every other property is kept. */
    method Set(name: string, value: string)
      modifies this
      ensures props == old(props)[name := value]
      ensures XDup(props, name) == Some(value)
    {
      props := props[name := value];
    }

    /** `SLPPropertyCleanup`: release the whole property database. */
    method Cleanup()
      modifies this
      ensures props == map[]
    {
      props := map[];
    }
  }
}
