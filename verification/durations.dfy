/**
 * The duration parser of the Prometheus checks: `"<int><unit>"` with one
 * trailing unit among `s`, `m`, `h`, `d`, converted to whole seconds.
 * Compound forms such as `"744h0m0s"` and other units such as `"30ms"` are
 * rejected; nothing is normalised.
 */
module Durations {

  import opened Values

  datatype DurationError =
    | UnknownUnit    // the last character is not a recognised unit (ValueError raised by the parser itself)
    | NotAnInteger   // the text before the unit is not an integer (ValueError raised by int())

  datatype Parse = Parsed(value: nat) | Rejected(error: DurationError)

  /** Seconds per unit for the four recognised unit suffixes. */
  function UnitSeconds(c: char): Option<nat>
  {
    if c == 's' then Some(1)
    else if c == 'm' then Some(60)
    else if c == 'h' then Some(3600)
    else if c == 'd' then Some(86400)
    else None
  }

  predicate IsDigit(c: char)
  {
    '0' <= c <= '9'
  }

  predicate IsDigits(s: string)
  {
    forall i :: 0 <= i < |s| ==> IsDigit(s[i])
  }

  /** The number a string of decimal digits denotes, most significant digit first. */
  function DigitsValue(s: string): nat
    requires IsDigits(s)
    decreases |s|
  {
    if |s| == 0 then 0
    else DigitsValue(s[..|s| - 1]) * 10 + (s[|s| - 1] as int - '0' as int)
  }

  /** `int(s)`, restricted to non-empty strings of ASCII digits. */
  function ParseInt(s: string): Parse
  {
    if |s| > 0 && IsDigits(s) then Parsed(DigitsValue(s)) else Rejected(NotAnInteger)
  }

  /**
   * `_parse_duration(s)`. The unit is taken from the last character only, and
   * everything before it must be an integer. A string is accepted exactly when
   * it has at least one digit followed by one unit and nothing else.
   */
  function ParseDuration(s: string): (r: Parse)
    ensures r.Parsed? <==> |s| >= 2 && UnitSeconds(s[|s| - 1]).Some? && IsDigits(s[..|s| - 1])
    ensures r.Parsed? ==> r.value == DigitsValue(s[..|s| - 1]) * UnitSeconds(s[|s| - 1]).value
    ensures r == Rejected(UnknownUnit) <==> |s| == 0 || UnitSeconds(s[|s| - 1]).None?
  {
    if |s| == 0 then Rejected(UnknownUnit)
    else
      match UnitSeconds(s[|s| - 1])
      case None => Rejected(UnknownUnit)
      case Some(k) =>
        match ParseInt(s[..|s| - 1])
        case Parsed(n) => Parsed(n * k)
        case Rejected(e) => Rejected(e)
  }

  function DigitChar(d: nat): (c: char)
    requires d < 10
    ensures IsDigit(c) && c as int - '0' as int == d
  {
    ('0' as int + d) as char
  }

  /** The decimal rendering of `n`, without leading zeros. */
  function Show(n: nat): (r: string)
    ensures |r| > 0 && IsDigits(r)
    decreases n
  {
    if n < 10 then [DigitChar(n)] else Show(n / 10) + [DigitChar(n % 10)]
  }

  /** Reading back the decimal rendering of `n` gives `n`. */
  lemma {:induction false} ShowRoundTrip(n: nat)
    ensures DigitsValue(Show(n)) == n
    decreases n
  {
    var s := Show(n);
    if n >= 10 {
      assert s[..|s| - 1] == Show(n / 10);
      ShowRoundTrip(n / 10);
    } else {
      assert s[..|s| - 1] == "";
    }
  }

  /** A number followed by a recognised unit parses to that number times the unit's seconds. */
  lemma ParseRendered(n: nat, u: char)
    requires UnitSeconds(u).Some?
    ensures ParseDuration(Show(n) + [u]) == Parsed(n * UnitSeconds(u).value)
  {
    var s := Show(n) + [u];
    assert s[..|s| - 1] == Show(n);
    ShowRoundTrip(n);
  }

  /** The unit table: seconds, minutes, hours and days. */
  lemma UnitConversion(n: nat)
    ensures ParseDuration(Show(n) + "s") == Parsed(n)
    ensures ParseDuration(Show(n) + "m") == Parsed(60 * n)
    ensures ParseDuration(Show(n) + "h") == Parsed(3600 * n)
    ensures ParseDuration(Show(n) + "d") == Parsed(86400 * n)
  {
    ParseRendered(n, 's');
    ParseRendered(n, 'm');
    ParseRendered(n, 'h');
    ParseRendered(n, 'd');
  }

  /** For a fixed unit the parsed value grows strictly with the number in front of it. */
  lemma StrictlyIncreasing(n: nat, n': nat, u: char)
    requires UnitSeconds(u).Some? && n < n'
    ensures ParseDuration(Show(n) + [u]).Parsed? && ParseDuration(Show(n') + [u]).Parsed?
    ensures ParseDuration(Show(n) + [u]).value < ParseDuration(Show(n') + [u]).value
  {
    ParseRendered(n, u);
    ParseRendered(n', u);
    // One linear fact per unit, so that no product of two unknowns is compared.
    if u == 's' {
      assert n * 1 < n' * 1;
    } else if u == 'm' {
      assert n * 60 < n' * 60;
    } else if u == 'h' {
      assert n * 3600 < n' * 3600;
    } else {
      assert n * 86400 < n' * 86400;
    }
  }

  /**
   * Forms the parser does not support: a millisecond value and the compound
   * form a running Loki reports both end in `s` but have no integer before it;
   * an empty string and an unknown unit fail on the unit.
   */
  lemma UnsupportedForms()
    ensures ParseDuration("30ms") == Rejected(NotAnInteger)
    ensures ParseDuration("744h0m0s") == Rejected(NotAnInteger)
    ensures ParseDuration("s") == Rejected(NotAnInteger)
    ensures ParseDuration("") == Rejected(UnknownUnit)
    ensures ParseDuration("30x") == Rejected(UnknownUnit)
  {
    assert !IsDigit("30ms"[2]);
    assert !IsDigit("744h0m0s"[3]);
  }

  /** The forms the configuration declares. */
  lemma DeclaredForms()
    ensures ParseDuration("30s") == Parsed(30)
    ensures ParseDuration("744h") == Parsed(2678400)
    ensures ParseDuration("30d") == Parsed(2592000)
  {
    assert Show(30) + "s" == "30s";
    assert Show(744) + "h" == "744h";
    assert Show(30) + "d" == "30d";
    UnitConversion(30);
    UnitConversion(744);
  }
}
