/** The configuration accessor the job queue reads its settings from: every setting is
    the text stored under its key, and the typed readers convert that text the way the
    .NET conversions do (invariant culture, no surrounding white space). */
module Configuration {
  import opened Outcomes

  /** The process configuration, key to stored text. */
  type Config = map<string, string>

  /** The C# `int`: 32-bit two's complement. */
  newtype int32 = x: int | -0x8000_0000 <= x < 0x8000_0000

  /** `int.MaxValue`. */
  const Int32MaxValue: int32 := 0x7FFF_FFFF

  /** `Config.Get(key, default)`: the stored text, or `default` when the key is absent.
      A key stored with the empty text yields the empty text, not the default. */
  function Get(cfg: Config, key: string, default: string): (r: string)
    ensures key in cfg ==> r == cfg[key]
    ensures key !in cfg ==> r == default
  {
    if key in cfg then cfg[key] else default
  }

  /** The setting `key` is absent or its text reads as a 32-bit integer. */
  predicate IsInt32Setting(cfg: Config, key: string) {
    key !in cfg || ParseInt32(cfg[key]).Some?
  }

  /** `Config.GetInt(key, default)`: the default for an absent key, otherwise the integer
      the stored text spells; text that is no 32-bit integer throws. */
  function GetInt(cfg: Config, key: string, default: int32): (r: Result<int32>)
    ensures key !in cfg ==> r == Success(default)
    ensures r.Success? <==> IsInt32Setting(cfg, key)
    ensures key in cfg && r.Success? ==> ParseInt32(cfg[key]) == Some(r.value)
    ensures r.Failure? ==> r.error == InvalidConfigValue(key, cfg[key])
  {
    if key !in cfg then Success(default)
    else match ParseInt32(cfg[key])
      case Some(n) => Success(n)
      case None =>
        Failure(InvalidConfigValue(key, cfg[key]))
  }

  /** An integer written into the configuration is read back by `GetInt`. */
  lemma GetIntReadsFormatted(cfg: Config, key: string, default: int32, n: int32)
    ensures GetInt(cfg[key := FormatInt32(n)], key, default) == Success(n)
  {
    ParseFormatRoundTrip(n);
  }

  /** `Config.GetBool(key)`, whose default is `false`: "true" and "false" in any letter
      case; any other stored text throws. */
  function GetBool(cfg: Config, key: string): (r: Result<bool>)
    ensures key !in cfg ==> r == Success(false)
    ensures key in cfg && EqualsIgnoreCase(cfg[key], "true") ==> r == Success(true)
    ensures key in cfg && EqualsIgnoreCase(cfg[key], "false") ==> r == Success(false)
    ensures key in cfg && !EqualsIgnoreCase(cfg[key], "true") && !EqualsIgnoreCase(cfg[key], "false") ==>
              r == Failure(InvalidConfigValue(key, cfg[key]))
  {
    if key !in cfg then Success(false)
    else match ParseBool(cfg[key])
      case Some(b) => Success(b)
      case None => Failure(InvalidConfigValue(key, cfg[key]))
  }

  /** A boolean written into the configuration is read back by `GetBool`. */
  lemma GetBoolReadsFormatted(cfg: Config, key: string, b: bool)
    ensures GetBool(cfg[key := FormatBool(b)], key) == Success(b)
  {
    ParseBoolRoundTrip(b);
  }

  // ---------------------------------------------------------------------------
  // Text conversions

  function LowerChar(c: char): char {
    if 'A' <= c <= 'Z' then (c as int + 32) as char else c
  }

  /** ASCII lower case, the case folding used by the case-insensitive parses. */
  function Lower(s: string): string {
    seq(|s|, i requires 0 <= i < |s| => LowerChar(s[i]))
  }

  predicate EqualsIgnoreCase(a: string, b: string) {
    Lower(a) == Lower(b)
  }

  /** `Boolean.Parse`: "true" or "false" in any letter case. */
  function ParseBool(s: string): (r: Option<bool>)
    ensures r == Some(true) <==> EqualsIgnoreCase(s, "true")
    ensures r == Some(false) <==> EqualsIgnoreCase(s, "false")
    ensures r.None? <==> !EqualsIgnoreCase(s, "true") && !EqualsIgnoreCase(s, "false")
  {
    if EqualsIgnoreCase(s, "true") then Some(true)
    else if EqualsIgnoreCase(s, "false") then Some(false)
    else None
  }

  /** `Boolean.ToString`. */
  function FormatBool(b: bool): string {
    if b then "True" else "False"
  }

  lemma ParseBoolRoundTrip(b: bool)
    ensures ParseBool(FormatBool(b)) == Some(b)
  {
  }

  predicate IsDigit(c: char) {
    '0' <= c <= '9'
  }

  predicate IsSign(c: char) {
    c == '-' || c == '+'
  }

  predicate AllDigits(s: string) {
    forall i :: 0 <= i < |s| ==> IsDigit(s[i])
  }

  function DigitValue(c: char): nat
    requires IsDigit(c)
  {
    c as int - '0' as int
  }

  function DigitChar(d: nat): (c: char)
    requires d < 10
    ensures IsDigit(c) && DigitValue(c) == d
  {
    ('0' as int + d) as char
  }

  /** The value of a string of decimal digits, most significant first. */
  function DigitsValue(s: string): nat
    requires AllDigits(s)
  {
    if s == [] then 0 else DigitsValue(s[..|s| - 1]) * 10 + DigitValue(s[|s| - 1])
  }

  /** `Int32.Parse` with the integer number style: an optional sign, then at least one
      decimal digit, and a value that fits in 32 bits. */
  function ParseInt32(s: string): (r: Option<int32>)
    ensures r.Some? ==> s != [] && (AllDigits(s) || (IsSign(s[0]) && |s| > 1 && AllDigits(s[1..])))
    ensures s != [] && AllDigits(s) ==>
              && (r.Some? <==> DigitsValue(s) <= Int32MaxValue as int)
              && (r.Some? ==> r.value as int == DigitsValue(s))
    ensures |s| > 1 && s[0] == '+' && AllDigits(s[1..]) ==>
              && (r.Some? <==> DigitsValue(s[1..]) <= Int32MaxValue as int)
              && (r.Some? ==> r.value as int == DigitsValue(s[1..]))
    ensures |s| > 1 && s[0] == '-' && AllDigits(s[1..]) ==>
              && (r.Some? <==> DigitsValue(s[1..]) <= 0x8000_0000)
              && (r.Some? ==> r.value as int == 0 - DigitsValue(s[1..]))
  {
    if s == [] then None
    else
      var digits := if IsSign(s[0]) then s[1..] else s;
      if digits == [] || !AllDigits(digits) then None
      else
        var n: int := if s[0] == '-' then 0 - DigitsValue(digits) else DigitsValue(digits) as int;
        if -0x8000_0000 <= n < 0x8000_0000 then Some(n as int32) else None
  }

  /** Decimal text of a natural number, without leading zeros. */
  function FormatNat(n: nat): (s: string)
    ensures s != [] && AllDigits(s)
  {
    if n < 10 then [DigitChar(n)] else FormatNat(n / 10) + [DigitChar(n % 10)]
  }

  /** `Int32.ToString`: a minus sign for negative values, then the decimal digits. */
  function FormatInt32(n: int32): string {
    if n < 0 then "-" + FormatNat(-(n as int)) else FormatNat(n as int)
  }

  lemma {:induction false} DigitsValueOfFormat(n: nat)
    ensures DigitsValue(FormatNat(n)) == n
  {
    if n >= 10 {
      var s := FormatNat(n);
      assert s[..|s| - 1] == FormatNat(n / 10);
      DigitsValueOfFormat(n / 10);
    }
  }

  /** Every 32-bit integer is read back from its own text. */
  lemma ParseFormatRoundTrip(n: int32)
    ensures ParseInt32(FormatInt32(n)) == Some(n)
  {
    var s := FormatInt32(n);
    if n < 0 {
      DigitsValueOfFormat(-(n as int));
      assert s[1..] == FormatNat(-(n as int));
    } else {
      DigitsValueOfFormat(n as int);
    }
  }
}
