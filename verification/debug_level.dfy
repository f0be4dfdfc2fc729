/** The front end's log level: the mapping from tslog levels to App Insights
    severities, and the level the debug provider chooses from the backstage
    variable, the browser's stored level and a temporary override. */
module DebugLevel {
  import opened Wrappers
  import opened Text

  /** `mapLogLevelToAppInsights`: tslog counts 0 (silly) to 6 (fatal), App
      Insights 0 (verbose) to 4 (critical); the two lowest tslog levels both
      become verbose. */
  function MapLogLevel(level: int): (r: nat)
    ensures r >= level - 2
    ensures r == 0 || r == level - 2
  {
    if level - 2 > 0 then level - 2 else 0
  }

  /** The severity table: fatal, error, warn, info and debug become critical,
      error, warning, info and verbose; trace and silly become verbose. */
  lemma AppInsightsTable(level: int)
    requires 0 <= level <= 6
    ensures MapLogLevel(level) == [0, 0, 0, 1, 2, 3, 4][level]
  {
  }

  /** A more severe tslog level never maps to a less severe App Insights one. */
  lemma MapLogLevelMonotone(a: int, b: int)
    requires a <= b
    ensures MapLogLevel(a) <= MapLogLevel(b)
  {
  }

  /** A JavaScript number as `parseInt` can produce it. */
  datatype JsNumber = Finite(value: int) | NaN

  predicate IsRadixDigit(c: char, radix: nat) {
    if radix == 16 then IsAsciiDigit(c) || 'a' <= c <= 'f' || 'A' <= c <= 'F'
    else IsAsciiDigit(c)
  }

  function DigitOf(c: char): nat {
    if IsAsciiDigit(c) then (c - '0') as nat
    else if 'a' <= c <= 'f' then (c - 'a') as nat + 10
    else if 'A' <= c <= 'F' then (c - 'A') as nat + 10
    else 0
  }

  /** The length of the longest prefix of `s` made of digits of `radix`. */
  function DigitRun(s: string, radix: nat): (n: nat)
    ensures n <= |s|
    ensures forall k :: 0 <= k < n ==> IsRadixDigit(s[k], radix)
    ensures n < |s| ==> !IsRadixDigit(s[n], radix)
    decreases |s|
  {
    if s == [] || !IsRadixDigit(s[0], radix) then 0 else 1 + DigitRun(s[1..], radix)
  }

  /** The value of a run of digits, most significant first. */
  function ValueOf(ds: string, radix: nat): nat
    decreases |ds|
  {
    if ds == [] then 0 else ValueOf(ds[..|ds| - 1], radix) * radix + DigitOf(ds[|ds| - 1])
  }

  function TrimStart(s: string): (t: string)
    ensures t == [] || !IsWhitespace(t[0])
    ensures |t| <= |s| && t == s[|s| - |t|..]
    decreases |s|
  {
    if s != [] && IsWhitespace(s[0]) then TrimStart(s[1..]) else s
  }

  /** The number a sign-free numeral starts with: `0x` or `0X` selects
      hexadecimal, and the longest run of digits that follows is read; no
      digits at all give `None`. */
  function ReadMagnitude(u: string): Option<nat> {
    var hex := |u| >= 2 && u[0] == '0' && (u[1] == 'x' || u[1] == 'X');
    var radix := if hex then 16 else 10;
    var v := if hex then u[2..] else u;
    var n := DigitRun(v, radix);
    if n == 0 then None else Some(ValueOf(v[..n], radix))
  }

  /** `parseInt(s)` without a radix: leading white space and one sign are
      skipped before the numeral is read; no numeral gives NaN. */
  function ParseInt(s: string): JsNumber {
    var t := TrimStart(s);
    var negative := t != [] && t[0] == '-';
    var u := if t != [] && (t[0] == '-' || t[0] == '+') then t[1..] else t;
    match ReadMagnitude(u)
    case None => NaN
    case Some(m) => Finite(if negative then 0 - m else m)
  }

  /** The decimal numeral of `n`, as `String(n)` writes it. */
  function DecimalText(n: nat): (s: string)
    ensures s != [] && forall k :: 0 <= k < |s| ==> IsAsciiDigit(s[k])
    ensures n > 0 ==> s[0] != '0'
    ensures n == 0 ==> s == "0"
  {
    if n < 10 then ['0' + n as char]
    else DecimalText(n / 10) + ['0' + (n % 10) as char]
  }

  lemma {:induction false} ValueOfDecimal(n: nat)
    ensures ValueOf(DecimalText(n), 10) == n
  {
    var s := DecimalText(n);
    if n < 10 {
      assert s[..|s| - 1] == [];
    } else {
      ValueOfDecimal(n / 10);
      assert s[..|s| - 1] == DecimalText(n / 10);
    }
  }

  lemma {:induction false} DigitRunOfDigits(s: string, rest: string)
    requires forall k :: 0 <= k < |s| ==> IsAsciiDigit(s[k])
    requires rest == [] || !IsAsciiDigit(rest[0])
    ensures DigitRun(s + rest, 10) == |s|
    decreases |s|
  {
    if s != [] {
      assert (s + rest)[1..] == s[1..] + rest;
      DigitRunOfDigits(s[1..], rest);
    } else {
      assert s + rest == rest;
    }
  }

  /** What may follow a numeral without changing how it reads: nothing, or a
      character that is neither a digit nor the `x` of a hexadecimal prefix. */
  predicate EndsNumeral(rest: string) {
    rest == [] || (!IsAsciiDigit(rest[0]) && rest[0] != 'x' && rest[0] != 'X')
  }

  lemma MagnitudeOfDecimal(n: nat, rest: string)
    requires EndsNumeral(rest)
    ensures ReadMagnitude(DecimalText(n) + rest) == Some(n)
  {
    var s := DecimalText(n);
    var t := s + rest;
    DigitRunOfDigits(s, rest);
    assert t[..|s|] == s;
    ValueOfDecimal(n);
    if |t| >= 2 && t[0] == '0' {
      assert n == 0 && |s| == 1;
      assert t[1] == rest[0];
    }
  }

  /** `parseInt` reads back the numeral of a natural number, whatever text
      that ends the numeral follows it. */
  lemma ParseIntOfDecimal(n: nat, rest: string)
    requires EndsNumeral(rest)
    ensures ParseInt(DecimalText(n) + rest) == Finite(n)
  {
    var s := DecimalText(n);
    var t := s + rest;
    assert t[0] == s[0];
    MagnitudeOfDecimal(n, rest);
    UnsignedNumeral(t, n);
  }

  /** Text that starts with a digit reads as its numeral. */
  lemma UnsignedNumeral(t: string, m: nat)
    requires t != [] && IsAsciiDigit(t[0]) && ReadMagnitude(t) == Some(m)
    ensures ParseInt(t) == Finite(m)
  {
    assert TrimStart(t) == t;
  }

  /** Text that starts with a letter, such as `debug`, is not a number. */
  lemma ParseIntOfWord(s: string)
    requires s != [] && ('a' <= s[0] <= 'z' || 'A' <= s[0] <= 'Z')
    ensures ParseInt(s) == NaN
  {
    assert TrimStart(s) == s;
  }

  /** The level stored on first use: the backstage `debugLevel` when it is set,
      read with `parseInt`, else 3 (info) in development and 5 (error) in
      production. `??` only replaces a missing value, so a set variable that
      is not a number gives NaN. */
  function DefaultLevel(dev: bool, backstage: Option<string>): (r: JsNumber)
    ensures !Truthy(backstage) ==> r == Finite(if dev then 3 else 5)
    ensures Truthy(backstage) ==> r == ParseInt(backstage.value)
  {
    if Truthy(backstage) then ParseInt(backstage.value)
    else Finite(if dev then 3 else 5)
  }

  /** A numeric backstage variable sets the default level. */
  lemma BackstageLevelWins(dev: bool, n: nat)
    ensures DefaultLevel(dev, Some(DecimalText(n))) == Finite(n)
  {
    assert DecimalText(n) + [] == DecimalText(n);
    ParseIntOfDecimal(n, []);
  }

  /** A backstage variable that is a word leaves the default level NaN rather
      than falling back to the build's default. */
  lemma WordBackstageGivesNaN(dev: bool, word: string)
    requires word != [] && ('a' <= word[0] <= 'z' || 'A' <= word[0] <= 'Z')
    ensures DefaultLevel(dev, Some(word)) == NaN
  {
    ParseIntOfWord(word);
  }

  /** The hook's answer: the effective level, and the override's end as a
      date when one is stored (`None` inside is an invalid date). */
  datatype DebugLevelState = DebugLevelState(level: JsNumber, until: Option<Option<int>>)

  /** The temporary override is on while its stored end, read as a date, lies
      after `now`. */
  predicate OverrideActive(until: Option<string>, dateOf: string -> Option<int>, now: int) {
    Truthy(until) && dateOf(until.value).Some? && dateOf(until.value).value > now
  }

  /** `useDebugLevel`: `stored` is the browser's stored level (absent on first
      use, when the default is stored), `until` the stored end of the
      override, `dateOf` the date parser and `now` the clock. */
  function UseDebugLevel(dev: bool, backstage: Option<string>, stored: Option<JsNumber>,
                         until: Option<string>, dateOf: string -> Option<int>, now: int)
    : (r: DebugLevelState)
    ensures OverrideActive(until, dateOf, now) ==> r.level == Finite(3)
    ensures !OverrideActive(until, dateOf, now) ==> r.level == stored.GetOr(DefaultLevel(dev, backstage))
    ensures Truthy(until) <==> r.until.Some?
    ensures Truthy(until) ==> r.until.value == dateOf(until.value)
  {
    var local := stored.GetOr(DefaultLevel(dev, backstage));
    var untilDate := if Truthy(until) then Some(dateOf(until.value)) else None;
    if OverrideActive(until, dateOf, now) then DebugLevelState(Finite(3), untilDate)
    else DebugLevelState(local, untilDate)
  }

  /** Once the override has run out it stays out, and the stored level is
      back in force. */
  lemma OverrideStaysExpired(dev: bool, backstage: Option<string>, stored: Option<JsNumber>,
                             until: Option<string>, dateOf: string -> Option<int>, now: int, later: int)
    requires now <= later && !OverrideActive(until, dateOf, now)
    ensures UseDebugLevel(dev, backstage, stored, until, dateOf, later).level
         == UseDebugLevel(dev, backstage, stored, until, dateOf, now).level
  {
  }

  /** A stored level wins over the backstage variable and the build's default. */
  lemma StoredLevelWins(dev: bool, backstage: Option<string>, level: JsNumber,
                        until: Option<string>, dateOf: string -> Option<int>, now: int)
    requires !OverrideActive(until, dateOf, now)
    ensures UseDebugLevel(dev, backstage, Some(level), until, dateOf, now).level == level
  {
  }
}
