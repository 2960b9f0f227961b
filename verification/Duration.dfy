/**
 The duration parser behind the refresh row's expiry and the cookie's lifetime.

 Numbers are unbounded here. That agrees with the program's doubles whenever the
 start instant is not before 1970: a product beyond the exact-integer range is
 also beyond the date range, so both readings give an invalid date.
 */
module Duration {
  import opened Prelude
  import opened Tokens

  /** White space removed by `trim`: the line terminators and blanks of ECMAScript. */
  predicate IsBlank(c: char) {
    || '\U{0009}' <= c <= '\U{000D}'
    || c == ' '
    || c == '\U{00A0}'
    || c == '\U{1680}'
    || '\U{2000}' <= c <= '\U{200A}'
    || c == '\U{2028}' || c == '\U{2029}'
    || c == '\U{202F}'
    || c == '\U{205F}'
    || c == '\U{3000}'
    || c == '\U{FEFF}'
  }

  /** The same by code point. */
  lemma BlankCodes(c: char)
    ensures IsBlank(c)
      <==> || 9 <= c as int <= 13 || 8192 <= c as int <= 8202
           || c as int in {32, 160, 5760, 8232, 8233, 8239, 8287, 12288, 65279}
  {
  }

  predicate AllBlank(s: string) {
    forall k | 0 <= k < |s| :: IsBlank(s[k])
  }

  function TrimStart(s: string): string {
    if s != "" && IsBlank(s[0]) then TrimStart(s[1..]) else s
  }

  function TrimEnd(s: string): string {
    if s != "" && IsBlank(s[|s| - 1]) then TrimEnd(s[..|s| - 1]) else s
  }

  function Trim(s: string): string {
    TrimEnd(TrimStart(s))
  }

  predicate IsDigit(c: char) { '0' <= c <= '9' }

  predicate AllDigits(s: string) {
    forall k | 0 <= k < |s| :: IsDigit(s[k])
  }

  function DigitValue(c: char): nat
    requires IsDigit(c)
  {
    c as int - '0' as int
  }

  /** `parseInt(digits, 10)`. */
  function NumberOf(digits: string): nat
    requires AllDigits(digits)
  {
    if digits == "" then 0 else 10 * NumberOf(digits[..|digits| - 1]) + DigitValue(digits[|digits| - 1])
  }

  /** The decimal form of a natural number. */
  function Print(n: nat): string {
    if n < 10 then [('0' as int + n) as char] else Print(n / 10) + [('0' as int + n % 10) as char]
  }

  /** The length of the digit run a string starts with. */
  function DigitRun(s: string): (n: nat)
    ensures n <= |s| && AllDigits(s[..n]) && (n < |s| ==> !IsDigit(s[n]))
  {
    if s != "" && IsDigit(s[0]) then
      var m := DigitRun(s[1..]);
      assert s[..m + 1] == [s[0]] + s[1..][..m];
      m + 1
    else 0
  }

  /** Milliseconds per unit; no unit means seconds. */
  function UnitMs(unit: string): Option<nat> {
    if unit == "" || unit == "s" then Some(1_000)
    else if unit == "m" then Some(60_000)
    else if unit == "h" then Some(3_600_000)
    else if unit == "d" then Some(86_400_000)
    else None
  }

  /** The duration in milliseconds, or nothing where the program throws. */
  function Parse(duration: string): Option<nat> {
    var t := Trim(duration);
    var n := DigitRun(t);
    if n == 0 || UnitMs(t[n..]).None? then None
    else Some(NumberOf(t[..n]) * UnitMs(t[n..]).value)
  }

  // ---- The pattern ---------------------------------------------------------------

  /** `s` is blanks, one or more digits, an optional unit, blanks. */
  ghost predicate Splits(s: string, pre: string, digits: string, unit: string, post: string) {
    && s == pre + digits + unit + post
    && AllBlank(pre) && AllBlank(post)
    && digits != "" && AllDigits(digits)
    && UnitMs(unit).Some?
  }

  lemma {:induction false} TrimStartDrops(pre: string, body: string)
    requires AllBlank(pre) && (body == "" || !IsBlank(body[0]))
    ensures TrimStart(pre + body) == body
    decreases |pre|
  {
    if pre == "" {
      assert pre + body == body;
    } else {
      assert (pre + body)[1..] == pre[1..] + body;
      TrimStartDrops(pre[1..], body);
    }
  }

  lemma {:induction false} TrimEndDrops(body: string, post: string)
    requires AllBlank(post) && (body == "" || !IsBlank(body[|body| - 1]))
    ensures TrimEnd(body + post) == body
    decreases |post|
  {
    if post == "" {
      assert body + post == body;
    } else {
      var s, shorter := body + post, post[..|post| - 1];
      assert s[|s| - 1] == post[|post| - 1];
      assert s[..|s| - 1] == body + shorter;
      TrimEndDrops(body, shorter);
    }
  }

  lemma {:induction false} TrimStartSplits(s: string) returns (pre: string)
    ensures AllBlank(pre) && s == pre + TrimStart(s)
  {
    if s != "" && IsBlank(s[0]) {
      var rest := TrimStartSplits(s[1..]);
      pre := [s[0]] + rest;
    } else {
      pre := "";
    }
  }

  lemma {:induction false} TrimEndSplits(s: string) returns (post: string)
    ensures AllBlank(post) && s == TrimEnd(s) + post
  {
    if s != "" && IsBlank(s[|s| - 1]) {
      var rest := TrimEndSplits(s[..|s| - 1]);
      post := rest + [s[|s| - 1]];
    } else {
      post := "";
    }
  }

  lemma {:induction false} DigitRunOf(digits: string, unit: string)
    requires AllDigits(digits) && (unit == "" || !IsDigit(unit[0]))
    ensures DigitRun(digits + unit) == |digits|
    decreases |digits|
  {
    if digits == "" {
      assert digits + unit == unit;
    } else {
      assert (digits + unit)[1..] == digits[1..] + unit;
      DigitRunOf(digits[1..], unit);
    }
  }

  /** Everything in the pattern is read as its number times its unit. */
  lemma ParseOfSplit(s: string, pre: string, digits: string, unit: string, post: string)
    requires Splits(s, pre, digits, unit, post)
    ensures Parse(s) == Some(NumberOf(digits) * UnitMs(unit).value)
  {
    var body := digits + unit;
    assert Trim(s) == body by {
      assert s == pre + (body + post);
      assert (body + post)[0] == digits[0];
      assert body[|body| - 1] == (if unit == "" then digits[|digits| - 1] else unit[|unit| - 1]);
      TrimStartDrops(pre, body + post);
      TrimEndDrops(body, post);
    }
    DigitRunOf(digits, unit);
    assert body[..|digits|] == digits && body[|digits|..] == unit;
  }

  /** Nothing outside the pattern is accepted, and everything in it is. */
  lemma ParseAcceptsExactlyThePattern(s: string)
    ensures Parse(s).Some? <==> exists pre, digits, unit, post :: Splits(s, pre, digits, unit, post)
  {
    if Parse(s).Some? {
      var pre := TrimStartSplits(s);
      var post := TrimEndSplits(TrimStart(s));
      var t := Trim(s);
      var n := DigitRun(t);
      assert t == t[..n] + t[n..];
      assert s == pre + t[..n] + t[n..] + post;
      assert Splits(s, pre, t[..n], t[n..], post);
    }
    if exists pre, digits, unit, post :: Splits(s, pre, digits, unit, post) {
      var pre, digits, unit, post :| Splits(s, pre, digits, unit, post);
      ParseOfSplit(s, pre, digits, unit, post);
    }
  }

  lemma {:induction false} PrintedNumber(n: nat)
    ensures Print(n) != "" && AllDigits(Print(n)) && NumberOf(Print(n)) == n
  {
    if n >= 10 {
      PrintedNumber(n / 10);
      var last := ('0' as int + n % 10) as char;
      assert Print(n)[..|Print(n)| - 1] == Print(n / 10);
      assert DigitValue(last) == n % 10;
    }
  }

  /** Printing a number with any unit, between any blanks, and parsing it gives the number times the unit. */
  lemma RoundTrip(n: nat, unit: string, pre: string, post: string)
    requires UnitMs(unit).Some? && AllBlank(pre) && AllBlank(post)
    ensures Parse(pre + Print(n) + unit + post) == Some(n * UnitMs(unit).value)
  {
    PrintedNumber(n);
    ParseOfSplit(pre + Print(n) + unit + post, pre, Print(n), unit, post);
  }

  /** The same in numerals, unit by unit. */
  lemma UnitsInNumerals(n: nat, unit: string, ms: nat, pre: string, post: string)
    requires AllBlank(pre) && AllBlank(post)
    requires || (unit == "d" && ms == 86_400_000)
             || (unit == "h" && ms == 3_600_000)
             || (unit == "m" && ms == 60_000)
             || ((unit == "s" || unit == "") && ms == 1_000)
    ensures Parse(pre + Print(n) + unit + post) == Some(n * ms)
  {
    RoundTrip(n, unit, pre, post);
  }

  /** Decimal notation: one more digit is ten times the number and the digit. */
  lemma OneMoreDigit(digits: string, c: char)
    requires AllDigits(digits) && '0' <= c <= '9'
    ensures AllDigits(digits + [c]) && NumberOf(digits + [c]) == 10 * NumberOf(digits) + (c as int - 48)
  {
    assert (digits + [c])[..|digits|] == digits;
  }

  lemma ParsePlain(digits: string, unit: string)
    requires digits != "" && AllDigits(digits) && UnitMs(unit).Some?
    ensures Parse(digits + unit) == Some(NumberOf(digits) * UnitMs(unit).value)
  {
    assert digits + unit == "" + digits + unit + "";
    ParseOfSplit(digits + unit, "", digits, unit, "");
  }

  lemma Append(digits: string, c: char, longer: string, n: nat)
    requires AllDigits(digits) && NumberOf(digits) == n && '0' <= c <= '9' && longer == digits + [c]
    ensures AllDigits(longer) && NumberOf(longer) == 10 * n + (c as int - 48)
  {
    OneMoreDigit(digits, c);
  }

  lemma NumberOf15()
    ensures AllDigits("15") && NumberOf("15") == 15
  {
    Append("", '1', "1", 0);
    Append("1", '5', "15", 1);
  }

  lemma NumberOf3600()
    ensures AllDigits("3600") && NumberOf("3600") == 3600
  {
    Append("", '3', "3", 0);
    Append("3", '6', "36", 3);
    Append("36", '0', "360", 36);
    Append("360", '0', "3600", 360);
  }

  /** The durations the source's comment names. */
  lemma DocumentedDurations()
    ensures Parse("15" + "m") == Some(900_000)
    ensures Parse("7" + "d") == Some(604_800_000)
    ensures Parse("3600" + "") == Some(3_600_000)
  {
    NumberOf15();
    ParsePlain("15", "m");
    Append("", '7', "7", 0);
    ParsePlain("7", "d");
    NumberOf3600();
    ParsePlain("3600", "");
  }

  // ---- Dates -----------------------------------------------------------------------

  datatype Date = Instant(ms: int) | InvalidDate

  const MAX_TIME := 8_640_000_000_000_000

  /** The range check every ECMAScript date makes. */
  function TimeClip(ms: int): Date {
    if -MAX_TIME <= ms <= MAX_TIME then Instant(ms) else InvalidDate
  }

  /** `resolveExpiryDate`; nothing where it throws. */
  function ResolveExpiryDate(from: nat, duration: string): Option<Date> {
    var parsed := Parse(duration);
    if parsed.None? then None else Some(TimeClip(from + parsed.value))
  }

  /** `getRefreshTokenMaxAgeMs`: the cookie's lifetime. */
  function CookieLifetime(duration: string): Option<Date> {
    ResolveExpiryDate(0, duration)
  }

  /** The expiry is that many milliseconds after the start, within 100 million days of 1970. */
  lemma ExpiryInNumerals(from: nat, n: nat)
    ensures var days := Print(n) + "d";
      && CookieLifetime(days) == Some(if n <= 100_000_000 then Instant(n * 86_400_000) else InvalidDate)
      && ResolveExpiryDate(from, days)
         == Some(if from + n * 86_400_000 <= 8_640_000_000_000_000 then Instant(from + n * 86_400_000) else InvalidDate)
  {
    PrintedNumber(n);
    ParsePlain(Print(n), "d");
  }

  /**
   The row's lifetime equals the cookie's for every start instant, exactly as long
   as the expiry instant is still a representable date (or both are not).
   */
  lemma CookieAndRowAgree(from: nat, duration: string)
    requires Parse(duration).Some?
    ensures var row, cookie := ResolveExpiryDate(from, duration).value, CookieLifetime(duration).value;
      (cookie == if row.Instant? then Instant(row.ms - from) else InvalidDate)
      <==> from + Parse(duration).value <= MAX_TIME || MAX_TIME < Parse(duration).value
  {
  }

  // ---- How the JWT library reads the same string -------------------------------------

  function SkipSpaces(s: string): string {
    if s != "" && s[0] == ' ' then SkipSpaces(s[1..]) else s
  }

  /** Milliseconds per unit as the library has them; a bare number is milliseconds. */
  function LibraryMs(unit: string): Option<nat> {
    if unit == "" then Some(1)
    else if unit == "s" then Some(1_000)
    else if unit == "m" then Some(60_000)
    else if unit == "h" then Some(3_600_000)
    else if unit == "d" then Some(86_400_000)
    else None
  }

  /**
   The library's reading of an `expiresIn` string of digits and one of these units: no
   surrounding white space, spaces allowed before the unit, and a bare number counts
   milliseconds.
   */
  function JwtSpan(duration: string): Option<nat> {
    var n := DigitRun(duration);
    var unit := SkipSpaces(duration[n..]);
    if n == 0 || LibraryMs(unit).None? then None
    else Some(NumberOf(duration[..n]) * LibraryMs(unit).value)
  }

  predicate AllSpaces(s: string) {
    forall k | 0 <= k < |s| :: s[k] == ' '
  }

  lemma {:induction false} SkipsAllSpaces(gap: string, unit: string)
    requires AllSpaces(gap) && LibraryMs(unit).Some?
    ensures SkipSpaces(gap + unit) == unit
    decreases |gap|
  {
    if gap == "" {
      assert gap + unit == unit;
    } else {
      assert (gap + unit)[1..] == gap[1..] + unit;
      SkipsAllSpaces(gap[1..], unit);
    }
  }

  lemma {:induction false} SkippedSpaces(s: string) returns (gap: string)
    ensures AllSpaces(gap) && s == gap + SkipSpaces(s)
  {
    if s == "" || s[0] != ' ' {
      gap := "";
    } else {
      var rest := SkippedSpaces(s[1..]);
      gap := " " + rest;
    }
  }

  /** `s` is a number, a gap of spaces and a unit, the forms both sides are compared on. */
  ghost predicate Spaced(s: string, digits: string, gap: string, unit: string) {
    s == digits + gap + unit && digits != "" && AllDigits(digits) && AllSpaces(gap) && LibraryMs(unit).Some?
  }

  lemma JwtSpanOf(s: string, digits: string, gap: string, unit: string)
    requires Spaced(s, digits, gap, unit)
    ensures JwtSpan(s) == Some(NumberOf(digits) * LibraryMs(unit).value)
  {
    assert s == digits + (gap + unit);
    DigitRunOf(digits, gap + unit);
    assert s[..|digits|] == digits && s[|digits|..] == gap + unit;
    SkipsAllSpaces(gap, unit);
  }

  lemma JwtSpanForm(s: string) returns (digits: string, gap: string, unit: string)
    requires JwtSpan(s).Some?
    ensures Spaced(s, digits, gap, unit)
  {
    var n := DigitRun(s);
    digits, unit := s[..n], SkipSpaces(s[n..]);
    gap := SkippedSpaces(s[n..]);
    assert s == s[..n] + s[n..];
  }

  lemma NoUnitStartsWithSpace(t: string)
    requires t != "" && t[0] == ' '
    ensures UnitMs(t).None?
  {
  }

  /** A gap before a unit is not trimmed away, so the parser rejects it. */
  lemma GapRejected(s: string, digits: string, gap: string, unit: string)
    requires Spaced(s, digits, gap, unit) && gap != "" && unit != ""
    ensures Parse(s).None?
  {
    assert s == digits + (gap + unit);
    TrimStartDrops("", s);
    TrimEndDrops(s, "");
    assert "" + s == s && s + "" == s;
    DigitRunOf(digits, gap + unit);
    assert s[|digits|..] == gap + unit;
    NoUnitStartsWithSpace(gap + unit);
  }

  /**
   Where the parser and the library differ: the parser rejects a gap before the unit,
   and reads a bare number as a thousand times what the library reads. So they agree
   exactly on a number followed at once by a unit, and on a bare zero.
   */
  lemma ReadingsAgreeIff(s: string, digits: string, gap: string, unit: string)
    requires Spaced(s, digits, gap, unit)
    ensures JwtSpan(s).Some?
    ensures Parse(s).Some? <==> gap == "" || unit == ""
    ensures unit == "" ==> Parse(s) == Some(1_000 * JwtSpan(s).value)
    ensures Parse(s) == JwtSpan(s) <==> if unit == "" then NumberOf(digits) == 0 else gap == ""
  {
    JwtSpanOf(s, digits, gap, unit);
    if unit == "" {
      assert s == "" + digits + "" + gap;
      ParseOfSplit(s, "", digits, "", gap);
    } else if gap == "" {
      assert s == "" + digits + unit + "";
      ParseOfSplit(s, "", digits, unit, "");
    } else {
      GapRejected(s, digits, gap, unit);
    }
  }

  /** Whatever duration both sides read, the row outlives the token. */
  lemma SpansOfAnyConfiguration(accessSpan: nat, duration: string)
    requires JwtSpan(duration).Some? && Parse(duration).Some?
    ensures Config(accessSpan, JwtSpan(duration).value, Parse(duration).value).Valid()
  {
    var digits, gap, unit := JwtSpanForm(duration);
    JwtSpanOf(duration, digits, gap, unit);
    ReadingsAgreeIff(duration, digits, gap, unit);
  }
}
