/** Clock positions: printed by crates/spotuify-cli/src/output.rs, parsed by
    crates/spotuify-cli/src/selection.rs. Numbers are unsigned, of 64 bits. */
module ClockPosition {
  import opened Wrappers
  import opened TextForm

  const MAX: nat := 0xFFFF_FFFF_FFFF_FFFF

  type u64 = n: nat | n <= MAX

  function Saturated(n: nat): (r: u64)
  {
    if n <= MAX then n else MAX
  }

  function SaturatingMul(a: u64, b: u64): (r: u64)
  {
    Saturated(a * b)
  }

  function SaturatingAdd(a: u64, b: u64): (r: u64)
  {
    Saturated(a + b)
  }

  // ---- Printing ----

  predicate Digits(s: string)
  {
    forall i :: 0 <= i < |s| ==> '0' <= s[i] <= '9'
  }

  function Digit(n: nat): (r: char)
    requires n < 10
  {
    '0' + n as char
  }

  function Decimal(n: nat): (r: string)
    ensures r != "" && Digits(r)
  {
    if n < 10 then [Digit(n)] else Decimal(n / 10) + [Digit(n % 10)]
  }

  function TwoDigits(n: nat): (r: string)
    ensures r != "" && Digits(r)
  {
    if n < 10 then "0" + Decimal(n) else Decimal(n)
  }

  function PositionLabel(position: u64): (r: string)
  {
    var total := position / 1000;
    var hours, minutes, seconds := total / 3600, total % 3600 / 60, total % 60;
    if hours > 0 then Decimal(hours) + ":" + TwoDigits(minutes) + ":" + TwoDigits(seconds)
    else Decimal(minutes) + ":" + TwoDigits(seconds)
  }

  // ---- Parsing ----

  datatype Error = PositionRequired | InvalidPosition | InvalidDuration

  function DigitsValue(s: string): (r: nat)
    requires Digits(s)
  {
    if s == "" then 0 else 10 * DigitsValue(s[..|s| - 1]) + (s[|s| - 1] - '0') as nat
  }

  /** `str::parse::<u64>`: digits, perhaps after a plus sign, that do not overflow. */
  function ParseNumber(s: string): (r: Option<u64>)
  {
    var digits := if s != "" && s[0] == '+' then s[1..] else s;
    if digits != "" && Digits(digits) && DigitsValue(digits) <= MAX then Some(DigitsValue(digits)) else None
  }

  /** The text before a suffix. */
  function StripSuffix(s: string, suffix: string): (r: Option<string>)
  {
    if |suffix| <= |s| && s[|s| - |suffix|..] == suffix then Some(s[..|s| - |suffix|]) else None
  }

  function ParseDuration(value: string): (r: Result<u64, Error>)
  {
    var ms, s, m := StripSuffix(value, "ms"), StripSuffix(value, "s"), StripSuffix(value, "m");
    var (number, multiplier) :=
      if ms.Some? then (ms.value, 1)
      else if s.Some? then (s.value, 1000)
      else if m.Some? then (m.value, 60000)
      else (value, 1000);
    match ParseNumber(number)
    case None => Err(InvalidDuration)
    case Some(amount) => Ok(SaturatingMul(amount, multiplier))
  }

  predicate AllNumbers(parts: seq<string>)
  {
    forall i :: 0 <= i < |parts| ==> ParseNumber(parts[i]).Some?
  }

  /** The seconds the parts stand for, each worth sixty of the next, in exact arithmetic. */
  function Seconds(parts: seq<string>): (r: nat)
    requires AllNumbers(parts)
  {
    if parts == [] then 0 else 60 * Seconds(parts[..|parts| - 1]) + ParseNumber(parts[|parts| - 1]).value
  }

  predicate HasColon(s: string)
  {
    exists i :: 0 <= i < |s| && s[i] == ':'
  }

  /** What a position means: the exact number of milliseconds, cut off once at
      the largest 64-bit number. */
  function Position(input: string): (r: Result<u64, Error>)
  {
    var text := Trim(input);
    var parts := Split(text, ':');
    if text == "" then Err(PositionRequired)
    else if !HasColon(text) then ParseDuration(text)
    else if |parts| > 3 || !AllNumbers(parts) then Err(InvalidPosition)
    else Ok(Saturated(1000 * Seconds(parts)))
  }

  /** The parser saturates at every operation, which comes to the same. */
  method ParsePosition(input: string) returns (result: Result<u64, Error>)
    ensures result == Position(input)
  {
    hide Trim, Split, ParseNumber, Saturated;
    var text := Trim(input);
    if text == "" {
      return Err(PositionRequired);
    }
    if !HasColon(text) {
      return ParseDuration(text);
    }
    var parts := Split(text, ':');
    if |parts| > 3 {
      return Err(InvalidPosition);
    }
    var total: u64 := 0;
    NothingSaturates();
    for i := 0 to |parts|
      invariant AllNumbers(parts[..i]) && total == Saturated(Seconds(parts[..i]))
    {
      var value := ParseNumber(parts[i]);
      if value.None? {
        return Err(InvalidPosition);
      }
      assert parts[..i + 1][..i] == parts[..i];
      SaturatesOnce(Seconds(parts[..i]), value.value);
      total := SaturatingAdd(SaturatingMul(total, 60), value.value);
    }
    assert parts[..|parts|] == parts;
    SaturatesOnce(Seconds(parts), 0);
    return Ok(SaturatingMul(total, 1000));
  }

  lemma NothingSaturates()
    ensures Saturated(0) == 0
  {
  }

  /** Saturating at each step or once at the end makes no difference. */
  lemma SaturatesOnce(exact: nat, value: u64)
    ensures SaturatingAdd(SaturatingMul(Saturated(exact), 60), value) == Saturated(60 * exact + value)
    ensures SaturatingMul(Saturated(exact), 1000) == Saturated(1000 * exact)
  {
  }

  // ---- Round trips ----

  lemma {:induction false} DecimalReadsBack(n: nat)
    ensures DigitsValue(Decimal(n)) == n
  {
    var s := Decimal(n);
    if n >= 10 {
      DecimalReadsBack(n / 10);
      assert s[..|s| - 1] == Decimal(n / 10);
    } else {
      assert s[..0] == "";
    }
  }

  lemma {:induction false} LeadingZero(s: string)
    requires Digits(s)
    ensures DigitsValue("0" + s) == DigitsValue(s)
    decreases |s|
  {
    var padded := "0" + s;
    if s == "" {
      assert padded[..0] == "";
    } else {
      assert padded[..|padded| - 1] == "0" + s[..|s| - 1];
      LeadingZero(s[..|s| - 1]);
    }
  }

  lemma NumbersReadBack(n: nat)
    requires n <= MAX
    ensures ParseNumber(Decimal(n)) == Some(n) && ParseNumber(TwoDigits(n)) == Some(n)
  {
    hide DigitsValue, Decimal;
    DecimalReadsBack(n);
    LeadingZero(Decimal(n));
    assert Decimal(n)[0] != '+' && TwoDigits(n)[0] != '+';
  }

  /** The label as parts. */
  function LabelParts(position: u64): (r: seq<string>)
    ensures 2 <= |r| <= 3
    ensures forall i :: 0 <= i < |r| ==> r[i] != "" && Digits(r[i])
  {
    var total := position / 1000;
    var hours, minutes, seconds := total / 3600, total % 3600 / 60, total % 60;
    if hours > 0 then [Decimal(hours), TwoDigits(minutes), TwoDigits(seconds)]
    else [Decimal(minutes), TwoDigits(seconds)]
  }

  lemma LabelJoins(position: u64)
    ensures PositionLabel(position) == Join(LabelParts(position), ':')
  {
    hide Decimal, TwoDigits;
    var parts := LabelParts(position);
    if |parts| == 3 {
      assert Join(parts[1..], ':') == parts[1] + ":" + parts[2];
    }
  }

  lemma LabelSeconds(position: u64)
    ensures AllNumbers(LabelParts(position)) && Seconds(LabelParts(position)) == position / 1000
  {
    hide Decimal, TwoDigits, ParseNumber;
    var total := position / 1000;
    var hours, minutes, seconds := total / 3600, total % 3600 / 60, total % 60;
    NumbersReadBack(hours);
    NumbersReadBack(minutes);
    NumbersReadBack(seconds);
    var parts := LabelParts(position);
    SecondsOfParts(parts);
    assert total == 3600 * hours + 60 * minutes + seconds;
  }

  lemma SecondsOfParts(parts: seq<string>)
    requires AllNumbers(parts) && 2 <= |parts| <= 3
    ensures Seconds(parts) ==
            if |parts| == 3 then
              3600 * ParseNumber(parts[0]).value + 60 * ParseNumber(parts[1]).value + ParseNumber(parts[2]).value
            else 60 * ParseNumber(parts[0]).value + ParseNumber(parts[1]).value
  {
    hide ParseNumber;
    assert Seconds([]) == 0;
    assert parts[..1][..0] == [] && Seconds(parts[..1]) == ParseNumber(parts[0]).value;
    assert parts[..2][..1] == parts[..1];
    assert parts[..|parts|] == parts;
  }

  lemma LabelIsTrimmed(position: u64)
    ensures Trim(PositionLabel(position)) == PositionLabel(position)
    ensures PositionLabel(position) != "" && HasColon(PositionLabel(position))
  {
    hide Decimal, TwoDigits;
    var total := position / 1000;
    var hours, minutes, seconds := total / 3600, total % 3600 / 60, total % 60;
    var last := TwoDigits(seconds);
    var first := if hours > 0 then Decimal(hours) else Decimal(minutes);
    var text := PositionLabel(position);
    assert text[0] == first[0] && text[|text| - 1] == last[|last| - 1];
    assert text[|first|] == ':';
  }

  /** Parsing a printed label gives the position in whole seconds; nothing saturates. */
  lemma LabelReadsBack(position: u64)
    ensures Position(PositionLabel(position)) == Ok(position / 1000 * 1000)
  {
    hide Trim, Split, Seconds, PositionLabel, LabelParts, ParseNumber, HasColon;
    LabelIsTrimmed(position);
    LabelJoins(position);
    LabelSeconds(position);
    var parts := LabelParts(position);
    forall i | 0 <= i < |parts|
      ensures Without(parts[i], ':')
    {
      DigitsWithout(parts[i]);
    }
    SplitJoin(parts, ':');
  }

  lemma DigitsWithout(s: string)
    requires Digits(s)
    ensures Without(s, ':')
  {
  }

  /** Seconds, and minutes after hours, take two digits; what leads has no zero to
      spare; and hours are shown exactly from the first one on. */
  lemma LabelShape(position: u64)
    ensures var parts := Split(PositionLabel(position), ':');
      && |parts| == (if position >= 3_600_000 then 3 else 2)
      && (forall i :: 0 < i < |parts| ==> |parts[i]| == 2)
      && (parts[0][..1] != "0" || parts[0] == "0")
      && (|parts| == 3 ==> parts[0] != "0")
  {
    hide Split, PositionLabel, TwoDigits, Decimal;
    var parts := LabelParts(position);
    LabelJoins(position);
    forall i | 0 <= i < |parts|
      ensures Without(parts[i], ':')
    {
      DigitsWithout(parts[i]);
    }
    SplitJoin(parts, ':');
    var total := position / 1000;
    var hours, minutes, seconds := total / 3600, total % 3600 / 60, total % 60;
    TwoDigitsAreTwo(minutes);
    TwoDigitsAreTwo(seconds);
    NoZeroToSpare(hours);
    NoZeroToSpare(minutes);
    assert position >= 3_600_000 <==> hours > 0;
  }

  lemma TwoDigitsAreTwo(n: nat)
    requires n < 100
    ensures |TwoDigits(n)| == 2
  {
    if n >= 10 {
      assert Decimal(n) == Decimal(n / 10) + [Digit(n % 10)];
    }
  }

  lemma {:induction false} NoZeroToSpare(n: nat)
    ensures if n == 0 then Decimal(n) == "0" else Decimal(n)[..1] != "0"
  {
    if n >= 10 {
      NoZeroToSpare(n / 10);
      assert Decimal(n)[0] == Decimal(n / 10)[0];
      assert Decimal(n / 10)[..1][0] == Decimal(n / 10)[0] && Decimal(n)[..1] == [Decimal(n)[0]];
      assert Decimal(n / 10)[..1] == [Decimal(n / 10)[0]];
    } else if n > 0 {
      assert Decimal(n)[..1][0] == Digit(n) != '0';
    }
  }

  /** Two positions print alike if and only if they lie in the same second. */
  lemma LabelsAgreeIff(a: u64, b: u64)
    ensures PositionLabel(a) == PositionLabel(b) <==> a / 1000 == b / 1000
  {
    hide Position;
    LabelReadsBack(a);
    LabelReadsBack(b);
    if a / 1000 == b / 1000 {
      assert PositionLabel(a) == PositionLabel(b);
    }
  }

  /** A number with its unit is that many milliseconds, seconds or minutes. */
  lemma DurationForms(n: u64)
    ensures ParseDuration(Decimal(n) + "ms") == Ok(n)
    ensures ParseDuration(Decimal(n) + "s") == Ok(Saturated(1000 * n))
    ensures ParseDuration(Decimal(n) + "m") == Ok(Saturated(60000 * n))
    ensures ParseDuration(Decimal(n)) == Ok(Saturated(1000 * n))
  {
    hide Decimal, ParseNumber, StripSuffix;
    NumbersReadBack(n);
    DigitsHaveNoUnit(Decimal(n));
  }

  lemma DigitsHaveNoUnit(number: string)
    requires number != "" && Digits(number)
    ensures StripSuffix(number + "ms", "ms") == Some(number)
    ensures StripSuffix(number + "s", "ms") == None && StripSuffix(number + "s", "s") == Some(number)
    ensures StripSuffix(number + "m", "ms") == None && StripSuffix(number + "m", "s") == None
    ensures StripSuffix(number + "m", "m") == Some(number)
    ensures StripSuffix(number, "ms") == None && StripSuffix(number, "s") == None && StripSuffix(number, "m") == None
  {
    var ms, s, m := number + "ms", number + "s", number + "m";
    var end := |number|;
    assert ms[end..] == "ms" && ms[..end] == number;
    assert s[end..] == "s" && s[..end] == number && s[end - 1..][0] == number[end - 1];
    assert m[end..] == "m" && m[..end] == number && m[end - 1..][0] == number[end - 1];
    assert number[end - 1..][0] == number[end - 1];
    assert end > 1 ==> number[end - 2..][0] == number[end - 2];
  }

  /** A plus sign is allowed, a number past 64 bits or with any other character is not. */
  lemma NumbersAccepted(n: nat, s: string)
    ensures ParseNumber("+" + Decimal(n)) == ParseNumber(Decimal(n)) == if n <= MAX then Some(n) else None
    ensures ParseNumber(s).Some? ==> s != "" && Digits(s[1..]) && ('0' <= s[0] <= '9' || (s[0] == '+' && |s| > 1))
  {
    DecimalReadsBack(n);
    hide DigitsValue, Decimal;
    assert ("+" + Decimal(n))[1..] == Decimal(n);
    assert Decimal(n)[0] != '+';
  }
}
