/**
 * The ride-publishing form (cabBuddy/src/pages/AddRide.jsx): the arrival
 * time derived from the departure time, the keystroke filter on the price
 * text, the seat clamp, the ordered checks run before publishing, the
 * payload sent to the ride-creation endpoint and the reset that follows a
 * successful publish. Calendar days are day numbers and "today" is a
 * parameter; the ride-creation call is a success flag.
 */
module AddRide {
  import opened JsText

  // ------------------------------------------------- arrival time (49-64)

  const MinutesPerDay: int := 1440

  /** The minute of the day a Date shows after `setHours(h, m, 0, 0)`:
      hours and minutes outside their ranges roll over into the previous
      or next day. */
  function SetHoursMinutes(h: int, m: int): (t: int)
    ensures 0 <= t < MinutesPerDay
  {
    (60 * h + m) % MinutesPerDay
  }

  /** `setHours(h)` on a Date showing minute `t` of its day: the minutes
      are kept. */
  function SetHours(t: int, h: int): (t': int)
    requires 0 <= t < MinutesPerDay
    ensures 0 <= t' < MinutesPerDay
  {
    SetHoursMinutes(h, t % 60)
  }

  /** The Date steps of `calculateArrivalTime`: set the departure, then
      add three hours with `setHours(getHours() + 3)`. */
  function ArrivalMinute(h: int, m: int): (t: int)
    ensures 0 <= t < MinutesPerDay
  {
    var departure := SetHoursMinutes(h, m);
    SetHours(departure, departure / 60 + 3)
  }

  /** The arrival is three hours after the departure, modulo a day. */
  lemma ArrivalMinuteIsThreeHoursLater(h: int, m: int)
    ensures ArrivalMinute(h, m) == (60 * h + m + 180) % MinutesPerDay
  {
    var d := (60 * h + m) % MinutesPerDay;
    assert 60 * (d / 60 + 3) + d % 60 == d + 180;
    var k := (60 * h + m) / MinutesPerDay;
    assert 60 * h + m + 180 == d + 180 + MinutesPerDay * k;
    ModShift(d + 180, k);
  }

  lemma ModShift(x: int, k: int)
    ensures (x + MinutesPerDay * k) % MinutesPerDay == x % MinutesPerDay
  {
  }

  /** Hours and minutes read from a departure "H:M": split on ':' and
      `parseInt` the first two pieces; None when either is NaN (a missing
      minute piece is `undefined`, which parses to NaN). */
  function DepartureParts(departure: string): (r: Option<(int, int)>)
    ensures var p := Split(departure, ':');
      r.Some? <==> |p| >= 2 && ParseInt(p[0]).Some? && ParseInt(p[1]).Some?
    ensures var p := Split(departure, ':');
      r.Some? ==> |p| >= 2 && ParseInt(p[0]) == Some(r.value.0) && ParseInt(p[1]) == Some(r.value.1)
    ensures ':' !in departure ==> r.None?
  {
    var parts := Split(departure, ':');
    if |parts| < 2 then None
    else
      match (ParseInt(parts[0]), ParseInt(parts[1]))
      case (Some(h), Some(m)) => Some((h, m))
      case _ => None
  }

  /** "HH:MM" for a minute of the day, each field `padStart(2, "0")` */
  function ClockText(t: int): string
    requires 0 <= t < MinutesPerDay
  {
    PadStart2(NatToString(t / 60)) + ":" + PadStart2(NatToString(t % 60))
  }

  /** Two two-digit fields "HH:MM" with HH < 24 and MM < 60 */
  predicate IsClockText(s: string) {
    && |s| == 5 && s[2] == ':'
    && AllDigits(s[..2]) && AllDigits(s[3..])
    && DigitsValue(s[..2], 10) < 24 && DigitsValue(s[3..], 10) < 60
  }

  /** The minute of the day written by a clock text */
  function ClockMinutes(s: string): int
    requires IsClockText(s)
  {
    60 * DigitsValue(s[..2], 10) + DigitsValue(s[3..], 10)
  }

  /** `calculateArrivalTime(departure)`. `departure` is None for a value
      that is not a string, on which `split` throws and the catch returns
      "13:00"; for a string, a NaN hour or minute makes every Date field
      NaN and the result "NaN:NaN". */
  function CalculateArrivalTime(departure: Option<string>): (r: string)
    ensures departure.None? ==> r == "13:00"
    ensures departure.Some? && DepartureParts(departure.value).None? ==> r == "NaN:NaN"
    ensures departure.Some? && DepartureParts(departure.value).Some? ==>
      var (h, m) := DepartureParts(departure.value).value;
      IsClockText(r)
  {
    match departure
    case None => "13:00"
    case Some(d) =>
      match DepartureParts(d)
      case None => "NaN:NaN"
      case Some((h, m)) =>
        ClockTextShape(ArrivalMinute(h, m));
        ClockText(ArrivalMinute(h, m))
  }

  lemma ClockTextFields(t: int)
    requires 0 <= t < MinutesPerDay
    ensures |ClockText(t)| == 5 && ClockText(t)[2] == ':'
    ensures ClockText(t)[..2] == PadStart2(NatToString(t / 60))
    ensures ClockText(t)[3..] == PadStart2(NatToString(t % 60))
  {
    PadStart2OfNat(t / 60);
    PadStart2OfNat(t % 60);
    FieldsOfJoined(PadStart2(NatToString(t / 60)), PadStart2(NatToString(t % 60)));
  }

  lemma FieldsOfJoined(a: string, b: string)
    requires |a| == 2 && |b| == 2
    ensures |a + ":" + b| == 5 && (a + ":" + b)[2] == ':'
    ensures (a + ":" + b)[..2] == a && (a + ":" + b)[3..] == b
  {
  }

  lemma ClockTextShape(t: int)
    requires 0 <= t < MinutesPerDay
    ensures IsClockText(ClockText(t)) && ClockMinutes(ClockText(t)) == t
  {
    ClockTextFields(t);
    var hh := PadStart2(NatToString(t / 60));
    var mm := PadStart2(NatToString(t % 60));
    PadStart2OfNat(t / 60);
    PadStart2OfNat(t % 60);
    ParseIntOfDigits(hh);
    ParseIntOfDigits(mm);
  }

  lemma ClockTextSplit(t: int)
    requires 0 <= t < MinutesPerDay
    ensures Split(ClockText(t), ':') == [ClockText(t)[..2], ClockText(t)[3..]]
  {
    var hh := PadStart2(NatToString(t / 60));
    var mm := PadStart2(NatToString(t % 60));
    PadStart2OfNat(t / 60);
    PadStart2OfNat(t % 60);
    ClockTextFields(t);
    SplitOfFields(ClockText(t), hh, mm);
  }

  /** Reading a clock text back as a departure gives its hour and minute. */
  lemma ClockTextRoundTrip(t: int)
    requires 0 <= t < MinutesPerDay
    ensures DepartureParts(ClockText(t)) == Some((t / 60, t % 60))
  {
    ClockTextSplit(t);
    ClockTextFields(t);
    PadStart2OfNat(t / 60);
    PadStart2OfNat(t % 60);
    PartsOfTwo(ClockText(t), ClockText(t)[..2], ClockText(t)[3..], t / 60, t % 60);
  }

  lemma PartsOfTwo(d: string, a: string, b: string, h: int, m: int)
    requires Split(d, ':') == [a, b]
    requires ParseInt(a) == Some(h) && ParseInt(b) == Some(m)
    ensures DepartureParts(d) == Some((h, m))
  {
  }

  /** A departure whose hour or minute is not a number arrives at
      "NaN:NaN", never at the fallback "13:00". */
  lemma ArrivalOfMalformed(d: string)
    requires DepartureParts(d).None?
    ensures CalculateArrivalTime(Some(d)) == "NaN:NaN"
  {
  }

  /** A departure read as hour `h` and minute `m` arrives at a clock text
      three hours later, modulo a day. */
  lemma ArrivalTimeMeaning(d: string, h: int, m: int)
    requires DepartureParts(d) == Some((h, m))
    ensures IsClockText(CalculateArrivalTime(Some(d)))
    ensures ClockMinutes(CalculateArrivalTime(Some(d))) == (60 * h + m + 180) % MinutesPerDay
  {
    ArrivalTextOf(d, h, m);
    ClockTextShape((60 * h + m + 180) % MinutesPerDay);
  }

  /** Feeding an arrival back in as a departure adds another three hours:
      `u` is six hours after the departure, modulo a day. */
  lemma ArrivalOfArrival(d: string, h: int, m: int, u: int)
    requires DepartureParts(d) == Some((h, m))
    requires u == (60 * h + m + 360) % MinutesPerDay
    ensures CalculateArrivalTime(Some(CalculateArrivalTime(Some(d)))) == ClockText(u)
  {
    var t := (60 * h + m + 180) % MinutesPerDay;
    SixHoursLater(h, m, t, u);
    ArrivalTextIs(d, h, m, t);
    ArrivalOfArrivalText(CalculateArrivalTime(Some(d)), t, u);
  }

  lemma ArrivalOfArrivalText(a: string, t: int, u: int)
    requires 0 <= t < MinutesPerDay && a == ClockText(t) && u == (t + 180) % MinutesPerDay
    ensures CalculateArrivalTime(Some(a)) == ClockText(u)
  {
    ArrivalOfClockText(t);
  }

  /** A clock text read back as a departure arrives three hours later. */
  lemma ArrivalOfClockText(t: int)
    requires 0 <= t < MinutesPerDay
    ensures CalculateArrivalTime(Some(ClockText(t))) == ClockText((t + 180) % MinutesPerDay)
  {
    ClockTextRoundTrip(t);
    ArrivalOfFields(ClockText(t), t / 60, t % 60, t);
  }

  lemma ArrivalOfFields(s: string, h: int, m: int, t: int)
    requires DepartureParts(s) == Some((h, m)) && 60 * h + m == t
    ensures CalculateArrivalTime(Some(s)) == ClockText((t + 180) % MinutesPerDay)
  {
    SameMinute(h, m, t);
    ArrivalTextOf(s, h, m);
  }

  lemma SameMinute(h: int, m: int, t: int)
    requires 60 * h + m == t
    ensures (60 * h + m + 180) % MinutesPerDay == (t + 180) % MinutesPerDay
  {
  }

  lemma SixHoursLater(h: int, m: int, t: int, u: int)
    requires t == (60 * h + m + 180) % MinutesPerDay
    requires u == (60 * h + m + 360) % MinutesPerDay
    ensures u == (t + 180) % MinutesPerDay
  {
    var k := (60 * h + m + 180) / MinutesPerDay;
    assert t + 180 == 60 * h + m + 360 - MinutesPerDay * k;
    ModShift(60 * h + m + 360, -k);
  }

  lemma ArrivalTextIs(d: string, h: int, m: int, t: int)
    requires DepartureParts(d) == Some((h, m)) && t == (60 * h + m + 180) % MinutesPerDay
    ensures CalculateArrivalTime(Some(d)) == ClockText(t)
  {
    ArrivalTextOf(d, h, m);
  }

  lemma TwoDigits(s: string, v: nat)
    requires |s| == 2 && AllDigits(s) && DigitValue(s[0]) * 10 + DigitValue(s[1]) == v
    ensures ParseInt(s) == Some(v)
  {
    assert s[..1] == [s[0]];
    assert s[..1][..0] == [];
    assert DigitsValue(s[..1], 10) == DigitValue(s[0]);
    assert DigitsValue(s, 10) == v;
    ParseIntOfDigits(s);
  }

  lemma PadDigits(n: nat)
    requires n < 100
    ensures PadStart2(NatToString(n)) == [DigitChar(n / 10), DigitChar(n % 10)]
  {
    if n >= 10 {
      assert NatToString(n / 10) == [DigitChar(n / 10)];
    }
  }

  lemma ClockTextDigits(t: int)
    requires 0 <= t < MinutesPerDay
    ensures ClockText(t) == [DigitChar(t / 600), DigitChar(t / 60 % 10), ':',
                             DigitChar(t % 60 / 10), DigitChar(t % 10)]
  {
    var h, m := t / 60, t % 60;
    ClockFieldsArithmetic(t);
    PadDigits(h);
    PadDigits(m);
    assert ClockText(t) == PadStart2(NatToString(h)) + ":" + PadStart2(NatToString(m));
  }

  lemma ClockFieldsArithmetic(t: int)
    requires 0 <= t < MinutesPerDay
    ensures 0 <= t / 60 < 24 && 0 <= t % 60 < 60
    ensures t / 60 / 10 == t / 600 && t % 60 % 10 == t % 10
  {
  }

  lemma SplitOfFields(d: string, hh: string, mm: string)
    requires d == hh + ":" + mm && AllDigits(hh) && AllDigits(mm)
    ensures Split(d, ':') == [hh, mm]
  {
    assert ':' !in hh && ':' !in mm by {
      assert forall i :: 0 <= i < |hh| ==> IsDigit(hh[i]);
      assert forall i :: 0 <= i < |mm| ==> IsDigit(mm[i]);
    }
    assert Join([hh, mm], ':') == d;
    SplitJoin([hh, mm], ':');
  }

  lemma DepartureOfSplit(d: string, hh: string, mm: string, h: nat, m: nat)
    requires Split(d, ':') == [hh, mm] && |hh| == 2 && |mm| == 2 && AllDigits(hh) && AllDigits(mm)
    requires h == DigitValue(hh[0]) * 10 + DigitValue(hh[1])
    requires m == DigitValue(mm[0]) * 10 + DigitValue(mm[1])
    ensures DepartureParts(d) == Some((h, m))
  {
    TwoDigits(hh, h);
    TwoDigits(mm, m);
    PartsOfTwo(d, hh, mm, h, m);
  }

  lemma ArrivalTextOf(d: string, h: int, m: int)
    requires DepartureParts(d) == Some((h, m))
    ensures CalculateArrivalTime(Some(d)) == ClockText((60 * h + m + 180) % MinutesPerDay)
  {
    ArrivalMinuteIsThreeHoursLater(h, m);
  }

  lemma LateDepartureParts(d: string)
    requires d == "22:30"
    ensures DepartureParts(d) == Some((22, 30))
  {
    SplitOfFields(d, "22", "30");
    DepartureOfSplit(d, "22", "30", 22, 30);
  }

  /** "22:30" departs late in the evening and arrives at "01:30". */
  lemma LateDepartureWrapsPastMidnight(d: string)
    requires d == "22:30"
    ensures CalculateArrivalTime(Some(d)) == "01:30"
  {
    LateDepartureParts(d);
    var h, m, t, text := 22, 30, 90, "01:30";
    LateArrivalFacts(h, m, t, text);
    ArrivalIs(d, h, m, t, text);
  }

  lemma DefaultDepartureParts(d: string)
    requires d == "10:00"
    ensures DepartureParts(d) == Some((10, 0))
  {
    SplitOfFields(d, "10", "00");
    DepartureOfSplit(d, "10", "00", 10, 0);
  }

  /** The default departure "10:00" gives the default arrival "13:00". */
  lemma DefaultArrival(d: string)
    requires d == "10:00"
    ensures CalculateArrivalTime(Some(d)) == "13:00"
  {
    DefaultDepartureParts(d);
    var h, m, t, text := 10, 0, 780, "13:00";
    DefaultArrivalFacts(h, m, t, text);
    ArrivalIs(d, h, m, t, text);
  }

  /** The arrival of a departure read as (h, m), given the minute `t`
      three hours later and its clock text */
  lemma ArrivalIs(d: string, h: int, m: int, t: int, text: string)
    requires DepartureParts(d) == Some((h, m))
    requires 0 <= t < MinutesPerDay && (60 * h + m + 180) % MinutesPerDay == t && ClockText(t) == text
    ensures CalculateArrivalTime(Some(d)) == text
  {
    ArrivalTextOf(d, h, m);
  }

  lemma LateArrivalFacts(h: int, m: int, t: int, text: string)
    requires h == 22 && m == 30 && t == 90 && text == "01:30"
    ensures 0 <= t < MinutesPerDay && (60 * h + m + 180) % MinutesPerDay == t && ClockText(t) == text
  {
    ClockTextDigits(t);
  }

  lemma DefaultArrivalFacts(h: int, m: int, t: int, text: string)
    requires h == 10 && m == 0 && t == 780 && text == "13:00"
    ensures 0 <= t < MinutesPerDay && (60 * h + m + 180) % MinutesPerDay == t && ClockText(t) == text
  {
    ClockTextDigits(t);
  }

  // ------------------------------------------------- price filter (30-46)

  /** `/^\d*\.?\d{0,2}$/`: digits, or digits, one point and at most two
      digits. */
  function PricePattern(s: string): (ok: bool)
    ensures AllDigits(s) ==> ok
    ensures ok ==> forall i :: 0 <= i < |s| ==> IsDigit(s[i]) || s[i] == '.'
    ensures ok && '.' in s ==> |s| - IndexOf(s, '.') <= 3 && '.' !in s[IndexOf(s, '.') + 1..]
  {
    PatternChars(s);
    if '.' in s then
      var k := IndexOf(s, '.');
      AllDigits(s[..k]) && AllDigits(s[k + 1..]) && |s| - (k + 1) <= 2
    else AllDigits(s)
  }

  /** The pattern holds exactly for a digit string, or digits, one point
      and at most two digits. */
  lemma PricePatternMeaning(s: string)
    ensures PricePattern(s) <==>
      || AllDigits(s)
      || exists k :: 0 <= k < |s| && s[k] == '.' && AllDigits(s[..k]) && AllDigits(s[k + 1..]) && |s| - k - 1 <= 2
  {
    if PricePattern(s) {
      if '.' in s {
        var k := IndexOf(s, '.');
        MatchedPriceShape(s);
        assert 0 <= k < |s| && s[k] == '.';
      }
    } else {
      forall k | 0 <= k < |s| && s[k] == '.' && AllDigits(s[..k]) && AllDigits(s[k + 1..]) && |s| - k - 1 <= 2
        ensures false
      {
        PointedPriceMatches(s, k);
      }
    }
  }

  lemma MatchedPriceShape(s: string)
    requires PricePattern(s) && '.' in s
    ensures var k := IndexOf(s, '.');
      AllDigits(s[..k]) && AllDigits(s[k + 1..]) && |s| - k - 1 <= 2
  {
  }

  lemma PointedPriceMatches(s: string, k: nat)
    requires k < |s| && s[k] == '.' && AllDigits(s[..k]) && AllDigits(s[k + 1..]) && |s| - k - 1 <= 2
    ensures PricePattern(s)
  {
    FirstPoint(s, k);
  }

  /** A point with only digits before it is the first point. */
  lemma FirstPoint(s: string, k: nat)
    requires k < |s| && s[k] == '.' && AllDigits(s[..k])
    ensures '.' in s && IndexOf(s, '.') == k
  {
    assert s[k] in s;
    var j := IndexOf(s, '.');
    assert forall i :: 0 <= i < k ==> s[i] != '.' by {
      forall i | 0 <= i < k ensures s[i] != '.' { assert IsDigit(s[..k][i]); }
    }
    assert forall i :: 0 <= i < j ==> s[i] != '.' by {
      forall i | 0 <= i < j ensures s[i] != '.' { assert s[i] == s[..j][i]; }
    }
  }

  lemma PatternChars(s: string)
    ensures '.' in s ==> var k := IndexOf(s, '.');
      AllDigits(s[..k]) && AllDigits(s[k + 1..]) ==> forall i :: 0 <= i < |s| ==> IsDigit(s[i]) || s[i] == '.'
    ensures '.' in s ==> var k := IndexOf(s, '.');
      AllDigits(s[k + 1..]) ==> '.' !in s[k + 1..]
  {
    if '.' in s {
      var k := IndexOf(s, '.');
      var a, b := s[..k], s[k + 1..];
      if AllDigits(a) && AllDigits(b) {
        forall i | 0 <= i < |s| ensures IsDigit(s[i]) || s[i] == '.' {
          if i < k { assert s[i] == a[i]; } else if i > k { assert s[i] == b[i - k - 1]; }
        }
      }
      if AllDigits(b) {
        forall j | 0 <= j < |b| ensures b[j] != '.' {
          assert IsDigit(b[j]);
        }
      }
    }
  }

  /** `parseFloat(s)` lies in [1, 5000] (NaN does not) */
  predicate InPriceRange(s: string) {
    match ParseFloat(s)
    case Some(x) => AtLeast(x, 1) && AtMost(x, 5000)
    case None => false
  }

  /** What the price field may hold: nothing, or a text of the price
      pattern whose value lies in [1, 5000]. */
  predicate PriceOk(p: string) {
    p == "" || (PricePattern(p) && InPriceRange(p))
  }

  /** `handlePriceChange`: the price after the user types `input` */
  function PriceAfterInput(price: string, input: string): (r: string)
    ensures PriceOk(price) ==> PriceOk(r)
    ensures input == "" ==> r == ""
    ensures !PricePattern(input) && input != "" ==> r == price
    ensures PricePattern(input) && InPriceRange(input) ==> r == input
    ensures PricePattern(input) && ParseFloat(input).Some? && !AtLeast(ParseFloat(input).value, 1)
      ==> r == "1"
    ensures (PricePattern(input) && ParseFloat(input).Some? && AtLeast(ParseFloat(input).value, 1)
             && !AtMost(ParseFloat(input).value, 5000)) ==> r == price
  {
    if input == "" then ""
    else if PricePattern(input) then
      match ParseFloat(input)
      case None => price
      case Some(x) =>
        if AtLeast(x, 1) && AtMost(x, 5000) then input
        else if !AtLeast(x, 1) then OneIsOk("1"); "1"
        else price
    else price
  }

  lemma OneIsOk(s: string)
    requires s == "1"
    ensures PriceOk(s)
  {
    assert AllDigits(s) && '.' !in s;
    ParseFloatOfDigits(s);
    assert DigitsValue(s, 10) == 1 by {
      assert s[..0] == [];
    }
  }

  /** A lone point matches the pattern but parses to NaN, so it leaves
      the price as it was. */
  lemma LonePointKeepsPrice(price: string)
    ensures PricePattern(".") && ParseFloat(".") == None
    ensures PriceAfterInput(price, ".") == price
  {
    assert IndexOf(".", '.') == 0;
    var p: string := ".";
    assert p[1..] == [];
    TrimStartOfNonSpace(".");
    assert !StartsWithInfinity(".");
    assert DigitRun(".", 10) == 0;
    assert (".")[..0] == [] && (".")[0..] == ".";
  }

  /** The price after a sequence of keystrokes */
  function PriceAfterInputs(price: string, inputs: seq<string>): string
    decreases |inputs|
  {
    if inputs == [] then price
    else PriceAfterInputs(PriceAfterInput(price, inputs[0]), inputs[1..])
  }

  /** Whatever the user types, starting from the empty field, the price is
      empty or a pattern text whose value lies in [1, 5000]. */
  lemma {:induction false} PriceStaysInRange(price: string, inputs: seq<string>)
    requires PriceOk(price)
    ensures PriceOk(PriceAfterInputs(price, inputs))
    decreases |inputs|
  {
    if inputs != [] {
      PriceStaysInRange(PriceAfterInput(price, inputs[0]), inputs[1..]);
    }
  }

  /** A pattern text with a digit is a plain decimal: its value is that of
      its digits with the point removed, scaled by the digits after it. */
  lemma PatternValue(s: string)
    requires PricePattern(s) && s != "" && s != "."
    ensures ParseFloat(s).Some? && ParseFloat(s).value.Finite?
    ensures !ParseFloat(s).value.negative && -2 <= ParseFloat(s).value.exp <= 0
  {
    if '.' in s {
      var k := IndexOf(s, '.');
      assert s == s[..k] + "." + s[k + 1..];
      assert s[k] == '.' && (|s| == 1 ==> s == ".");
      ParseFloatOfPointed(s[..k], s[k + 1..]);
    } else {
      ParseFloatOfDigits(s);
    }
  }

  // --------------------------------------------------- seats (360-363)

  /** The seat field's onChange: `parseInt(text) || 1`, clamped to 1..8 */
  function SeatsFromInput(text: string): (n: int)
    ensures 1 <= n <= 8
    ensures ParseInt(text).None? || ParseInt(text) == Some(0) ==> n == 1
    ensures ParseInt(text).Some? && 1 <= ParseInt(text).value <= 8 ==> n == ParseInt(text).value
    ensures ParseInt(text).Some? && ParseInt(text).value > 8 ==> n == 8
    ensures ParseInt(text).Some? && ParseInt(text).value < 0 ==> n == 1
  {
    var v := match ParseInt(text)
      case Some(v) => if v == 0 then 1 else v
      case None => 1;
    Max(1, Min(8, v))
  }

  function Min(a: int, b: int): int { if a <= b then a else b }
  function Max(a: int, b: int): int { if a >= b then a else b }

  // ------------------------------------------------ publishing (100-168)

  /** The form's fields as they stand when Publish is pressed */
  datatype RideDraft = RideDraft(
    source: string, destination: string, date: int,
    departureTime: string, arrivalTime: string, seats: int, price: string)

  /** What is sent to the ride-creation endpoint */
  datatype RidePayload = RidePayload(
    source: string, destination: string, rideDate: int,
    departureTime: string, arrivalTime: string,
    availableSeats: int, pricePerSeat: Number, driverId: int)

  /** The publish checks, in the order they run */
  datatype RideError =
    | InvalidPrice | MissingSource | MissingDestination | SameRoute | SeatsOutOfRange | PastDate

  function Rank(e: RideError): nat {
    match e
    case InvalidPrice => 0
    case MissingSource => 1
    case MissingDestination => 2
    case SameRoute => 3
    case SeatsOutOfRange => 4
    case PastDate => 5
  }

  /** The toast shown when check `e` rejects the draft */
  function Message(e: RideError): (text: string)
    ensures text != ""
  {
    match e
    case InvalidPrice => "Please enter a valid price (minimum ₹1)"
    case MissingSource => "Please enter a source location"
    case MissingDestination => "Please enter a destination location"
    case SameRoute => "Source and destination cannot be the same"
    case SeatsOutOfRange => "Seats must be between 1 and 8"
    case PastDate => "Please select a future date"
  }

  /** Each check has its own toast, so the message tells which one failed. */
  lemma MessageIdentifiesError(a: RideError, b: RideError)
    ensures Message(a) == Message(b) <==> a == b
  {
  }

  /** Source and destination name the same place once trimmed and
      lower-cased */
  predicate SamePlace(a: string, b: string) {
    ToLower(Trim(a)) == ToLower(Trim(b))
  }

  /** Whether the check named by `e` passes on the draft */
  function Passes(d: RideDraft, today: int, e: RideError): (ok: bool)
    ensures e == InvalidPrice && ok ==> ParseFloat(d.price).Some? && !ParseFloat(d.price).value.negative
    ensures e == MissingSource && ok ==> d.source != ""
    ensures e == MissingDestination && ok ==> d.destination != ""
    ensures e == SameRoute && ok ==> Trim(d.source) != Trim(d.destination)
  {
    match e
    case InvalidPrice =>
      d.price != "" && ParseFloat(d.price).Some? && AtLeast(ParseFloat(d.price).value, 1)
    case MissingSource => Trim(d.source) != ""
    case MissingDestination => Trim(d.destination) != ""
    case SameRoute => !SamePlace(d.source, d.destination)
    case SeatsOutOfRange => 1 <= d.seats <= 8
    case PastDate => d.date >= today
  }

  /** `formatTime`: "H:M…" becomes "H:M:00", a missing or empty minute
      piece becoming "00" */
  function FormatTime(t: string): (r: string)
    ensures var p := Split(r, ':'); |p| == 3 && p[0] == Split(t, ':')[0] && p[1] != "" && p[2] == "00"
    ensures var q := Split(t, ':'); |q| >= 2 && q[1] != "" ==> Split(r, ':')[1] == q[1]
    ensures var q := Split(t, ':'); |q| < 2 || q[1] == "" ==> Split(r, ':')[1] == "00"
  {
    var parts := Split(t, ':');
    var minutes := if |parts| >= 2 && parts[1] != "" then parts[1] else "00";
    SplitOfTime(parts[0], minutes);
    parts[0] + ":" + minutes + ":00"
  }

  /** "a:b:00" splits back into a, b and "00". */
  lemma SplitOfTime(a: string, b: string)
    requires ':' !in a && ':' !in b
    ensures Split(a + ":" + b + ":00", ':') == [a, b, "00"]
  {
    Join3(a, b, "00");
    var parts := [a, b, "00"];
    forall i | 0 <= i < |parts| ensures ':' !in parts[i] {
      if i == 2 { assert parts[i] == ['0', '0']; }
    }
    SplitJoin(parts, ':');
    assert a + ":" + b + ":" + "00" == a + ":" + b + ":00";
  }

  datatype Result<+T, +E> = Success(value: T) | Failure(error: E)

  /** The checks of `handlePublish`, run in order and stopping at the
      first failure; on success, the payload. */
  function ValidatePublish(d: RideDraft, today: int, driverId: int): (r: Result<RidePayload, RideError>)
    ensures r.Failure? ==> !Passes(d, today, r.error)
    ensures r.Failure? ==> forall e :: Rank(e) < Rank(r.error) ==> Passes(d, today, e)
    ensures r.Success? <==> forall e :: Passes(d, today, e)
    ensures r.Success? ==>
      && r.value.source == Trim(d.source) && r.value.destination == Trim(d.destination)
      && r.value.rideDate == d.date
      && r.value.departureTime == FormatTime(d.departureTime)
      && r.value.arrivalTime == FormatTime(d.arrivalTime)
      && r.value.availableSeats == d.seats
      && Some(r.value.pricePerSeat) == ParseFloat(d.price)
      && r.value.driverId == driverId
  {
    var first := FirstFailure(d, today);
    if first.Some? then Failure(first.value)
    else
      Success(RidePayload(
        Trim(d.source), Trim(d.destination), d.date,
        FormatTime(d.departureTime), FormatTime(d.arrivalTime),
        d.seats, ParseFloat(d.price).value, driverId))
  }

  /** The first check, in the order of `handlePublish`, that the draft
      fails */
  function FirstFailure(d: RideDraft, today: int): (r: Option<RideError>)
    ensures r.Some? ==> !Passes(d, today, r.value)
    ensures r.Some? ==> forall e :: Rank(e) < Rank(r.value) ==> Passes(d, today, e)
    ensures r.None? <==> forall e :: Passes(d, today, e)
  {
    FirstFailureFrom(d, today, 0)
  }

  /** The check of rank `k` */
  function CheckOfRank(k: nat): (e: RideError)
    requires k < 6
    ensures Rank(e) == k
    ensures forall e' :: Rank(e') == k ==> e' == e
  {
    if k == 0 then InvalidPrice
    else if k == 1 then MissingSource
    else if k == 2 then MissingDestination
    else if k == 3 then SameRoute
    else if k == 4 then SeatsOutOfRange
    else PastDate
  }

  /** The first failing check of rank `k` or later */
  function FirstFailureFrom(d: RideDraft, today: int, k: nat): (r: Option<RideError>)
    requires k <= 6
    ensures r.Some? ==> k <= Rank(r.value) && !Passes(d, today, r.value)
    ensures r.Some? ==> forall e :: k <= Rank(e) < Rank(r.value) ==> Passes(d, today, e)
    ensures r.None? <==> forall e :: k <= Rank(e) ==> Passes(d, today, e)
    decreases 6 - k
  {
    if k == 6 then None
    else if !Passes(d, today, CheckOfRank(k)) then Some(CheckOfRank(k))
    else FirstFailureFrom(d, today, k + 1)
  }

  /** Formatting a formatted time changes nothing. */
  lemma FormatTimeIdempotent(t: string)
    ensures FormatTime(FormatTime(t)) == FormatTime(t)
  {
    var a, b := FormatTimeShape(t);
    Join3(a, b, "00");
    var parts := [a, b, "00"];
    forall i | 0 <= i < |parts| ensures ':' !in parts[i] {
      if i == 2 { assert parts[i] == ['0', '0']; }
    }
    SplitJoin(parts, ':');
    assert a + ":" + b + ":" + "00" == a + ":" + b + ":00";
    FormatTimeOfSplit3(FormatTime(t), a, b, "00");
  }

  lemma FormatTimeShape(t: string) returns (a: string, b: string)
    ensures FormatTime(t) == a + ":" + b + ":00"
    ensures ':' !in a && ':' !in b && b != ""
  {
    var parts := Split(t, ':');
    a := parts[0];
    b := if |parts| >= 2 && parts[1] != "" then parts[1] else "00";
  }

  lemma FormatTimeOfSplit3(s: string, a: string, b: string, c: string)
    requires Split(s, ':') == [a, b, c] && b != ""
    ensures FormatTime(s) == a + ":" + b + ":00"
  {
  }

  lemma Join3(a: string, b: string, c: string)
    ensures Join([a, b, c], ':') == a + ":" + b + ":" + c
  {
    assert [a, b, c][1..] == [b, c];
    assert [b, c][1..] == [c];
    assert Join([b, c], ':') == b + [':'] + c;
    assert Join([a, b, c], ':') == a + [':'] + (b + [':'] + c);
  }

  /** A clock text "HH:MM" is sent as "HH:MM:00". */
  lemma FormatTimeOfClock(t: int)
    requires 0 <= t < MinutesPerDay
    ensures FormatTime(ClockText(t)) == ClockText(t) + ":00"
  {
    ClockTextSplit(t);
    ClockTextFields(t);
    FormatTimeOfSplit(ClockText(t), ClockText(t)[..2], ClockText(t)[3..]);
  }

  lemma FormatTimeOfSplit(s: string, a: string, b: string)
    requires Split(s, ':') == [a, b] && b != ""
    ensures FormatTime(s) == s + ":00"
  {
    JoinSplit(s, ':');
    assert [a, b][1..] == [b];
  }

  lemma FormatTimeWithoutMinutes(t: string)
    requires ':' !in t
    ensures FormatTime(t) == t + ":00:00"
  {
  }

  /** Trimming and lower-casing can be done in either order. */
  lemma {:induction false} TrimStartToLower(s: string)
    ensures TrimStart(ToLower(s)) == ToLower(TrimStart(s))
    decreases |s|
  {
    if s != [] {
      LowerKeepsSpace(s[0]);
      ToLowerTail(s);
      if IsSpace(s[0]) {
        TrimStartToLower(s[1..]);
      }
    }
  }

  lemma ToLowerTail(s: string)
    requires s != []
    ensures ToLower(s)[0] == LowerChar(s[0]) && ToLower(s)[1..] == ToLower(s[1..])
  {
  }

  lemma LowerKeepsSpace(c: char)
    ensures IsSpace(LowerChar(c)) == IsSpace(c)
  {
  }

  lemma {:induction false} TrimEndToLower(s: string)
    ensures TrimEnd(ToLower(s)) == ToLower(TrimEnd(s))
    decreases |s|
  {
    if s != [] {
      LowerKeepsSpace(s[|s| - 1]);
      assert ToLower(s)[..|s| - 1] == ToLower(s[..|s| - 1]);
      if IsSpace(s[|s| - 1]) {
        TrimEndToLower(s[..|s| - 1]);
      }
    }
  }

  lemma TrimToLower(s: string)
    ensures Trim(ToLower(s)) == ToLower(Trim(s))
  {
    TrimStartToLower(s);
    TrimEndToLower(TrimStart(s));
  }

  /** A destination that differs from the source only in letter case and
      surrounding white space is rejected as the same place, once the
      earlier checks pass. */
  lemma CaseOnlyDifferenceIsSameRoute(d: RideDraft, today: int, driverId: int)
    requires Passes(d, today, InvalidPrice) && Trim(d.source) != ""
    requires Trim(d.destination) == ToLower(Trim(d.source))
    ensures ValidatePublish(d, today, driverId) == Failure(SameRoute)
  {
    LowerCasedIsSamePlace(d.source, d.destination);
    SameRouteFailsFirst(d, today, driverId);
  }

  /** A place and its trimmed, lower-cased name are the same place. */
  lemma LowerCasedIsSamePlace(a: string, b: string)
    requires Trim(b) == ToLower(Trim(a))
    ensures SamePlace(a, b) && (Trim(a) != "" ==> Trim(b) != "")
  {
    ToLowerIdempotent(Trim(a));
  }

  /** With the first three checks passed, a failed route check is the
      one reported. */
  lemma SameRouteFailsFirst(d: RideDraft, today: int, driverId: int)
    requires Passes(d, today, InvalidPrice) && Trim(d.source) != ""
    requires Trim(d.destination) != "" && SamePlace(d.source, d.destination)
    ensures ValidatePublish(d, today, driverId) == Failure(SameRoute)
  {
    assert FirstFailureFrom(d, today, 3) == Some(SameRoute);
    assert FirstFailureFrom(d, today, 0) == FirstFailureFrom(d, today, 3);
  }

  /** The publish check has no upper bound: a 6000 price passes it. */
  lemma NoUpperPriceBound(d: RideDraft, today: int)
    requires d.price == "6000"
    ensures Passes(d, today, InvalidPrice)
  {
    var p := d.price;
    assert |p| == 4 && AllDigits(p);
    ParseFloatOfDigits(p);
    FourDigitsValue(p);
    assert p[0] == '6' && p[1] == '0' && p[2] == '0' && p[3] == '0';
  }

  lemma FourDigitsValue(p: string)
    requires |p| == 4
    ensures DigitsValue(p, 10)
      == ((DigitValue(p[0]) * 10 + DigitValue(p[1])) * 10 + DigitValue(p[2])) * 10 + DigitValue(p[3])
  {
    var p3, p2, p1 := p[..3], p[..2], p[..1];
    assert p3[..2] == p2 && p2[..1] == p1 && p1[..0] == [];
    assert DigitsValue(p, 10) == DigitsValue(p3, 10) * 10 + DigitValue(p[3]);
    assert DigitsValue(p3, 10) == DigitsValue(p2, 10) * 10 + DigitValue(p[2]);
    assert DigitsValue(p2, 10) == DigitsValue(p1, 10) * 10 + DigitValue(p[1]);
    assert DigitsValue(p1, 10) == DigitValue(p[0]);
  }

  // ------------------------------------------------------ the page state

  datatype PublishOutcome =
    | Rejected(error: RideError, toast: string)
    | Published(payload: RidePayload)
    | PublishFailed(payload: RidePayload)

  /** The state of the PublishRide page */
  class RideForm {
    var date: int
    var departureTime: string
    var arrivalTime: string
    var fromCity: string
    var toCity: string
    var seats: int
    var price: string
    var loading: bool
    var driverId: int
    /** Whether the arrival was set directly (its initial value, typed by
        the user, or reset after a publish) since the departure last
        changed; while it was not, the arrival is the one derived from the
        departure. */
    ghost var arrivalIsManual: bool

    ghost predicate Valid()
      reads this
    {
      && 1 <= seats <= 8
      && PriceOk(price)
      && !loading
      && (!arrivalIsManual ==> arrivalTime == CalculateArrivalTime(Some(departureTime)))
    }

    function Draft(): RideDraft
      reads this
    {
      RideDraft(fromCity, toCity, date, departureTime, arrivalTime, seats, price)
    }

    /** The page as mounted on day `today`: the initial field values. The
        arrival effect's first run derives "13:00" from "10:00" again
        (DefaultArrival), so the arrival stays as initialised. */
    constructor(today: int)
      ensures Valid() && arrivalIsManual
      ensures Draft() == RideDraft("", "", today, "10:00", "13:00", 2, "")
      ensures driverId == 1
    {
      date := today;
      departureTime := "10:00";
      arrivalTime := "13:00";
      fromCity := "";
      toCity := "";
      seats := 2;
      price := "";
      loading := false;
      driverId := 1;
      arrivalIsManual := true;
    }

    /** The field values set after a successful publish; the arrival is
        assigned directly. */
    method ResetFields(today: int)
      modifies this
      ensures Draft() == RideDraft("", "", today, "10:00", "13:00", 2, "") && arrivalIsManual
      ensures loading == old(loading) && driverId == old(driverId)
    {
      date := today;
      departureTime := "10:00";
      arrivalTime := "13:00";
      fromCity := "";
      toCity := "";
      seats := 2;
      price := "";
      arrivalIsManual := true;
    }

    /** The departure input's onChange and the effect that re-derives
        the arrival whenever the departure changes */
    method SetDepartureTime(t: string)
      requires Valid()
      modifies this
      ensures Valid()
      ensures departureTime == t
      ensures t != old(departureTime) ==> arrivalTime == CalculateArrivalTime(Some(t)) && !arrivalIsManual
      ensures t == old(departureTime) ==> arrivalTime == old(arrivalTime)
      ensures (date, fromCity, toCity, seats, price, driverId) == old((date, fromCity, toCity, seats, price, driverId))
    {
      if t != departureTime {
        var arrival := CalculateArrivalTime(Some(t));
        departureTime, arrivalTime := t, arrival;
        arrivalIsManual := false;
      }
    }

    /** The arrival input's onChange: a manual value that stands until the
        departure next changes */
    method SetArrivalTime(t: string)
      requires Valid()
      modifies this
      ensures Valid() && arrivalIsManual
      ensures Draft() == old(Draft()).(arrivalTime := t) && driverId == old(driverId)
    {
      arrivalTime := t;
      arrivalIsManual := true;
    }

    method SetFromCity(s: string)
      requires Valid()
      modifies this
      ensures Valid() && arrivalIsManual == old(arrivalIsManual)
      ensures Draft() == old(Draft()).(source := s) && driverId == old(driverId)
    {
      fromCity := s;
    }

    method SetToCity(s: string)
      requires Valid()
      modifies this
      ensures Valid() && arrivalIsManual == old(arrivalIsManual)
      ensures Draft() == old(Draft()).(destination := s) && driverId == old(driverId)
    {
      toCity := s;
    }

    /** The calendar's onSelect: an empty selection is ignored */
    method SelectDate(day: Option<int>)
      requires Valid()
      modifies this
      ensures Valid() && arrivalIsManual == old(arrivalIsManual)
      ensures Draft() == old(Draft()).(date := if day.Some? then day.value else old(date))
      ensures driverId == old(driverId)
    {
      if day.Some? {
        date := day.value;
      }
    }

    /** `handleSwapLocations` */
    method SwapLocations()
      requires Valid()
      modifies this
      ensures Valid() && arrivalIsManual == old(arrivalIsManual)
      ensures Draft() == old(Draft()).(source := old(toCity), destination := old(fromCity))
      ensures driverId == old(driverId)
    {
      var temp := fromCity;
      fromCity := toCity;
      toCity := temp;
    }

    /** `handlePriceChange` */
    method HandlePriceChange(input: string)
      requires Valid()
      modifies this
      ensures Valid() && arrivalIsManual == old(arrivalIsManual)
      ensures Draft() == old(Draft()).(price := PriceAfterInput(old(price), input))
      ensures driverId == old(driverId)
    {
      price := PriceAfterInput(price, input);
    }

    /** The seat input's onChange */
    method HandleSeatsChange(text: string)
      requires Valid()
      modifies this
      ensures Valid() && arrivalIsManual == old(arrivalIsManual)
      ensures Draft() == old(Draft()).(seats := SeatsFromInput(text))
      ensures driverId == old(driverId)
    {
      seats := SeatsFromInput(text);
    }

    /** Whether the Publish button is enabled */
    function CanSubmit(): (ok: bool)
      reads this
      ensures ok ==> !loading && Draft().source != "" && Draft().destination != "" && Draft().price != ""
    {
      !loading && fromCity != "" && toCity != "" && price != ""
    }

    /** With the Publish button enabled, a publish can be rejected only for
        the places, the route or the date: the field filters keep the price
        and the seats valid. */
    lemma EnabledFormPassesPriceAndSeats(today: int)
      requires Valid() && CanSubmit()
      ensures Passes(Draft(), today, InvalidPrice) && Passes(Draft(), today, SeatsOutOfRange)
      ensures ValidatePublish(Draft(), today, driverId).Failure? ==>
        ValidatePublish(Draft(), today, driverId).error in {MissingSource, MissingDestination, SameRoute, PastDate}
    {
      EnabledDraftPassesPriceAndSeats(Draft(), today, driverId);
    }

    /** `handlePublish` on day `today`; `createOk` is the outcome of the
        ride-creation request. A rejected draft is left as it was; a
        published one resets the form; a failed request keeps it. */
    method Publish(today: int, createOk: bool) returns (outcome: PublishOutcome)
      requires Valid()
      modifies this
      ensures Valid()
      ensures var v := ValidatePublish(old(Draft()), today, old(driverId));
        && (v.Failure? ==> outcome == Rejected(v.error, Message(v.error)))
        && (v.Success? && createOk ==> outcome == Published(v.value))
        && (v.Success? && !createOk ==> outcome == PublishFailed(v.value))
      ensures outcome.Published? ==>
        Draft() == RideDraft("", "", today, "10:00", "13:00", 2, "")
      ensures !outcome.Published? ==>
        Draft() == old(Draft()) && arrivalIsManual == old(arrivalIsManual)
      ensures driverId == old(driverId)
    {
      var v := ValidatePublish(Draft(), today, driverId);
      outcome := Submit(v, today, createOk);
    }

    /** The part of `handlePublish` after the checks: `checked` is their
        result. */
    method Submit(checked: Result<RidePayload, RideError>, today: int, createOk: bool)
      returns (outcome: PublishOutcome)
      requires Valid()
      modifies this
      ensures Valid()
      ensures checked.Failure? ==> outcome == Rejected(checked.error, Message(checked.error))
      ensures checked.Success? && createOk ==> outcome == Published(checked.value)
      ensures checked.Success? && !createOk ==> outcome == PublishFailed(checked.value)
      ensures outcome.Published? ==>
        Draft() == RideDraft("", "", today, "10:00", "13:00", 2, "")
      ensures !outcome.Published? ==>
        Draft() == old(Draft()) && arrivalIsManual == old(arrivalIsManual)
      ensures driverId == old(driverId)
    {
      if checked.Failure? {
        return Rejected(checked.error, Message(checked.error));
      }
      loading := true;
      if createOk {
        ResetFields(today);
        outcome := Published(checked.value);
      } else {
        outcome := PublishFailed(checked.value);
      }
      loading := false;
    }
  }

  /** Once the Publish button is enabled, the price and seat checks cannot
      fail: the field filters already keep them in range, so only the
      route and the date can reject the draft. */
  lemma EnabledDraftPassesPriceAndSeats(d: RideDraft, today: int, driverId: int)
    requires PriceOk(d.price) && d.price != "" && 1 <= d.seats <= 8
    ensures Passes(d, today, InvalidPrice) && Passes(d, today, SeatsOutOfRange)
    ensures ValidatePublish(d, today, driverId).Failure? ==>
      ValidatePublish(d, today, driverId).error in {MissingSource, MissingDestination, SameRoute, PastDate}
  {
    assert Passes(d, today, InvalidPrice);
    var r := ValidatePublish(d, today, driverId);
    if r.Failure? {
      assert r.error != InvalidPrice && r.error != SeatsOutOfRange;
    }
  }
}
