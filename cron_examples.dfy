/** The cases of `test/test_schedule.py`, proved about the model. 2019-01-01 is a
    Tuesday, 2019-01-02 a Wednesday and 2019-12-24 a Tuesday (Python weekdays 1, 2, 1). */
module CronExamples {
  import opened Wrappers
  import opened Text
  import opened Cron
  import opened CronProperties

  lemma Join3(a: string, b: string, c: string, sep: char)
    ensures Join([a, b, c], sep) == a + [sep] + b + [sep] + c
  {
    JoinCons(a, [b, c], sep);
    JoinCons(b, [c], sep);
    assert [a, b, c] == [a] + [b, c];
    assert [b, c] == [b] + [c];
  }

  lemma Join5(a: string, b: string, c: string, d: string, e: string, sep: char)
    ensures Join([a, b, c, d, e], sep) == a + [sep] + b + [sep] + c + [sep] + d + [sep] + e
  {
    JoinCons(a, [b, c, d, e], sep);
    JoinCons(b, [c, d, e], sep);
    Join3(c, d, e, sep);
    assert [a, b, c, d, e] == [a] + [b, c, d, e];
    assert [b, c, d, e] == [b] + [c, d, e];
  }

  const TestBounds := Bounds(0, 100)

  // The printed form of a schedule is its five field texts joined by single spaces.
  lemma RenderScheduleText(s: Schedule, a: string, b: string, c: string, d: string, e: string)
    requires RenderField(s.minute) == a && RenderField(s.hour) == b && RenderField(s.dayOfMonth) == c
    requires RenderField(s.month) == d && RenderField(s.dayOfWeek) == e
    ensures RenderSchedule(s) == a + " " + b + " " + c + " " + d + " " + e
  {
    Join5(a, b, c, d, e, ' ');
  }

  lemma DigitText(n: nat)
    requires n < 10
    ensures RenderField(Number(n)) == [DigitChar(n)]
  {
  }

  lemma DigitTexts()
    ensures RenderField(Number(0)) == "0" && RenderField(Number(1)) == "1"
    ensures RenderField(Number(2)) == "2" && RenderField(Number(3)) == "3"
    ensures RenderField(Number(4)) == "4"
    ensures RenderField(EveryNth(1)) == "*"
  {
    DigitText(0); DigitText(1); DigitText(2); DigitText(3); DigitText(4);
  }

  lemma StarText()
    ensures RenderField(EveryNth(1)) == "*"
  {
  }

  lemma EveryText()
    ensures RenderSchedule(Every) == "* * * * *"
  {
    StarText();
    RenderScheduleText(Every, "*", "*", "*", "*", "*");
    assert "*" + " " + "*" == "* *";
    assert "* *" + " " + "*" == "* * *";
    assert "* * *" + " " + "*" == "* * * *";
    assert "* * * *" + " " + "*" == "* * * * *";
  }

  lemma HourlyText()
    ensures RenderSchedule(Hourly) == "0 * * * *"
  {
    DigitTexts();
    RenderScheduleText(Hourly, "0", "*", "*", "*", "*");
    assert "0" + " " + "*" == "0 *";
    assert "0 *" + " " + "*" == "0 * *";
    assert "0 * *" + " " + "*" == "0 * * *";
    assert "0 * * *" + " " + "*" == "0 * * * *";
  }

  lemma NewYearText()
    ensures RenderSchedule(NewYear) == "0 0 1 1 *"
  {
    DigitTexts();
    RenderScheduleText(NewYear, "0", "0", "1", "1", "*");
    assert "0" + " " + "0" == "0 0";
    assert "0 0" + " " + "1" == "0 0 1";
    assert "0 0 1" + " " + "1" == "0 0 1 1";
    assert "0 0 1 1" + " " + "*" == "0 0 1 1 *";
  }

  lemma HourRangeFieldText()
    ensures RenderField(Range(9, 14)) == "9-14"
  {
    assert Decimal(9) == "9" && Decimal(14) == "14";
  }

  lemma HourRangeText()
    ensures RenderSchedule(HourRange) == "* 9-14 * * *"
  {
    StarText();
    HourRangeFieldText();
    RenderScheduleText(HourRange, "*", "9-14", "*", "*", "*");
    assert "*" + " " + "9-14" == "* 9-14";
    assert "* 9-14" + " " + "*" == "* 9-14 *";
    assert "* 9-14 *" + " " + "*" == "* 9-14 * *";
    assert "* 9-14 * *" + " " + "*" == "* 9-14 * * *";
  }

  lemma HoursText()
    ensures RenderField(Multiple(Hours)) == "1,2,3"
  {
    DigitText(1); DigitText(2); DigitText(3);
    var parts := RenderParts(Hours);
    assert parts[0] == "1" && parts[1] == "2" && parts[2] == "3";
    assert parts == ["1", "2", "3"];
    Join3("1", "2", "3", ',');
  }

  lemma HourListText()
    ensures RenderSchedule(HourList) == "* 1,2,3 * * *"
  {
    StarText();
    HoursText();
    RenderScheduleText(HourList, "*", "1,2,3", "*", "*", "*");
    assert "*" + " " + "1,2,3" == "* 1,2,3";
    assert "* 1,2,3" + " " + "*" == "* 1,2,3 *";
    assert "* 1,2,3 *" + " " + "*" == "* 1,2,3 * *";
    assert "* 1,2,3 * *" + " " + "*" == "* 1,2,3 * * *";
  }

  lemma StepFieldText()
    ensures RenderField(EveryNth(3)) == "*/3"
  {
    DigitText(3);
  }

  lemma NumberParseExample()
    ensures ParseAs(NumberValue, "10", TestBounds) == Accepted(Number(10))
  {
    assert Decimal(10) == "10";
    ParseAsRenderPart(NumberValue, Number(10), TestBounds);
  }

  lemma EveryNthParseExample()
    ensures ParseAs(EveryNthValue, "*/10", TestBounds) == Accepted(EveryNth(10))
  {
    assert Decimal(10) == "10";
    assert RenderPart(EveryNth(10)) == "*/10";
    ParseAsRenderPart(EveryNthValue, EveryNth(10), TestBounds);
  }

  lemma RangeParseExample()
    ensures ParseAs(RangeValue, "10-20", TestBounds) == Accepted(Range(10, 20))
  {
    assert Decimal(10) == "10" && Decimal(20) == "20";
    assert RenderPart(Range(10, 20)) == "10-20";
    ParseAsRenderPart(RangeValue, Range(10, 20), TestBounds);
  }

  lemma EveryNthMatchExample()
    ensures forall x :: 0 <= x <= 100 ==>
      (Matches(EveryNth(10), x) <==> x in {0, 10, 20, 30, 40, 50, 60, 70, 80, 90, 100})
  {
    forall x | 0 <= x <= 100
      ensures Matches(EveryNth(10), x) <==> x in {0, 10, 20, 30, 40, 50, 60, 70, 80, 90, 100}
    {
      var q := x / 10;
      assert x == 10 * q + x % 10 && 0 <= q <= 10;
    }
  }

  /** Each value type on its own, as `test_schedule_value` checks them over 0..100. */
  lemma ValueTypeExamples()
    ensures ParseAs(NumberValue, "10", TestBounds) == Accepted(Number(10))
    ensures ParseAs(EveryNthValue, "*/10", TestBounds) == Accepted(EveryNth(10))
    ensures ParseAs(EveryTimeValue, "*", TestBounds) == Accepted(EveryNth(1))
    ensures ParseAs(RangeValue, "10-20", TestBounds) == Accepted(Range(10, 20))
    ensures forall x :: 0 <= x <= 100 ==> (Matches(Number(10), x) <==> x == 10)
    ensures forall x :: 0 <= x <= 100 ==>
      (Matches(EveryNth(10), x) <==> x in {0, 10, 20, 30, 40, 50, 60, 70, 80, 90, 100})
    ensures forall x :: 0 <= x <= 100 ==> Matches(EveryNth(1), x)
    ensures forall x :: 0 <= x <= 100 ==> (Matches(Range(10, 20), x) <==> 10 <= x <= 20)
  {
    NumberParseExample();
    EveryNthParseExample();
    RangeParseExample();
    EveryNthMatchExample();
  }

  const ListParts := [Number(1), Number(2), Number(3), Range(5, 7), EveryNth(20), Number(10)]

  lemma ListPartsText()
    ensures RenderParts(ListParts) == ["1", "2", "3", "5-7", "*/20", "10"]
  {
    assert Decimal(1) == "1" && Decimal(2) == "2" && Decimal(3) == "3";
    assert Decimal(5) == "5" && Decimal(7) == "7" && Decimal(20) == "20" && Decimal(10) == "10";
    var p := RenderParts(ListParts);
    assert p[0] == "1" && p[1] == "2" && p[2] == "3" && p[3] == "5-7" && p[4] == "*/20" && p[5] == "10";
  }

  lemma Join6(a: string, b: string, c: string, d: string, e: string, f: string, sep: char)
    ensures Join([a, b, c, d, e, f], sep) == a + [sep] + b + [sep] + c + [sep] + d + [sep] + e + [sep] + f
  {
    JoinCons(a, [b, c, d, e, f], sep);
    Join5(b, c, d, e, f, sep);
    assert [a, b, c, d, e, f] == [a] + [b, c, d, e, f];
  }

  lemma ListText()
    ensures Join(RenderParts(ListParts), ',') == "1,2,3,5-7,*/20,10"
  {
    ListPartsText();
    Join6("1", "2", "3", "5-7", "*/20", "10", ',');
  }

  // "1,2,3,5-7,*/20,10" read as a list is the list of its six parts.
  lemma ListExample()
    ensures ParseAs(MultipleValue, "1,2,3,5-7,*/20,10", TestBounds) == Accepted(Multiple(ListParts))
  {
    ListText();
    ParseAsListRender(ListParts, TestBounds);
  }

  lemma ListMatchesParts(x: int)
    ensures Matches(Multiple(ListParts), x) <==> x == 1 || x == 2 || x == 3 || 5 <= x <= 7 || x % 20 == 0 || x == 10
  {
    var vs := ListParts;
    ListMatchesAnyPart(vs, x);
    if x == 1 || x == 2 || x == 3 { assert Matches(vs[x - 1], x); }
    else if 5 <= x <= 7 { assert Matches(vs[3], x); }
    else if x % 20 == 0 { assert Matches(vs[4], x); }
    else if x == 10 { assert Matches(vs[5], x); }
  }

  /** Over 0..100 the list matches exactly the values the test lists. */
  lemma ListMatchExample()
    ensures forall x :: 0 <= x <= 100 ==>
      (Matches(Multiple(ListParts), x) <==> x in {0, 1, 2, 3, 5, 6, 7, 10, 20, 40, 60, 80, 100})
  {
    forall x | 0 <= x <= 100
      ensures Matches(Multiple(ListParts), x) <==> x in {0, 1, 2, 3, 5, 6, 7, 10, 20, 40, 60, 80, 100}
    {
      ListMatchesParts(x);
      var q := x / 20;
      assert x == 20 * q + x % 20 && 0 <= q <= 5;
    }
  }

  // Splitting texts made of whitespace-free tokens and single spaces.
  lemma SplitOne(a: string)
    requires a != "" && NoWhitespace(a)
    ensures SplitWhitespace(a) == [a] && !IsWhitespace(a[0])
  {
    SplitWhitespaceNone(a);
  }

  lemma SplitCons(a: string, t: string, rest: seq<string>)
    requires NoWhitespace(a) && t != [] && !IsWhitespace(t[0]) && SplitWhitespace(t) == rest
    ensures SplitWhitespace(a + [' '] + t) == [a] + rest
  {
    SplitWhitespaceSpace(a, t);
  }

  lemma SplitTwo(a: string, b: string)
    requires a != "" && b != "" && NoWhitespace(a) && NoWhitespace(b)
    ensures SplitWhitespace(a + [' '] + b) == [a, b]
  {
    SplitOne(b);
    SplitCons(a, b, [b]);
  }

  lemma SplitThree(a: string, b: string, c: string)
    requires a != "" && b != "" && c != ""
    requires NoWhitespace(a) && NoWhitespace(b) && NoWhitespace(c)
    ensures SplitWhitespace(a + [' '] + (b + [' '] + c)) == [a, b, c]
  {
    SplitTwo(b, c);
    var t := b + [' '] + c;
    assert t[0] == b[0];
    SplitCons(a, t, [b, c]);
  }

  lemma SplitFour(a: string, b: string, c: string, d: string)
    requires a != "" && b != "" && c != "" && d != ""
    requires NoWhitespace(a) && NoWhitespace(b) && NoWhitespace(c) && NoWhitespace(d)
    ensures SplitWhitespace(a + [' '] + (b + [' '] + (c + [' '] + d))) == [a, b, c, d]
  {
    SplitThree(b, c, d);
    var t := b + [' '] + (c + [' '] + d);
    assert t[0] == b[0];
    SplitCons(a, t, [b, c, d]);
  }

  lemma SplitFive(a: string, b: string, c: string, d: string, e: string)
    requires a != "" && b != "" && c != "" && d != "" && e != ""
    requires NoWhitespace(a) && NoWhitespace(b) && NoWhitespace(c) && NoWhitespace(d) && NoWhitespace(e)
    ensures SplitWhitespace(a + [' '] + (b + [' '] + (c + [' '] + (d + [' '] + e)))) == [a, b, c, d, e]
  {
    SplitFour(b, c, d, e);
    var t := b + [' '] + (c + [' '] + (d + [' '] + e));
    assert t[0] == b[0];
    SplitCons(a, t, [b, c, d, e]);
  }

  lemma HelloThereTokens()
    ensures SplitWhitespace("hello there") == ["hello", "there"]
  {
    var hello, there := "hello", "there";
    assert NoWhitespace(hello) && NoWhitespace(there);
    assert hello + [' '] + there == "hello there";
    SplitTwo(hello, there);
  }

  lemma FourStarsTokens()
    ensures |SplitWhitespace("* * * *")| == 4
  {
    var star := "*";
    assert NoWhitespace(star);
    assert star + [' '] + (star + [' '] + (star + [' '] + star)) == "* * * *";
    SplitFour(star, star, star, star);
  }

  /** `test_schedule_time_format`: anything but five fields is refused. */
  lemma TimeFormatExamples()
    ensures ParseSchedule("hello there") == Err(InvalidFormat)
    ensures ParseSchedule("* * * *") == Err(InvalidFormat)
  {
    HelloThereTokens();
    FourStarsTokens();
  }

  lemma NegativeTokens()
    ensures SplitWhitespace("-1 -1 0 0 0") == ["-1", "-1", "0", "0", "0"]
  {
    var m, z := "-1", "0";
    assert NoWhitespace(m) && NoWhitespace(z);
    assert m + [' '] + (m + [' '] + (z + [' '] + (z + [' '] + z))) == "-1 -1 0 0 0";
    SplitFive(m, m, z, z, z);
  }

  // `-1` is no number, no step, no wildcard and no range, and as a one-part list its
  // part has no accepted shape.
  lemma MinusOneInvalid()
    ensures Make("-1", MinuteBounds, AvailableValueTypes) == Err(InvalidValue)
  {
    var m := "-1";
    assert m[0] == '-' && |m| == 2 && IndexOf(m, '-') == 0 && !IsDigits(m[..0]);
    assert ',' !in m;
    SplitAtNoSeparator(m, ',');
    AllDecliningIsInvalidValue(m, MinuteBounds, InnerValueTypes);
    assert ParseAs(MultipleValue, m, MinuteBounds) == Raised(InvalidValue);
    FirstNonDecliningTypeDecides(m, MinuteBounds, AvailableValueTypes, 4);
  }

  /** `test_schedule_range`: a negative number has no accepted shape. */
  lemma NegativeExample()
    ensures ParseSchedule("-1 -1 0 0 0") == Err(InvalidValue)
  {
    NegativeTokens();
    MinusOneInvalid();
  }

  lemma OutOfRangeText()
    ensures JoinSpace(["60", "24", "32", "13", "8"]) == "60 24 32 13 8"
  {
    Join5("60", "24", "32", "13", "8", ' ');
  }

  lemma OutOfRangeTokens()
    ensures SplitWhitespace("60 24 32 13 8") == ["60", "24", "32", "13", "8"]
  {
    var a, b, c, d, e := Decimal(60), Decimal(24), Decimal(32), Decimal(13), Decimal(8);
    assert a == "60" && b == "24" && c == "32" && d == "13" && e == "8";
    DigitsSafe(a); DigitsSafe(b); DigitsSafe(c); DigitsSafe(d); DigitsSafe(e);
    OutOfRangeText();
    SplitWhitespaceJoin([a, b, c, d, e]);
  }

  /** `test_schedule_range`: literals just above each field's bounds are out of range. */
  lemma OutOfRangeExample()
    ensures ParseSchedule("60 24 32 13 8") == Err(OutOfRange)
  {
    var sixty := Decimal(60);
    assert sixty == "60";
    DigitsValueOfDecimal(60);
    OutOfRangeLiteralRaises(sixty, MinuteBounds);
    OutOfRangeTokens();
  }

  const Every := Schedule(EveryNth(1), EveryNth(1), EveryNth(1), EveryNth(1), EveryNth(1))
  const Hourly := Schedule(Number(0), EveryNth(1), EveryNth(1), EveryNth(1), EveryNth(1))
  const NewYear := Schedule(Number(0), Number(0), Number(1), Number(1), EveryNth(1))

  /** `test_schedule`: the wildcard schedule runs at any time. */
  lemma WildcardExample()
    ensures ParseSchedule("* * * * *") == Ok(Every)
    ensures forall when: DateTime :: ShouldRun(Every, when) == Answer(true)
  {
    EveryText();
    ParseRenderSchedule(Every);
  }

  /** `test_schedule`: a fixed minute does not run at another minute. */
  lemma FixedMinuteExample()
    ensures ParseSchedule("0 * * * *") == Ok(Hourly)
    ensures ShouldRun(Hourly, DateTime(53, 11, 24, 12, 1)) == Answer(false)
  {
    HourlyText();
    ParseRenderSchedule(Hourly);
  }

  /** `test_schedule`: midnight on the first of January. */
  lemma NewYearExample()
    ensures ParseSchedule("0 0 1 1 *") == Ok(NewYear)
    ensures ShouldRun(NewYear, DateTime(0, 0, 1, 1, 1)) == Answer(true)
  {
    NewYearText();
    ParseRenderSchedule(NewYear);
  }

  const FixedTime := Schedule(Number(4), Number(3), Number(2), Number(1), EveryNth(1))

  lemma FixedTimeText()
    ensures RenderSchedule(FixedTime) == "4 3 2 1 *"
  {
    DigitTexts();
    RenderScheduleText(FixedTime, "4", "3", "2", "1", "*");
    assert "4" + " " + "3" == "4 3";
    assert "4 3" + " " + "2" == "4 3 2";
    assert "4 3 2" + " " + "1" == "4 3 2 1";
    assert "4 3 2 1" + " " + "*" == "4 3 2 1 *";
  }

  /** `test_schedule`: a fixed minute, hour, day and month on a Wednesday. */
  lemma FixedTimeExample()
    ensures ParseSchedule("4 3 2 1 *") == Ok(FixedTime)
    ensures ShouldRun(FixedTime, DateTime(4, 3, 2, 1, 2)) == Answer(true)
  {
    FixedTimeText();
    ParseRenderSchedule(FixedTime);
  }

  const StepSchedule := Schedule(Number(4), EveryNth(3), Number(2), Number(1), EveryNth(1))

  lemma StepScheduleText()
    ensures RenderSchedule(StepSchedule) == "4 */3 2 1 *"
  {
    DigitTexts();
    StepFieldText();
    RenderScheduleText(StepSchedule, "4", "*/3", "2", "1", "*");
    assert "4" + " " + "*/3" == "4 */3";
    assert "4 */3" + " " + "2" == "4 */3 2";
    assert "4 */3 2" + " " + "1" == "4 */3 2 1";
    assert "4 */3 2 1" + " " + "*" == "4 */3 2 1 *";
  }

  // "4 */3 2 1 *" on 2019-01-02 runs at 03:04, 06:04 and 09:04, not at 04:04.
  lemma StepExample()
    ensures ParseSchedule("4 */3 2 1 *") == Ok(StepSchedule)
    ensures ShouldRun(StepSchedule, DateTime(4, 3, 2, 1, 2)) == Answer(true)
    ensures ShouldRun(StepSchedule, DateTime(4, 6, 2, 1, 2)) == Answer(true)
    ensures ShouldRun(StepSchedule, DateTime(4, 9, 2, 1, 2)) == Answer(true)
    ensures ShouldRun(StepSchedule, DateTime(4, 4, 2, 1, 2)) == Answer(false)
  {
    StepScheduleText();
    ParseRenderSchedule(StepSchedule);
  }

  const HourRange := Schedule(EveryNth(1), Range(9, 14), EveryNth(1), EveryNth(1), EveryNth(1))

  /** An hour range includes both of its ends. */
  lemma HourRangeExample()
    ensures ParseSchedule("* 9-14 * * *") == Ok(HourRange)
    ensures forall h: nat :: h <= 23 ==> (ShouldRun(HourRange, DateTime(0, h, 1, 1, 1)) == Answer(9 <= h <= 14))
  {
    HourRangeText();
    ParseRenderSchedule(HourRange);
  }

  const Hours := [Number(1), Number(2), Number(3)]
  const HourList := Schedule(EveryNth(1), Multiple(Hours), EveryNth(1), EveryNth(1), EveryNth(1))

  /** An hour list is read as the list of its parts. */
  lemma HourListExample()
    ensures ParseSchedule("* 1,2,3 * * *") == Ok(HourList)
  {
    HourListText();
    ParseRenderSchedule(HourList);
  }

  /** An hour list runs at exactly its parts. */
  lemma HourListMatchExample()
    ensures forall h: nat :: h <= 23 ==> (ShouldRun(HourList, DateTime(0, h, 1, 1, 1)) == Answer(1 <= h <= 3))
  {
    forall h: nat | h <= 23
      ensures ShouldRun(HourList, DateTime(0, h, 1, 1, 1)) == Answer(1 <= h <= 3)
    {
      ShouldRunIffAllFieldsMatch(HourList, DateTime(0, h, 1, 1, 1));
      ListMatchesAnyPart(Hours, h);
      if 1 <= h <= 3 { assert Matches(Hours[h - 1], h); }
    }
  }

  // A `*/0` that evaluation never reaches does not raise: a list stops at its first
  // part that matches, and `should_run` stops at its first field that does not.
  const ZeroStepInList := Schedule(Multiple([EveryNth(1), EveryNth(0)]), EveryNth(1), EveryNth(1), EveryNth(1), EveryNth(1))
  const ZeroStepAfterEmptyRange := Schedule(Range(5, 3), EveryNth(0), EveryNth(1), EveryNth(1), EveryNth(1))
  const ZeroStepHours := Schedule(Number(0), EveryNth(0), EveryNth(1), EveryNth(1), EveryNth(1))

  lemma ZeroStepFieldTexts()
    ensures RenderField(EveryNth(0)) == "*/0"
    ensures RenderField(Multiple([EveryNth(1), EveryNth(0)])) == "*/1,*/0"
    ensures RenderField(Range(5, 3)) == "5-3"
  {
    assert Decimal(0) == "0" && Decimal(1) == "1" && Decimal(3) == "3" && Decimal(5) == "5";
    var parts := RenderParts([EveryNth(1), EveryNth(0)]);
    assert parts[0] == "*/1" && parts[1] == "*/0";
    assert parts == ["*/1", "*/0"];
  }

  lemma ZeroStepInListText()
    ensures RenderSchedule(ZeroStepInList) == "*/1,*/0 * * * *"
  {
    StarText();
    ZeroStepFieldTexts();
    RenderScheduleText(ZeroStepInList, "*/1,*/0", "*", "*", "*", "*");
    assert "*/1,*/0" + " " + "*" == "*/1,*/0 *";
    assert "*/1,*/0 *" + " " + "*" == "*/1,*/0 * *";
    assert "*/1,*/0 * *" + " " + "*" == "*/1,*/0 * * *";
    assert "*/1,*/0 * * *" + " " + "*" == "*/1,*/0 * * * *";
  }

  lemma ZeroStepAfterEmptyRangeText()
    ensures RenderSchedule(ZeroStepAfterEmptyRange) == "5-3 */0 * * *"
  {
    StarText();
    ZeroStepFieldTexts();
    RenderScheduleText(ZeroStepAfterEmptyRange, "5-3", "*/0", "*", "*", "*");
    assert "5-3" + " " + "*/0" == "5-3 */0";
    assert "5-3 */0" + " " + "*" == "5-3 */0 *";
    assert "5-3 */0 *" + " " + "*" == "5-3 */0 * *";
    assert "5-3 */0 * *" + " " + "*" == "5-3 */0 * * *";
  }

  lemma ZeroStepHoursText()
    ensures RenderSchedule(ZeroStepHours) == "0 */0 * * *"
  {
    DigitTexts();
    ZeroStepFieldTexts();
    RenderScheduleText(ZeroStepHours, "0", "*/0", "*", "*", "*");
    assert "0" + " " + "*/0" == "0 */0";
    assert "0 */0" + " " + "*" == "0 */0 *";
    assert "0 */0 *" + " " + "*" == "0 */0 * *";
    assert "0 */0 * *" + " " + "*" == "0 */0 * * *";
  }

  lemma ZeroStepInListParse()
    ensures ParseSchedule("*/1,*/0 * * * *") == Ok(ZeroStepInList)
  {
    ZeroStepInListText();
    ParseRenderSchedule(ZeroStepInList);
  }

  lemma ZeroStepAfterEmptyRangeParse()
    ensures ParseSchedule("5-3 */0 * * *") == Ok(ZeroStepAfterEmptyRange)
  {
    ZeroStepAfterEmptyRangeText();
    ParseRenderSchedule(ZeroStepAfterEmptyRange);
  }

  lemma ZeroStepHoursParse()
    ensures ParseSchedule("0 */0 * * *") == Ok(ZeroStepHours)
  {
    ZeroStepHoursText();
    ParseRenderSchedule(ZeroStepHours);
  }

  // The three time strings parse: `*/0` passes the minute and hour bounds.
  lemma ZeroStepParseExamples()
    ensures ParseSchedule("*/1,*/0 * * * *") == Ok(ZeroStepInList)
    ensures ParseSchedule("5-3 */0 * * *") == Ok(ZeroStepAfterEmptyRange)
    ensures ParseSchedule("0 */0 * * *") == Ok(ZeroStepHours)
  {
    ZeroStepInListParse();
    ZeroStepAfterEmptyRangeParse();
    ZeroStepHoursParse();
  }

  // Evaluated in Python's order, the list `*/1,*/0` matches every minute, `5-3` ahead
  // of `*/0` never matches, and `0 */0 * * *` is false at 11:53 but raises at minute 0.
  lemma ZeroStepMatchExamples()
    ensures forall when: DateTime :: ShouldRun(ZeroStepInList, when) == Answer(true)
    ensures forall when: DateTime :: ShouldRun(ZeroStepAfterEmptyRange, when) == Answer(false)
    ensures ShouldRun(ZeroStepHours, DateTime(53, 11, 24, 12, 1)) == Answer(false)
    ensures forall when: DateTime :: when.minute == 0 ==> ShouldRun(ZeroStepHours, when) == DivisionByZero
  {
  }
}
