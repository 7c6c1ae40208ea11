/** What the schedule parser and matcher of `pipeliner/schedule.py` guarantee: the order
    the value types are tried in, the bounds check without fallback, the shape of what a
    parse produces, a printer that the parser inverts, and the meaning of a match. */
module CronProperties {
  import opened Wrappers
  import opened Text
  import opened Cron

  function AsResult(p: Parsed): Result<FieldValue, ScheduleError>
    requires !p.Declined?
  {
    if p.Accepted? then Ok(p.value) else Err(p.error)
  }

  /** The first value type that does not decline a token decides it: its value, or the
      error it raised. */
  lemma {:induction false} FirstNonDecliningTypeDecides(token: string, b: Bounds, types: seq<ValueType>, k: nat)
    requires k < |types|
    requires forall j :: 0 <= j < k ==> ParseAs(types[j], token, b) == Declined
    requires ParseAs(types[k], token, b) != Declined
    ensures Make(token, b, types) == AsResult(ParseAs(types[k], token, b))
  {
    if k > 0 {
      FirstNonDecliningTypeDecides(token, b, types[1..], k - 1);
    }
  }

  /** A token every value type declines is an invalid value. */
  lemma {:induction false} AllDecliningIsInvalidValue(token: string, b: Bounds, types: seq<ValueType>)
    requires forall j :: 0 <= j < |types| ==> ParseAs(types[j], token, b) == Declined
    ensures Make(token, b, types) == Err(InvalidValue)
  {
    if types != [] {
      AllDecliningIsInvalidValue(token, b, types[1..]);
    }
  }

  /** The comma list never declines, so for a whole field no token is left to the
      "invalid value" fallback: a token no other shape takes is refused by its parts.
      Tokens come from the whitespace split and hold no line break, so the regex's
      one refusal does not arise. */
  lemma ListNeverDeclines(token: string, b: Bounds)
    ensures ParseAs(MultipleValue, token, b) != Declined
  {
  }

  lemma DigitsFacts(t: string)
    requires IsDigits(t)
    ensures IsDigit(t[0]) && '-' !in t && ',' !in t && t != "*"
  {
    assert forall c :: c in t ==> IsDigit(c);
  }

  lemma RangeTokenFacts(t: string)
    requires IsRangeToken(t)
    ensures IsDigit(t[0]) && ',' !in t && !IsDigits(t)
  {
    var i := IndexOf(t, '-');
    assert t[..i][0] == t[0];
    assert t == t[..i] + [t[i]] + t[i + 1..];
    assert forall c :: c in t[..i] ==> IsDigit(c);
    assert forall c :: c in t[i + 1..] ==> IsDigit(c);
  }

  lemma EveryNthTokenFacts(t: string)
    requires IsEveryNthToken(t)
    ensures ',' !in t && '-' !in t && t != "*"
  {
    assert t == t[..2] + t[2..];
    assert forall c :: c in t[2..] ==> IsDigit(c);
  }

  // Apart from the list, the shapes never compete for a token: at most one of `n`,
  // `*/n`, `*` and `a-b` does not decline it, so their relative order cannot change a
  // result.
  lemma SimpleShapesExclusive(token: string, b: Bounds, s: ValueType, t: ValueType)
    requires s != MultipleValue && t != MultipleValue && s != t
    requires ParseAs(s, token, b) != Declined
    ensures ParseAs(t, token, b) == Declined
  {
    if IsDigits(token) { DigitsFacts(token); }
    if IsRangeToken(token) { RangeTokenFacts(token); }
    if IsEveryNthToken(token) { EveryNthTokenFacts(token); }
  }

  /** A token holding a comma is left to the list. */
  lemma CommaTokenIsList(token: string, b: Bounds, vt: ValueType)
    requires ',' in token && vt != MultipleValue
    ensures ParseAs(vt, token, b) == Declined
  {
    if IsDigits(token) { DigitsFacts(token); }
    if IsRangeToken(token) { RangeTokenFacts(token); }
    if IsEveryNthToken(token) { EveryNthTokenFacts(token); }
  }

  /** A literal outside the field's bounds raises at once, whichever of the three shapes
      holding literals the token has; no later shape is tried. */
  lemma OutOfRangeLiteralRaises(token: string, b: Bounds)
    requires || (IsDigits(token) && !InRange(DigitsValue(token), b))
             || (IsEveryNthToken(token) && !InRange(DigitsValue(token[2..]), b))
             || (IsRangeToken(token)
                 && !(InRange(DigitsValue(token[..IndexOf(token, '-')]), b)
                      && InRange(DigitsValue(token[IndexOf(token, '-') + 1..]), b)))
    ensures Make(token, b, AvailableValueTypes) == Err(OutOfRange)
    ensures Make(token, b, InnerValueTypes) == Err(OutOfRange)
  {
    var all, inner := AvailableValueTypes, InnerValueTypes;
    if IsDigits(token) {
      DigitsFacts(token);
      FirstNonDecliningTypeDecides(token, b, all, 0);
      FirstNonDecliningTypeDecides(token, b, inner, 0);
    } else if IsEveryNthToken(token) {
      EveryNthTokenFacts(token);
      FirstNonDecliningTypeDecides(token, b, all, 1);
      FirstNonDecliningTypeDecides(token, b, inner, 1);
    } else {
      RangeTokenFacts(token);
      assert ParseAs(EveryNthValue, token, b) == Declined;
      assert ParseAs(EveryTimeValue, token, b) == Declined;
      FirstNonDecliningTypeDecides(token, b, all, 3);
      FirstNonDecliningTypeDecides(token, b, inner, 2);
    }
  }

  /** A bare `*` is not allowed inside a comma list. */
  lemma StarRefusedInList(b: Bounds)
    ensures Make("*", b, InnerValueTypes) == Err(InvalidValue)
  {
    var inner := InnerValueTypes;
    var star := "*";
    assert star[0] == '*' && |star| == 1;
    assert '-' !in star;
    AllDecliningIsInvalidValue("*", b, inner);
  }

  /** Every literal of a value lies in the bounds, and a list is flat. */
  predicate InBounds(v: FieldValue, b: Bounds) {
    match v
    case Number(n) => InRange(n, b)
    case EveryNth(n) => InRange(n, b)
    case Range(from, to) => InRange(from, b) && InRange(to, b)
    case Multiple(vs) => forall w :: w in vs ==> !w.Multiple? && InBounds(w, b)
  }

  lemma ParseAsSimpleSound(vt: ValueType, token: string, b: Bounds)
    requires vt != MultipleValue && InRange(1, b)
    ensures var p := ParseAs(vt, token, b);
      && (p.Accepted? ==> !p.value.Multiple? && InBounds(p.value, b))
      && (p.Raised? ==> p.error == OutOfRange)
  {
  }

  lemma {:induction false} MakeSimpleSound(token: string, b: Bounds, types: seq<ValueType>)
    requires MultipleValue !in types && InRange(1, b)
    ensures var r := Make(token, b, types);
      && (r.Ok? ==> !r.value.Multiple? && InBounds(r.value, b))
      && (r.Err? ==> r.error != InvalidFormat)
  {
    if types != [] {
      ParseAsSimpleSound(types[0], token, b);
      MakeSimpleSound(token, b, types[1..]);
    }
  }

  lemma {:induction false} MakeAllSound(parts: seq<string>, b: Bounds)
    requires InRange(1, b)
    ensures var r := MakeAll(parts, b);
      && (r.Ok? ==> |r.value| == |parts| && forall w :: w in r.value ==> !w.Multiple? && InBounds(w, b))
      && (r.Err? ==> r.error != InvalidFormat)
  {
    if parts != [] {
      MakeSimpleSound(parts[0], b, InnerValueTypes);
      MakeAllSound(parts[1..], b);
    }
  }

  /** Whatever `Value.make` returns keeps every literal in the field's bounds and has
      flat lists, and it never reports a wrong field count. */
  lemma {:induction false} MakeSound(token: string, b: Bounds, types: seq<ValueType>)
    requires InRange(1, b)
    ensures var r := Make(token, b, types);
      && (r.Ok? ==> InBounds(r.value, b))
      && (r.Err? ==> r.error != InvalidFormat)
  {
    if types != [] {
      if types[0] == MultipleValue {
        MakeAllSound(SplitAt(token, ','), b);
      } else {
        ParseAsSimpleSound(types[0], token, b);
      }
      MakeSound(token, b, types[1..]);
    }
  }

  predicate ScheduleInBounds(s: Schedule) {
    && InBounds(s.minute, MinuteBounds)
    && InBounds(s.hour, HourBounds)
    && InBounds(s.dayOfMonth, DayOfMonthBounds)
    && InBounds(s.month, MonthBounds)
    && InBounds(s.dayOfWeek, DayOfWeekBounds)
  }

  /** A time string is refused as malformed exactly when it does not split into five
      fields; otherwise every parsed literal lies in its field's bounds. */
  lemma ParseScheduleSound(timeString: string)
    ensures ParseSchedule(timeString) == Err(InvalidFormat) <==> |SplitWhitespace(timeString)| != 5
    ensures ParseSchedule(timeString).Ok? ==> ScheduleInBounds(ParseSchedule(timeString).value)
  {
    var parts := SplitWhitespace(timeString);
    if |parts| == 5 {
      MakeSound(parts[0], MinuteBounds, AvailableValueTypes);
      MakeSound(parts[1], HourBounds, AvailableValueTypes);
      MakeSound(parts[2], DayOfMonthBounds, AvailableValueTypes);
      MakeSound(parts[3], MonthBounds, AvailableValueTypes);
      MakeSound(parts[4], DayOfWeekBounds, AvailableValueTypes);
    }
  }

  // In a field whose bounds start at 1 no `*/0` can be parsed.
  lemma InBoundsNonZero(v: FieldValue, b: Bounds)
    requires InBounds(v, b) && b.low >= 1
    ensures NonZeroSteps(v)
  {
    if v.Multiple? {
      forall w | w in v.values ensures NonZeroSteps(w) {
        assert !w.Multiple? && InBounds(w, b);
      }
    }
  }

  // `*/0` passes the bounds check of the fields whose bounds start at 0 (minute, hour,
  // day of week), so a parsed schedule can hold a step no time can be matched against;
  // it is refused for the day of month and the month.
  lemma ZeroStepParsing()
    ensures Make("*/0", MinuteBounds, AvailableValueTypes) == Ok(EveryNth(0))
    ensures Make("*/0", HourBounds, AvailableValueTypes) == Ok(EveryNth(0))
    ensures Make("*/0", DayOfWeekBounds, AvailableValueTypes) == Ok(EveryNth(0))
    ensures Make("*/0", DayOfMonthBounds, AvailableValueTypes) == Err(OutOfRange)
    ensures Make("*/0", MonthBounds, AvailableValueTypes) == Err(OutOfRange)
    ensures !NonZeroSteps(EveryNth(0))
  {
    var t := "*/0";
    assert IsEveryNthToken(t) && t[2..] == "0";
    assert DigitsValue("0") == 0 by { assert "0"[..0] == []; }
    assert !IsDigits(t);
    var all := AvailableValueTypes;
    FirstNonDecliningTypeDecides(t, MinuteBounds, all, 1);
    FirstNonDecliningTypeDecides(t, HourBounds, all, 1);
    FirstNonDecliningTypeDecides(t, DayOfWeekBounds, all, 1);
    FirstNonDecliningTypeDecides(t, DayOfMonthBounds, all, 1);
    FirstNonDecliningTypeDecides(t, MonthBounds, all, 1);
  }

  // A parsed schedule is `Evaluable`, the domain of `Matches` and a sufficient condition
  // for never raising, exactly when none of its minute, hour and day-of-week fields
  // holds `*/0`.
  lemma ParsedScheduleEvaluable(timeString: string)
    requires ParseSchedule(timeString).Ok?
    ensures var s := ParseSchedule(timeString).value;
      Evaluable(s) <==> NonZeroSteps(s.minute) && NonZeroSteps(s.hour) && NonZeroSteps(s.dayOfWeek)
  {
    ParseScheduleSound(timeString);
    var s := ParseSchedule(timeString).value;
    InBoundsNonZero(s.dayOfMonth, DayOfMonthBounds);
    InBoundsNonZero(s.month, MonthBounds);
  }

  // ---- Printing a value as a token, and parsing it back ----

  /** The text of a part of a comma list. */
  function RenderPart(v: FieldValue): string {
    match v
    case Number(n) => Decimal(n)
    case EveryNth(n) => "*/" + Decimal(n)
    case Range(from, to) => Decimal(from) + "-" + Decimal(to)
    case Multiple(_) => ""
  }

  function RenderParts(vs: seq<FieldValue>): (parts: seq<string>)
    ensures |parts| == |vs| && forall i :: 0 <= i < |vs| ==> parts[i] == RenderPart(vs[i])
  {
    seq(|vs|, i requires 0 <= i < |vs| => RenderPart(vs[i]))
  }

  /** The text of a whole field: the wildcard for a step of 1, a comma join for a list. */
  function RenderField(v: FieldValue): string {
    match v
    case EveryNth(1) => "*"
    case Multiple(vs) => Join(RenderParts(vs), ',')
    case _ => RenderPart(v)
  }

  function RenderSchedule(s: Schedule): string {
    JoinSpace([RenderField(s.minute), RenderField(s.hour), RenderField(s.dayOfMonth),
               RenderField(s.month), RenderField(s.dayOfWeek)])
  }

  predicate IsPart(v: FieldValue, b: Bounds) {
    !v.Multiple? && InBounds(v, b)
  }

  /** The values a field can be written as: a step of 1 is written `*` (which skips the
      bounds check), and a list has at least two parts (a single part is read as itself). */
  predicate WellFormed(v: FieldValue, b: Bounds) {
    match v
    case EveryNth(n) => n == 1 || InRange(n, b)
    case Multiple(vs) => |vs| >= 2 && forall i :: 0 <= i < |vs| ==> IsPart(vs[i], b)
    case _ => InBounds(v, b)
  }

  predicate ScheduleWellFormed(s: Schedule) {
    && WellFormed(s.minute, MinuteBounds)
    && WellFormed(s.hour, HourBounds)
    && WellFormed(s.dayOfMonth, DayOfMonthBounds)
    && WellFormed(s.month, MonthBounds)
    && WellFormed(s.dayOfWeek, DayOfWeekBounds)
  }

  // A token without a comma that none of the four simple types takes is read by the
  // list type as a single part, which the part types refuse as well.
  lemma SinglePartListRefused(token: string, b: Bounds)
    requires ',' !in token
    requires forall j :: 0 <= j < 4 ==> ParseAs(AvailableValueTypes[j], token, b) == Declined
    ensures ParseAs(MultipleValue, token, b) == Raised(InvalidValue)
  {
    var all := AvailableValueTypes;
    assert ParseAs(all[0], token, b) == Declined && ParseAs(all[1], token, b) == Declined;
    assert ParseAs(all[3], token, b) == Declined;
    SplitAtNoSeparator(token, ',');
    AllDecliningIsInvalidValue(token, b, InnerValueTypes);
  }

  lemma SimpleMadeWellFormed(token: string, b: Bounds, k: nat)
    requires InRange(1, b) && k < 4
    requires forall j :: 0 <= j < k ==> ParseAs(AvailableValueTypes[j], token, b) == Declined
    requires ParseAs(AvailableValueTypes[k], token, b) != Declined
    ensures Make(token, b, AvailableValueTypes).Ok? ==> WellFormed(Make(token, b, AvailableValueTypes).value, b)
  {
    FirstNonDecliningTypeDecides(token, b, AvailableValueTypes, k);
    ParseAsSimpleSound(AvailableValueTypes[k], token, b);
  }

  lemma ListMadeWellFormed(token: string, b: Bounds)
    requires InRange(1, b)
    requires forall j :: 0 <= j < 4 ==> ParseAs(AvailableValueTypes[j], token, b) == Declined
    ensures Make(token, b, AvailableValueTypes).Ok? ==> WellFormed(Make(token, b, AvailableValueTypes).value, b)
  {
    FirstNonDecliningTypeDecides(token, b, AvailableValueTypes, 4);
    MakeAllSound(SplitAt(token, ','), b);
    SplitAtSeparatorParts(token, ',');
    if ',' !in token {
      SinglePartListRefused(token, b);
    }
  }

  /** What `Value.make` returns for a whole field can be written back: its literals lie
      in the bounds, and a list has at least two parts, each a flat value. */
  lemma MakeWellFormed(token: string, b: Bounds)
    requires InRange(1, b)
    ensures Make(token, b, AvailableValueTypes).Ok? ==> WellFormed(Make(token, b, AvailableValueTypes).value, b)
  {
    var all := AvailableValueTypes;
    if ParseAs(all[0], token, b) != Declined {
      SimpleMadeWellFormed(token, b, 0);
    } else if ParseAs(all[1], token, b) != Declined {
      SimpleMadeWellFormed(token, b, 1);
    } else if ParseAs(all[2], token, b) != Declined {
      SimpleMadeWellFormed(token, b, 2);
    } else if ParseAs(all[3], token, b) != Declined {
      SimpleMadeWellFormed(token, b, 3);
    } else {
      ListMadeWellFormed(token, b);
    }
  }

  /** Every schedule the parser returns lies in the printer's domain. */
  lemma ParseScheduleWellFormed(timeString: string)
    ensures ParseSchedule(timeString).Ok? ==> ScheduleWellFormed(ParseSchedule(timeString).value)
  {
    var parts := SplitWhitespace(timeString);
    if |parts| == 5 {
      MakeWellFormed(parts[0], MinuteBounds);
      MakeWellFormed(parts[1], HourBounds);
      MakeWellFormed(parts[2], DayOfMonthBounds);
      MakeWellFormed(parts[3], MonthBounds);
      MakeWellFormed(parts[4], DayOfWeekBounds);
    }
  }

  function ShapeOf(v: FieldValue): ValueType
    requires !v.Multiple?
  {
    match v
    case Number(_) => NumberValue
    case EveryNth(_) => EveryNthValue
    case Range(_, _) => RangeValue
  }

  /** The characters of a part's text: a non-empty run without whitespace or commas. */
  lemma RenderPartText(v: FieldValue)
    requires !v.Multiple?
    ensures RenderPart(v) != [] && NoWhitespace(RenderPart(v)) && ',' !in RenderPart(v)
  {
    match v
    case Number(n) => DigitsSafe(Decimal(n));
    case EveryNth(n) => StepPartText(n);
    case Range(from, to) => RangePartText(from, to);
  }

  lemma StepPartText(n: nat)
    ensures NoWhitespace(RenderPart(EveryNth(n))) && ',' !in RenderPart(EveryNth(n))
  {
    var d := Decimal(n);
    DigitsSafe(d);
    var t := "*/" + d;
    assert forall i :: 2 <= i < |t| ==> t[i] == d[i - 2];
    assert forall i :: 0 <= i < |t| ==> !IsWhitespace(t[i]) && t[i] != ',' by {
      forall i | 0 <= i < |t| ensures !IsWhitespace(t[i]) && t[i] != ',' {
        if i >= 2 { assert t[i] in d; }
      }
    }
  }

  lemma RangePartText(from: nat, to: nat)
    ensures NoWhitespace(RenderPart(Range(from, to))) && ',' !in RenderPart(Range(from, to))
  {
    var d, e := Decimal(from), Decimal(to);
    DigitsSafe(d);
    DigitsSafe(e);
    var t := d + "-" + e;
    assert forall i :: 0 <= i < |t| ==> !IsWhitespace(t[i]) && t[i] != ',' by {
      forall i | 0 <= i < |t| ensures !IsWhitespace(t[i]) && t[i] != ',' {
        if i < |d| { assert t[i] == d[i]; assert t[i] in d; }
        else if i > |d| { assert t[i] == e[i - |d| - 1]; assert t[i] in e; }
      }
    }
  }

  lemma DigitsSafe(d: string)
    requires IsDigits(d)
    ensures NoWhitespace(d) && ',' !in d && '-' !in d && d != []
  {
    assert forall c :: c in d ==> IsDigit(c);
  }

  /** Each value type other than the list reads a part's text back as the part when it
      is the part's own type, and declines it otherwise. */
  lemma ParseAsRenderPart(vt: ValueType, v: FieldValue, b: Bounds)
    requires IsPart(v, b) && vt != MultipleValue
    ensures ParseAs(vt, RenderPart(v), b) == if vt == ShapeOf(v) then Accepted(v) else Declined
  {
    var t := RenderPart(v);
    match v
    case Number(n) =>
      DigitsFacts(t);
      DigitsValueOfDecimal(n);
    case EveryNth(n) => ParseAsRenderStep(vt, n, b);
    case Range(from, to) => ParseAsRenderRange(vt, from, to, b);
  }

  lemma ParseAsRenderStep(vt: ValueType, n: nat, b: Bounds)
    requires InRange(n, b) && vt != MultipleValue
    ensures ParseAs(vt, RenderPart(EveryNth(n)), b) == if vt == EveryNthValue then Accepted(EveryNth(n)) else Declined
  {
    var t := RenderPart(EveryNth(n));
    DigitsSafe(Decimal(n));
    DigitsValueOfDecimal(n);
    assert t[2..] == Decimal(n);
    assert t[0] == '*';
    assert t != "*";
    assert '-' !in t by {
      assert t == "*/" + Decimal(n);
      assert forall i :: 2 <= i < |t| ==> t[i] == Decimal(n)[i - 2];
    }
  }

  lemma ParseAsRenderRange(vt: ValueType, from: nat, to: nat, b: Bounds)
    requires InRange(from, b) && InRange(to, b) && vt != MultipleValue
    ensures ParseAs(vt, RenderPart(Range(from, to)), b) == if vt == RangeValue then Accepted(Range(from, to)) else Declined
  {
    var t := RenderPart(Range(from, to));
    var d, e := Decimal(from), Decimal(to);
    DigitsSafe(d);
    DigitsSafe(e);
    DigitsValueOfDecimal(from);
    DigitsValueOfDecimal(to);
    assert t == d + "-" + e;
    assert t[|d|] == '-' && t[0] == d[0];
    assert IndexOf(t, '-') == |d|;
    assert t[..|d|] == d && t[|d| + 1..] == e;
    assert !IsDigits(t);
  }

  /** Each part's text is read back as the part by the types a list tries. */
  lemma MakeRenderPart(v: FieldValue, b: Bounds)
    requires IsPart(v, b)
    ensures Make(RenderPart(v), b, InnerValueTypes) == Ok(v)
  {
    var inner := InnerValueTypes;
    var t := RenderPart(v);
    ParseAsRenderPart(NumberValue, v, b);
    ParseAsRenderPart(EveryNthValue, v, b);
    ParseAsRenderPart(RangeValue, v, b);
    match v
    case Number(_) => FirstNonDecliningTypeDecides(t, b, inner, 0);
    case EveryNth(_) => FirstNonDecliningTypeDecides(t, b, inner, 1);
    case Range(_, _) => FirstNonDecliningTypeDecides(t, b, inner, 2);
  }

  lemma {:induction false} MakeAllRenderParts(vs: seq<FieldValue>, b: Bounds)
    requires forall i :: 0 <= i < |vs| ==> IsPart(vs[i], b)
    ensures MakeAll(RenderParts(vs), b) == Ok(vs)
  {
    if vs != [] {
      MakeRenderPart(vs[0], b);
      assert RenderParts(vs)[1..] == RenderParts(vs[1..]);
      MakeAllRenderParts(vs[1..], b);
      assert [vs[0]] + vs[1..] == vs;
    }
  }

  /** The list type reads the comma join of the parts' texts back as the list. */
  lemma ParseAsListRender(vs: seq<FieldValue>, b: Bounds)
    requires |vs| >= 1 && forall i :: 0 <= i < |vs| ==> IsPart(vs[i], b)
    ensures ParseAs(MultipleValue, Join(RenderParts(vs), ','), b) == Accepted(Multiple(vs))
  {
    var parts := RenderParts(vs);
    forall k | 0 <= k < |parts| ensures ',' !in parts[k] {
      RenderPartText(vs[k]);
    }
    SplitAtJoin(parts, ',');
    MakeAllRenderParts(vs, b);
  }

  lemma {:induction false} JoinNoWhitespace(parts: seq<string>, sep: char)
    requires !IsWhitespace(sep)
    requires forall k :: 0 <= k < |parts| ==> NoWhitespace(parts[k])
    ensures NoWhitespace(Join(parts, sep))
  {
    if |parts| > 1 {
      JoinNoWhitespace(parts[1..], sep);
      var j := Join(parts[1..], sep);
      var t := parts[0] + [sep] + j;
      assert forall i :: 0 <= i < |parts[0]| ==> t[i] == parts[0][i];
      assert forall i :: |parts[0]| < i < |t| ==> t[i] == j[i - |parts[0]| - 1];
    }
  }

  /** The text of a well-formed field is a non-empty token without whitespace. */
  lemma RenderFieldText(v: FieldValue, b: Bounds)
    requires WellFormed(v, b)
    ensures RenderField(v) != [] && NoWhitespace(RenderField(v))
  {
    match v
    case Multiple(vs) =>
      var parts := RenderParts(vs);
      forall k | 0 <= k < |parts| ensures NoWhitespace(parts[k]) {
        RenderPartText(vs[k]);
      }
      JoinNoWhitespace(parts, ',');
    case EveryNth(n) =>
      if n != 1 { RenderPartText(v); }
    case _ =>
      RenderPartText(v);
  }

  /** Parsing the text of a well-formed value gives the value back. */
  lemma ParseRenderField(v: FieldValue, b: Bounds)
    requires WellFormed(v, b)
    ensures Make(RenderField(v), b, AvailableValueTypes) == Ok(v)
  {
    match v
    case EveryNth(n) =>
      if n == 1 { ParseRenderStar(b); } else { ParseRenderStep(n, b); }
    case Number(_) =>
      ParseAsRenderPart(NumberValue, v, b);
      FirstNonDecliningTypeDecides(RenderField(v), b, AvailableValueTypes, 0);
    case Range(from, to) => ParseRenderRange(from, to, b);
    case Multiple(vs) => ParseRenderList(vs, b);
  }

  lemma ParseRenderStar(b: Bounds)
    ensures Make(RenderField(EveryNth(1)), b, AvailableValueTypes) == Ok(EveryNth(1))
  {
    var t := RenderField(EveryNth(1));
    assert t == "*";
    assert |t| == 1 && t[0] == '*' && !IsDigit(t[0]);
    FirstNonDecliningTypeDecides(t, b, AvailableValueTypes, 2);
  }

  lemma ParseRenderStep(n: nat, b: Bounds)
    requires n != 1 && InRange(n, b)
    ensures Make(RenderField(EveryNth(n)), b, AvailableValueTypes) == Ok(EveryNth(n))
  {
    var v := EveryNth(n);
    ParseAsRenderPart(NumberValue, v, b);
    ParseAsRenderPart(EveryNthValue, v, b);
    FirstNonDecliningTypeDecides(RenderField(v), b, AvailableValueTypes, 1);
  }

  lemma ParseRenderRange(from: nat, to: nat, b: Bounds)
    requires InRange(from, b) && InRange(to, b)
    ensures Make(RenderField(Range(from, to)), b, AvailableValueTypes) == Ok(Range(from, to))
  {
    var v := Range(from, to);
    ParseAsRenderPart(NumberValue, v, b);
    ParseAsRenderPart(EveryNthValue, v, b);
    ParseAsRenderPart(EveryTimeValue, v, b);
    ParseAsRenderPart(RangeValue, v, b);
    FirstNonDecliningTypeDecides(RenderField(v), b, AvailableValueTypes, 3);
  }

  lemma ParseRenderList(vs: seq<FieldValue>, b: Bounds)
    requires |vs| >= 2 && forall i :: 0 <= i < |vs| ==> IsPart(vs[i], b)
    ensures Make(RenderField(Multiple(vs)), b, AvailableValueTypes) == Ok(Multiple(vs))
  {
    var t := RenderField(Multiple(vs));
    var parts := RenderParts(vs);
    JoinCons(parts[0], parts[1..], ',');
    assert [parts[0]] + parts[1..] == parts;
    assert t == parts[0] + [','] + Join(parts[1..], ',');
    assert t[|parts[0]|] == ',';
    CommaTokenIsList(t, b, NumberValue);
    CommaTokenIsList(t, b, EveryNthValue);
    CommaTokenIsList(t, b, EveryTimeValue);
    CommaTokenIsList(t, b, RangeValue);
    ParseAsListRender(vs, b);
    FirstNonDecliningTypeDecides(t, b, AvailableValueTypes, 4);
  }

  /** The printed form of a well-formed schedule splits into its five field texts. */
  lemma RenderScheduleTokens(s: Schedule)
    requires ScheduleWellFormed(s)
    ensures SplitWhitespace(RenderSchedule(s)) == [RenderField(s.minute), RenderField(s.hour),
      RenderField(s.dayOfMonth), RenderField(s.month), RenderField(s.dayOfWeek)]
  {
    RenderFieldText(s.minute, MinuteBounds);
    RenderFieldText(s.hour, HourBounds);
    RenderFieldText(s.dayOfMonth, DayOfMonthBounds);
    RenderFieldText(s.month, MonthBounds);
    RenderFieldText(s.dayOfWeek, DayOfWeekBounds);
    SplitWhitespaceJoin([RenderField(s.minute), RenderField(s.hour), RenderField(s.dayOfMonth),
                         RenderField(s.month), RenderField(s.dayOfWeek)]);
  }

  /** Parsing the printed form of a well-formed schedule gives the schedule back. */
  lemma ParseRenderSchedule(s: Schedule)
    requires ScheduleWellFormed(s)
    ensures ParseSchedule(RenderSchedule(s)) == Ok(s)
  {
    RenderScheduleTokens(s);
    ParseRenderField(s.minute, MinuteBounds);
    ParseRenderField(s.hour, HourBounds);
    ParseRenderField(s.dayOfMonth, DayOfMonthBounds);
    ParseRenderField(s.month, MonthBounds);
    ParseRenderField(s.dayOfWeek, DayOfWeekBounds);
  }

  /** Printing a parsed schedule and parsing the text again gives the same schedule:
      the printed form is a normal form of every time string the parser accepts. */
  lemma ParsePrintParsed(timeString: string)
    requires ParseSchedule(timeString).Ok?
    ensures ParseSchedule(RenderSchedule(ParseSchedule(timeString).value)) == ParseSchedule(timeString)
  {
    ParseScheduleWellFormed(timeString);
    ParseRenderSchedule(ParseSchedule(timeString).value);
  }

  // ---- What a match means ----

  // `*/n` matches exactly the multiples of n.
  lemma EveryNthMatchesMultiples(n: nat, x: int)
    requires n > 0
    ensures Matches(EveryNth(n), x) <==> exists k :: x == k * n
  {
    if x % n == 0 {
      assert x == (x / n) * n;
    }
    if exists k :: x == k * n {
      var k :| x == k * n;
      MultipleModulo(k, n);
    }
  }

  lemma MultipleModulo(k: int, n: nat)
    requires n > 0
    ensures (k * n) % n == 0
  {
    var x := k * n;
    var q, r := x / n, x % n;
    assert x == q * n + r && 0 <= r < n;
    var d := k - q;
    assert d * n == r by {
      assert d * n == k * n - q * n;
    }
  }

  /** A list matches exactly the values one of its parts matches. */
  lemma ListMatchesAnyPart(vs: seq<FieldValue>, x: int)
    requires NonZeroSteps(Multiple(vs))
    ensures Matches(Multiple(vs), x) <==> exists i :: 0 <= i < |vs| && Matches(vs[i], x)
  {
    if Matches(Multiple(vs), x) {
      var w :| w in vs && Matches(w, x);
      var i :| 0 <= i < |vs| && vs[i] == w;
    }
  }

  // Where no step is zero, evaluating `match` in Python's order gives an answer, and
  // the answer is what the match means; so `*/0` is the only way a match raises.
  lemma {:induction false} MatchAgrees(v: FieldValue, x: int)
    requires NonZeroSteps(v)
    ensures Match(v, x) == Answer(Matches(v, x))
    decreases v
  {
    if v.Multiple? {
      MatchAnyAgrees(v.values, x);
    }
  }

  lemma {:induction false} MatchAnyAgrees(vs: seq<FieldValue>, x: int)
    requires forall w :: w in vs ==> NonZeroSteps(w)
    ensures MatchAny(vs, x) == Answer(exists w :: w in vs && Matches(w, x))
    decreases vs
  {
    if vs != [] {
      MatchAgrees(vs[0], x);
      MatchAnyAgrees(vs[1..], x);
      assert forall w :: w in vs <==> w == vs[0] || w in vs[1..];
    }
  }

  /** A list's outcome is that of its first part that does not answer false: a part
      after one that matches or raises is never evaluated, and a list whose parts all
      answer false does not match. */
  lemma {:induction false} ListFirstDecides(vs: seq<FieldValue>, x: int, k: nat)
    requires k <= |vs|
    requires forall j :: 0 <= j < k ==> Match(vs[j], x) == Answer(false)
    ensures k == |vs| ==> Match(Multiple(vs), x) == Answer(false)
    ensures k < |vs| && Match(vs[k], x) != Answer(false) ==> Match(Multiple(vs), x) == Match(vs[k], x)
  {
    if k > 0 {
      assert forall j :: 0 <= j < k - 1 ==> vs[1..][j] == vs[j + 1];
      ListFirstDecides(vs[1..], x, k - 1);
      assert k < |vs| ==> vs[1..][k - 1] == vs[k];
    }
  }

  // On a schedule without `*/0`, `should_run` answers, and it answers true exactly when
  // all five fields match, whatever order they are checked in.
  lemma ShouldRunIffAllFieldsMatch(s: Schedule, when: DateTime)
    requires Evaluable(s)
    ensures ShouldRun(s, when) == Answer(
      && Matches(s.minute, when.minute)
      && Matches(s.hour, when.hour)
      && Matches(s.dayOfMonth, when.day)
      && Matches(s.month, when.month)
      && Matches(s.dayOfWeek, when.weekday + 1))
  {
    MatchAgrees(s.minute, when.minute);
    MatchAgrees(s.hour, when.hour);
    MatchAgrees(s.dayOfMonth, when.day);
    MatchAgrees(s.month, when.month);
    MatchAgrees(s.dayOfWeek, when.weekday + 1);
  }

  // On any schedule, `should_run` is true exactly when each of the five fields answers
  // true, and it raises only if some field holds `*/0`.
  lemma ShouldRunTrueIffAllFieldsTrue(s: Schedule, when: DateTime)
    ensures ShouldRun(s, when) == Answer(true) <==>
      && Match(s.minute, when.minute) == Answer(true)
      && Match(s.hour, when.hour) == Answer(true)
      && Match(s.dayOfMonth, when.day) == Answer(true)
      && Match(s.month, when.month) == Answer(true)
      && Match(s.dayOfWeek, when.weekday + 1) == Answer(true)
    ensures ShouldRun(s, when) == DivisionByZero ==> !Evaluable(s)
  {
    if Evaluable(s) {
      ShouldRunIffAllFieldsMatch(s, when);
    }
  }

  /** Day of week is matched as Monday = 1 to Sunday = 7: Sunday is 7, and a day of week
      written 0 never matches, although the bounds admit it. */
  lemma DayOfWeekConvention(s: Schedule, when: DateTime)
    requires when.weekday <= 6
    ensures s.dayOfWeek == Number(0) ==> ShouldRun(s, when) != Answer(true)
    ensures s.dayOfWeek == Number(7) && ShouldRun(s, when) == Answer(true) ==> when.weekday == 6
  {
    ShouldRunTrueIffAllFieldsTrue(s, when);
  }
}
