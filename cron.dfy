/** The cron-style schedule of `pipeliner/schedule.py`: a time string of five
    whitespace-separated fields (minute, hour, day of month, month, day of week), each
    parsed by trying a fixed list of value types in order, and a matcher that decides
    whether a point in time satisfies all five fields. */
module Cron {
  import opened Wrappers
  import opened Text

  // A parsed field. `*` is kept as `EveryNth(1)`, which is what the wildcard value type
  // builds (it is a subclass of the `*/n` type with the step fixed at 1).
  datatype FieldValue =
    | Number(value: nat)                 // `n`
    | EveryNth(step: nat)                // `*/n`, and `*`
    | Range(from: nat, to: nat)          // `a-b`
    | Multiple(values: seq<FieldValue>)  // `p,q,...`

  /** The inclusive range a field's literals must lie in. */
  datatype Bounds = Bounds(low: nat, high: nat)

  /** Why a time string is refused: it does not have five fields, a literal is outside
      its field's bounds, or a token has no accepted shape. */
  datatype ScheduleError = InvalidFormat | OutOfRange | InvalidValue

  /** The value types a token is tried against. */
  datatype ValueType = NumberValue | EveryNthValue | EveryTimeValue | RangeValue | MultipleValue

  /** What one value type's `parse` does with a token: declines it (returns false),
      accepts it, or raises. */
  datatype Parsed = Declined | Accepted(value: FieldValue) | Raised(error: ScheduleError)

  /** The order the schedule tries value types in for a whole field. */
  const AvailableValueTypes: seq<ValueType> :=
    [NumberValue, EveryNthValue, EveryTimeValue, RangeValue, MultipleValue]

  /** The order a comma list tries value types in for each of its parts: no `*`, no list. */
  const InnerValueTypes: seq<ValueType> := [NumberValue, EveryNthValue, RangeValue]

  const MinuteBounds := Bounds(0, 59)
  const HourBounds := Bounds(0, 23)
  const DayOfMonthBounds := Bounds(1, 31)
  const MonthBounds := Bounds(1, 12)
  const DayOfWeekBounds := Bounds(0, 7)

  predicate InRange(n: int, b: Bounds) {
    b.low <= n <= b.high
  }

  /** A token of the shape `\*\/\d+`. */
  predicate IsEveryNthToken(t: string) {
    |t| >= 2 && t[0] == '*' && t[1] == '/' && IsDigits(t[2..])
  }

  /** A token of the shape `\d+-\d+`. */
  predicate IsRangeToken(t: string) {
    '-' in t && IsDigits(t[..IndexOf(t, '-')]) && IsDigits(t[IndexOf(t, '-') + 1..])
  }

  function Rank(types: seq<ValueType>): nat {
    if MultipleValue in types then 1 else 0
  }

  /** `ValueType().parse(token, allowed_range)`: a value type whose syntax matches checks
      every literal against the bounds and raises when one is outside them, so a token
      never falls through to a later type once its syntax matched. The comma list
      accepts every token and raises when a part is refused. The tokens are those a time
      string splits into, so none holds a line break, which the patterns' `.` and `$`
      would treat specially. */
  function ParseAs(vt: ValueType, token: string, b: Bounds): Parsed
    decreases if vt == MultipleValue then 1 else 0, 1, 0
  {
    match vt
    case NumberValue =>
      if !IsDigits(token) then Declined
      else if InRange(DigitsValue(token), b) then Accepted(Number(DigitsValue(token)))
      else Raised(OutOfRange)
    case EveryNthValue =>
      if !IsEveryNthToken(token) then Declined
      else if InRange(DigitsValue(token[2..]), b) then Accepted(EveryNth(DigitsValue(token[2..])))
      else Raised(OutOfRange)
    case EveryTimeValue =>
      if token == "*" then Accepted(EveryNth(1)) else Declined
    case RangeValue =>
      if !IsRangeToken(token) then Declined
      else
        var i := IndexOf(token, '-');
        var from, to := DigitsValue(token[..i]), DigitsValue(token[i + 1..]);
        if InRange(from, b) && InRange(to, b) then Accepted(Range(from, to)) else Raised(OutOfRange)
    case MultipleValue =>
      match MakeAll(SplitAt(token, ','), b)
      case Ok(values) => Accepted(Multiple(values))
      case Err(e) => Raised(e)
  }

  /** `Value.make`: the first value type that does not decline decides; when every type
      declines the token is an invalid value. */
  function Make(token: string, b: Bounds, types: seq<ValueType>): Result<FieldValue, ScheduleError>
    decreases Rank(types), 2, |types|
  {
    if types == [] then Err(InvalidValue)
    else
      assert MultipleValue in types[1..] ==> MultipleValue in types;
      match ParseAs(types[0], token, b)
      case Declined => Make(token, b, types[1..])
      case Accepted(v) => Ok(v)
      case Raised(e) => Err(e)
  }

  /** The parts of a comma list, each made with the inner value types; the first part
      refused refuses the list. */
  function MakeAll(parts: seq<string>, b: Bounds): Result<seq<FieldValue>, ScheduleError>
    decreases 0, 3, |parts|
  {
    if parts == [] then Ok([])
    else
      var v :- Make(parts[0], b, InnerValueTypes);
      var vs :- MakeAll(parts[1..], b);
      Ok([v] + vs)
  }

  /** The loop of `Value.make` over the candidate value types. */
  method MakeValue(token: string, b: Bounds, types: seq<ValueType>) returns (r: Result<FieldValue, ScheduleError>)
    ensures r == Make(token, b, types)
  {
    var i := 0;
    while i < |types|
      invariant 0 <= i <= |types|
      invariant forall j :: 0 <= j < i ==> ParseAs(types[j], token, b) == Declined
      invariant Make(token, b, types) == Make(token, b, types[i..])
    {
      assert types[i..][0] == types[i] && types[i..][1..] == types[i + 1..];
      var made := ParseAs(types[i], token, b);
      match made {
        case Accepted(v) => return Ok(v);
        case Raised(e) => return Err(e);
        case Declined =>
      }
      i := i + 1;
    }
    r := Err(InvalidValue);
  }

  // A value without `*/0`: the domain of `Matches`. Evaluating such a value never
  // divides by zero, though a `*/0` that evaluation does not reach raises nothing either.
  predicate NonZeroSteps(v: FieldValue) {
    match v
    case EveryNth(n) => n != 0
    case Multiple(vs) => forall w :: w in vs ==> NonZeroSteps(w)
    case _ => true
  }

  // What a match means where it is defined: a number matches itself, `*/n` the
  // multiples of n, `a-b` the values from a to b inclusive, a list the values any part
  // matches. The remainder is that of a positive divisor, where Python's `%` and
  // Dafny's agree.
  predicate Matches(v: FieldValue, x: int)
    requires NonZeroSteps(v)
  {
    match v
    case Number(n) => x == n
    case EveryNth(n) => x % n == 0
    case Range(from, to) => from <= x <= to
    case Multiple(vs) => exists w :: w in vs && Matches(w, x)
  }

  /** What evaluating `match` or `should_run` gives: an answer, or the
      `ZeroDivisionError` that `value % 0` raises for a step of zero. */
  datatype Outcome = Answer(holds: bool) | DivisionByZero

  // `match(value)` as Python evaluates it: `*/0` raises, and a list asks its parts in
  // order and stops at the first that matches or raises, as `any()` does.
  function Match(v: FieldValue, x: int): Outcome
    decreases v
  {
    match v
    case Number(n) => Answer(x == n)
    case EveryNth(n) => if n == 0 then DivisionByZero else Answer(x % n == 0)
    case Range(from, to) => Answer(from <= x <= to)
    case Multiple(vs) => MatchAny(vs, x)
  }

  function MatchAny(vs: seq<FieldValue>, x: int): Outcome
    decreases vs
  {
    if vs == [] then Answer(false)
    else
      match Match(vs[0], x)
      case Answer(true) => Answer(true)
      case Answer(false) => MatchAny(vs[1..], x)
      case DivisionByZero => DivisionByZero
  }

  /** A parsed time string. */
  datatype Schedule = Schedule(minute: FieldValue, hour: FieldValue, dayOfMonth: FieldValue,
                               month: FieldValue, dayOfWeek: FieldValue)

  /** `Schedule(time_string)`: split on runs of whitespace, refuse anything but five
      fields, then make the fields in order; the first field refused refuses the string. */
  function ParseSchedule(timeString: string): Result<Schedule, ScheduleError> {
    var parts := SplitWhitespace(timeString);
    if |parts| != 5 then Err(InvalidFormat)
    else
      var minute :- Make(parts[0], MinuteBounds, AvailableValueTypes);
      var hour :- Make(parts[1], HourBounds, AvailableValueTypes);
      var dayOfMonth :- Make(parts[2], DayOfMonthBounds, AvailableValueTypes);
      var month :- Make(parts[3], MonthBounds, AvailableValueTypes);
      var dayOfWeek :- Make(parts[4], DayOfWeekBounds, AvailableValueTypes);
      Ok(Schedule(minute, hour, dayOfMonth, month, dayOfWeek))
  }

  /** The constructor of the schedule, calling the value-type loop once per field. */
  method NewSchedule(timeString: string) returns (r: Result<Schedule, ScheduleError>)
    ensures r == ParseSchedule(timeString)
  {
    var parts := SplitWhitespace(timeString);
    if |parts| != 5 {
      return Err(InvalidFormat);
    }
    var minute := MakeValue(parts[0], MinuteBounds, AvailableValueTypes);
    if minute.Err? { return Err(minute.error); }
    var hour := MakeValue(parts[1], HourBounds, AvailableValueTypes);
    if hour.Err? { return Err(hour.error); }
    var dayOfMonth := MakeValue(parts[2], DayOfMonthBounds, AvailableValueTypes);
    if dayOfMonth.Err? { return Err(dayOfMonth.error); }
    var month := MakeValue(parts[3], MonthBounds, AvailableValueTypes);
    if month.Err? { return Err(month.error); }
    var dayOfWeek := MakeValue(parts[4], DayOfWeekBounds, AvailableValueTypes);
    if dayOfWeek.Err? { return Err(dayOfWeek.error); }
    r := Ok(Schedule(minute.value, hour.value, dayOfMonth.value, month.value, dayOfWeek.value));
  }

  /** The components of a point in time the schedule looks at; `weekday` is Python's
      `weekday()`, Monday = 0 to Sunday = 6. */
  datatype DateTime = DateTime(minute: nat, hour: nat, day: nat, month: nat, weekday: nat)

  // A schedule none of whose fields holds `*/0`.
  predicate Evaluable(s: Schedule) {
    NonZeroSteps(s.minute) && NonZeroSteps(s.hour) && NonZeroSteps(s.dayOfMonth)
    && NonZeroSteps(s.month) && NonZeroSteps(s.dayOfWeek)
  }

  /** `should_run(when)`, checking the fields in order and returning at the first that
      does not match, or raising with it; the day of week is checked against
      `weekday() + 1`. A field after the first that fails is never evaluated. */
  function ShouldRun(s: Schedule, when: DateTime): Outcome {
    var minute := Match(s.minute, when.minute);
    if minute != Answer(true) then minute
    else
      var hour := Match(s.hour, when.hour);
      if hour != Answer(true) then hour
      else
        var day := Match(s.dayOfMonth, when.day);
        if day != Answer(true) then day
        else
          var month := Match(s.month, when.month);
          if month != Answer(true) then month
          else Match(s.dayOfWeek, when.weekday + 1)
  }
}
