/** The scheduler's target computation (main.py:300-307): the next 19:00
    Moscow time at which the daily survey fires, from the current time. */
module Schedule {
  import opened Wrappers

  /** SURVEY_TIME = time(19, 0), as a minute of the day. */
  const SURVEY_MINUTE: int := 19 * 60
  const MINUTES_PER_DAY: int := 24 * 60

  datatype Date = Date(year: int, month: int, day: int)

  /** A local wall-clock time in the fixed zone, to the minute. The target has
      second 0 and microsecond 0, so `now >= target` is decided by the minute
      alone: any time within 19:00 is at or after 19:00:00.000. */
  datatype Moment = Moment(date: Date, minute: int)

  predicate IsLeapYear(y: int) {
    y % 4 == 0 && (y % 100 != 0 || y % 400 == 0)
  }

  function DaysInMonth(year: int, month: int): int
    requires 1 <= month <= 12
  {
    if month == 2 then (if IsLeapYear(year) then 29 else 28)
    else if month == 4 || month == 6 || month == 9 || month == 11 then 30
    else 31
  }

  predicate ValidDate(d: Date) {
    1 <= d.year && 1 <= d.month <= 12 && 1 <= d.day <= DaysInMonth(d.year, d.month)
  }

  predicate ValidMoment(m: Moment) {
    ValidDate(m.date) && 0 <= m.minute < MINUTES_PER_DAY
  }

  predicate DateBefore(a: Date, b: Date) {
    a.year < b.year
    || (a.year == b.year && (a.month < b.month || (a.month == b.month && a.day < b.day)))
  }

  predicate Before(a: Moment, b: Moment) {
    DateBefore(a.date, b.date) || (a.date == b.date && a.minute < b.minute)
  }

  /** The `ValueError` "day is out of range for month", carrying the date asked for. */
  datatype ScheduleError = DayOutOfRange(requested: Date)

  /** `datetime.replace(day=day)`: fails unless the day exists in that month. */
  function ReplaceDay(d: Date, day: int): (r: Result<Date, ScheduleError>)
    requires ValidDate(d)
    ensures r.Ok? <==> 1 <= day <= DaysInMonth(d.year, d.month)
    ensures r.Ok? ==> ValidDate(r.value) && r.value == d.(day := day)
    ensures r.Err? ==> r.error == DayOutOfRange(d.(day := day))
  {
    if 1 <= day <= DaysInMonth(d.year, d.month) then Ok(d.(day := day))
    else Err(DayOutOfRange(d.(day := day)))
  }

  /** main.py:300-305 as written. Before 19:00 the target is today at 19:00;
      otherwise it is day + 1 of the same month, which raises on the
      month's last day. */
  function NextTarget(now: Moment): (r: Result<Moment, ScheduleError>)
    requires ValidMoment(now)
    ensures now.minute < SURVEY_MINUTE ==> r == Ok(Moment(now.date, SURVEY_MINUTE))
    ensures r.Err? <==> now.minute >= SURVEY_MINUTE
                        && now.date.day == DaysInMonth(now.date.year, now.date.month)
    ensures r.Ok? ==> ValidMoment(r.value) && r.value.minute == SURVEY_MINUTE && Before(now, r.value)
    ensures r.Ok? && SURVEY_MINUTE <= now.minute ==>
              r.value.date == now.date.(day := now.date.day + 1)
  {
    var target := Moment(now.date, SURVEY_MINUTE);
    if !Before(now, target) then
      match ReplaceDay(target.date, target.date.day + 1)
      case Ok(tomorrow) => Ok(Moment(tomorrow, SURVEY_MINUTE))
      case Err(e) => Err(e)
    else Ok(target)
  }

  /** Counterexample: after 19:00 on 31 January the scheduler raises instead
      of choosing 1 February. */
  lemma MonthEndRaises()
    ensures NextTarget(Moment(Date(2026, 1, 31), 20 * 60)) == Err(DayOutOfRange(Date(2026, 1, 32)))
    ensures NextTarget(Moment(Date(2026, 12, 31), SURVEY_MINUTE)).Err?
  {
  }

  /** The calendar day after `d`, crossing month and year ends. */
  function NextDay(d: Date): (r: Date)
    requires ValidDate(d)
    ensures ValidDate(r) && DateBefore(d, r)
    ensures forall e :: ValidDate(e) && DateBefore(d, e) ==> !DateBefore(e, r)
  {
    if d.day < DaysInMonth(d.year, d.month) then d.(day := d.day + 1)
    else if d.month < 12 then Date(d.year, d.month + 1, 1)
    else Date(d.year + 1, 1, 1)
  }

  /** The intended rule: the first 19:00 strictly after now, the next day's
      when today's has passed. */
  function NextTargetRolled(now: Moment): (r: Moment)
    requires ValidMoment(now)
    ensures ValidMoment(r) && r.minute == SURVEY_MINUTE && Before(now, r)
    ensures forall m :: ValidMoment(m) && m.minute == SURVEY_MINUTE && Before(now, m) ==> !Before(m, r)
  {
    if now.minute < SURVEY_MINUTE then Moment(now.date, SURVEY_MINUTE)
    else Moment(NextDay(now.date), SURVEY_MINUTE)
  }

  /** Where the code as written does not raise, it already computes the intended target. */
  lemma RolledAgreesWithAsWritten(now: Moment)
    requires ValidMoment(now)
    ensures NextTarget(now).Ok? ==> NextTarget(now).value == NextTargetRolled(now)
    ensures NextTarget(now).Err? ==>
              NextTargetRolled(now).date == (if now.date.month < 12 then Date(now.date.year, now.date.month + 1, 1)
                                             else Date(now.date.year + 1, 1, 1))
  {
  }
}
