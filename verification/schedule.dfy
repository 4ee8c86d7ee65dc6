/** Decision dates (broker/backtest_runner.py, `_decision_dates`). */
module Schedule {
  import opened BrokerModels

  datatype Frequency = Daily | Weekly | Monthly | OtherFrequency

  /** Dates are ordinals; the calendar says which week and month each belongs to. */
  datatype Calendar = Calendar(week: int -> int, month: int -> int)

  ghost predicate Monotone(period: int -> int) {
    forall d, e :: d <= e ==> period(d) <= period(e)
  }

  ghost predicate Increasing(dates: seq<int>) {
    forall i, j :: 0 <= i < j < |dates| ==> dates[i] < dates[j]
  }

  predicate Changes(dates: seq<int>, period: int -> int, i: int)
    requires 0 <= i < |dates| - 1
  {
    period(dates[i]) != period(dates[i + 1])
  }

  /** `executable[periods[:-1] != periods[1:]]` */
  function PeriodEnds(dates: seq<int>, period: int -> int): set<int> {
    set i | 0 <= i < |dates| - 1 && Changes(dates, period, i) :: dates[i]
  }

  /** None when the frequency is not supported: the source raises. */
  function DecisionDates(dates: seq<int>, cal: Calendar, frequency: Frequency): Option<set<int>> {
    match frequency
    case Daily => Some(set i | 0 <= i < |dates| - 1 :: dates[i])
    case Weekly => Some(PeriodEnds(dates, cal.week))
    case Monthly => Some(PeriodEnds(dates, cal.month))
    case OtherFrequency => None
  }

  /** Session `i` is the last of its period, and its period is not the final one. */
  ghost predicate LastOfCompletePeriod(dates: seq<int>, period: int -> int, i: int) {
    && 0 <= i < |dates|
    && (forall j :: i < j < |dates| ==> period(dates[j]) != period(dates[i]))
    && period(dates[i]) != period(dates[|dates| - 1])
  }

  lemma PeriodEndsAre(dates: seq<int>, period: int -> int, i: nat)
    requires Increasing(dates) && Monotone(period) && i < |dates|
    ensures dates[i] in PeriodEnds(dates, period) <==> LastOfCompletePeriod(dates, period, i)
  {
    if dates[i] in PeriodEnds(dates, period) {
      var k :| 0 <= k < |dates| - 1 && Changes(dates, period, k) && dates[k] == dates[i];
      assert k == i;
      forall j | i < j < |dates| ensures period(dates[j]) != period(dates[i]) {
        assert period(dates[i]) <= period(dates[i + 1]) <= period(dates[j]);
      }
    }
    if LastOfCompletePeriod(dates, period, i) {
      assert Changes(dates, period, i);
    }
  }

  /** Every decision date has a following session. */
  lemma DecisionsAreExecutable(dates: seq<int>, cal: Calendar, frequency: Frequency, i: nat)
    requires Increasing(dates) && i < |dates| && DecisionDates(dates, cal, frequency).Some?
    requires dates[i] in DecisionDates(dates, cal, frequency).value
    ensures i + 1 < |dates|
  {
    var k :| 0 <= k < |dates| - 1 && dates[k] == dates[i];
    assert k == i;
  }

  /** The schedule is exactly: every session but the last, or the last session of every
      week or month but the final one. */
  lemma ScheduleIs(dates: seq<int>, cal: Calendar, frequency: Frequency, i: nat)
    requires Increasing(dates) && Monotone(cal.week) && Monotone(cal.month) && i < |dates|
    ensures DecisionDates(dates, cal, frequency).None? <==> frequency == OtherFrequency
    ensures frequency != OtherFrequency ==>
      (dates[i] in DecisionDates(dates, cal, frequency).value <==>
         match frequency
         case Daily => i + 1 < |dates|
         case Weekly => LastOfCompletePeriod(dates, cal.week, i)
         case Monthly => LastOfCompletePeriod(dates, cal.month, i)
         case OtherFrequency => false)
  {
    match frequency
    case Daily =>
      if dates[i] in DecisionDates(dates, cal, frequency).value {
        DecisionsAreExecutable(dates, cal, frequency, i);
      }
    case Weekly => PeriodEndsAre(dates, cal.week, i);
    case Monthly => PeriodEndsAre(dates, cal.month, i);
    case OtherFrequency =>
  }
}
