/** The termination ("Kündigung") rule shared by the two cancellation
    sources: a contract with a monthly cycle can be ended at a date after
    the last day of the reference month, a yearly one at a date after the
    last day of the reference year, and no other cycle can be ended. */
module Cancellation {
  import opened Dates

  /** The `switch (cyclePeriod)` of the `validate` methods: the last day of
      the reference period must be strictly before the termination date. */
  function CancelAllowed(cyclePeriod: string, reference: Date, termination: Date): (ok: bool)
    requires ValidDate(reference)
    ensures ok ==> cyclePeriod == "m" || cyclePeriod == "y"
    ensures ok ==> IsBefore(reference, termination)
  {
    if cyclePeriod == "m" then IsBefore(LastDayOfMonth(reference), termination)
    else if cyclePeriod == "y" then IsBefore(LastDayOfYear(reference.year), termination)
    else false
  }

  /** Monthly cycle: allowed exactly when the termination date lies in a
      later calendar month than the reference. */
  lemma MonthlyIffLaterMonth(reference: Date, termination: Date)
    requires ValidDate(reference) && ValidDate(termination)
    ensures CancelAllowed("m", reference, termination) <==>
      reference.year < termination.year
      || (reference.year == termination.year && reference.month < termination.month)
  {
  }

  /** Yearly cycle: allowed exactly when the termination date lies in a
      later year than the reference. */
  lemma YearlyIffLaterYear(reference: Date, termination: Date)
    requires ValidDate(reference) && ValidDate(termination)
    ensures CancelAllowed("y", reference, termination) <==> reference.year < termination.year
  {
  }

  /** Any cycle other than "m" and "y" (compared exactly, as a Java string
      switch does) never allows termination. */
  lemma OtherCyclesNeverAllowed(cyclePeriod: string, reference: Date, termination: Date)
    requires ValidDate(reference)
    requires cyclePeriod != "m" && cyclePeriod != "y"
    ensures !CancelAllowed(cyclePeriod, reference, termination)
  {
  }

  /** A date that may be terminated at stays allowed when moved later. */
  lemma AllowedIsUpwardClosed(cyclePeriod: string, reference: Date, termination: Date, later: Date)
    requires ValidDate(reference)
    requires CancelAllowed(cyclePeriod, reference, termination)
    requires !IsBefore(later, termination)
    ensures CancelAllowed(cyclePeriod, reference, later)
  {
  }

  /** For valid dates, a date a yearly contract may end at is one a monthly
      contract may end at too. */
  lemma YearlyImpliesMonthly(reference: Date, termination: Date)
    requires ValidDate(reference) && ValidDate(termination)
    requires CancelAllowed("y", reference, termination)
    ensures CancelAllowed("m", reference, termination)
  {
    YearlyIffLaterYear(reference, termination);
    MonthlyIffLaterMonth(reference, termination);
  }
}
