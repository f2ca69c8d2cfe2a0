/** What the two dashboards share: the welcome banner with its fallback when
    the welcome request fails, and the "generated in the last 30 days" test
    for payrolls. Client instants are milliseconds (`Date.now()`); `hour` is
    `new Date().getHours()`. */
module DashboardCommon {
  import opened Wrappers
  import opened Dto
  import WelcomeAI

  const MillisPerDay := 24 * 60 * 60 * 1000

  /** The greeting of the fallback: before 12, before 17, otherwise evening
      (the initial `'Good day!'` is always overwritten). */
  function FallbackGreeting(hour: int): (r: string)
    ensures r == "Good morning!" <==> hour < 12
    ensures r == "Good afternoon!" <==> 12 <= hour < 17
    ensures r == "Good evening!" <==> 17 <= hour
  {
    if hour < 12 then "Good morning!"
    else if hour < 17 then "Good afternoon!"
    else "Good evening!"
  }

  /** The banner: the server's text when the request succeeds (`answer`),
      the fallback otherwise. */
  function WelcomeText(answer: Option<string>, hour: int): (r: string)
    ensures answer.Some? ==> r == answer.value
    ensures answer.None? ==> r == FallbackGreeting(hour) + " Ready to make today productive?"
  {
    match answer
    case Some(text) => text
    case None => FallbackGreeting(hour) + " Ready to make today productive?"
  }

  /** The fallback greets as the server's welcome does, at every second of
      the hour. */
  lemma FallbackAgreesWithServer(hour: nat, second: nat)
    requires second < 3600
    ensures FallbackGreeting(hour) == WelcomeAI.TimeGreeting(hour * 3600 + second) + "!"
  {
  }

  /** `new Date(p.generatedDate) > new Date(now - 30 days)`; a null date is
      the epoch. */
  function GeneratedRecently(now: int): PayrollDto -> bool
  {
    (p: PayrollDto) => p.generatedDate.GetOr(0) > now - 30 * MillisPerDay
  }

  /** A payroll counts as recent exactly when it was generated less than 30
      days before `now` (or after it). */
  lemma GeneratedRecentlyMeaning(p: PayrollDto, now: int)
    ensures GeneratedRecently(now)(p) <==> now - p.generatedDate.GetOr(0) < 30 * MillisPerDay
  {
  }
}
