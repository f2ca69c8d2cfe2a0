/** The leave "AI insight" text (SmartMessageService.java): a seasonal sentence
    chosen by the start month, a duration sentence, a leave-type sentence and a
    status sentence drawn from a fixed pool. The random draw is the parameter
    `pick`, an index into the pool. */
module SmartMessage {
  import opened Domain
  import opened Calendar
  import opened Entities

  const Prefix := "\U{1F916} AI Insight: "
  const DefaultSeason := "Great timing for your leave!"

  /** `getSeasonalMessage` on the month number 1..12 of the start date. */
  function SeasonalMessage(month: int): string
  {
    if month == 12 || month == 1 then "Perfect winter break timing!"
    else if month == 3 || month == 4 then "Spring is ideal for rejuvenation!"
    else if month == 5 || month == 6 then "Summer planning shows great foresight!"
    else if month == 7 || month == 8 then "Mid-year break - smart decision!"
    else if month == 9 || month == 10 then "Autumn leaves, perfect for personal time!"
    else if month == 11 then "End-of-year timing is excellent!"
    else if month == 2 then "February break will boost your energy!"
    else DefaultSeason
  }

  /** Every calendar month has its own case: the default text is never used
      for a real start date. */
  lemma SeasonDefaultUnreachable(startDate: int)
    ensures SeasonalMessage(MonthOfDay(startDate)) != DefaultSeason
  {
  }

  const SingleDayText := "A single day off can work wonders."
  const ShortBreakText := "Short breaks are proven to increase productivity."
  const WeekBreakText := "A week-long break will recharge your batteries perfectly."
  const ExtendedLeaveText := "Extended leave shows excellent self-care planning."

  /** `getDurationMessage` on `days = between(start, end) + 1`. */
  function DurationMessage(days: int): string
  {
    if days == 1 then SingleDayText
    else if days <= 3 then ShortBreakText
    else if days <= 7 then WeekBreakText
    else ExtendedLeaveText
  }

  /** The four duration texts split the day counts into 1, at most 3 (which
      includes the non-positive counts of a reversed span), 4..7 and more. */
  lemma DurationBands(days: int)
    ensures DurationMessage(days) == SingleDayText <==> days == 1
    ensures DurationMessage(days) == ShortBreakText <==> days <= 3 && days != 1
    ensures DurationMessage(days) == WeekBreakText <==> 4 <= days <= 7
    ensures DurationMessage(days) == ExtendedLeaveText <==> days > 7
  {
    // the four texts differ in length, hence pairwise
    assert |SingleDayText| == 34 && |ShortBreakText| == 49;
    assert |WeekBreakText| == 57 && |ExtendedLeaveText| == 50;
  }

  function LeaveTypeMessage(leaveType: LeaveType): string
  {
    match leaveType
    case SICK => "Taking care of your health is the top priority."
    case CASUAL => "Casual leave maintains great work-life balance."
    case PAID => "Paid leave investment in your wellbeing pays off."
    case UNPAID => "Your dedication shows even in unpaid leave planning."
  }

  const ApprovedMessages: seq<string> := [
    "Enjoy your well-deserved break!",
    "Time to relax and return refreshed!",
    "Your team supports your time off!",
    "Make the most of your approved leave!"]

  const PendingMessages: seq<string> := [
    "Your request shows excellent planning!",
    "Proactive leave planning detected!",
    "Your manager will appreciate the advance notice!",
    "Good timing for this request!"]

  const RejectedMessages: seq<string> := [
    "Consider alternative dates for better approval chances.",
    "Your understanding shows great teamwork!",
    "Perhaps a different timing would work better.",
    "Your flexibility will be appreciated!"]

  /** The pool for a status: approved, rejected, or (for any other) pending. */
  function StatusPool(status: LeaveStatus): (r: seq<string>)
    ensures |r| == 4
  {
    match status
    case APPROVED => ApprovedMessages
    case REJECTED => RejectedMessages
    case PENDING => PendingMessages
  }

  /** `getStatusMessage`: the pool entry at the drawn index. */
  function StatusMessage(status: LeaveStatus, pick: nat): (r: string)
    requires pick < 4
    ensures r in StatusPool(status)
  {
    StatusPool(status)[pick]
  }

  /** The pools share no sentence, so the status sentence tells the status. */
  lemma StatusMessageTellsStatus(s1: LeaveStatus, p1: nat, s2: LeaveStatus, p2: nat)
    requires p1 < 4 && p2 < 4
    requires StatusMessage(s1, p1) == StatusMessage(s2, p2)
    ensures s1 == s2
  {
    assert StatusPool(s1)[p1] == StatusPool(s2)[p2];
  }

  /** The season, duration and type sentences, each followed by a space. */
  function Insight(leave: LeaveRequest): string
  {
    SeasonalMessage(MonthOfDay(leave.startDate)) + " "
      + DurationMessage(DaysRequested(leave.startDate, leave.endDate)) + " "
      + LeaveTypeMessage(leave.leaveType) + " "
  }

  /** `generateLeaveStatusMessage(leave)`. */
  function GenerateLeaveStatusMessage(leave: LeaveRequest, pick: nat): (r: string)
    requires pick < 4
    ensures |r| > |Prefix|
    ensures r[..|Prefix|] == Prefix
  {
    var rest := Insight(leave) + StatusMessage(leave.status, pick);
    assert (Prefix + rest)[..|Prefix|] == Prefix;
    Prefix + rest
  }

  /** Text put after a head and a middle ends with that text. */
  lemma EndsWith(head: string, middle: string, tail: string)
    ensures (head + (middle + tail))[|head| + |middle|..] == tail
  {
    assert (head + (middle + tail))[|head|..] == middle + tail;
  }

  /** The text ends with a sentence of the leave's own status pool. */
  lemma GeneratedMessageEndsWithStatus(leave: LeaveRequest, pick: nat)
    requires pick < 4
    ensures var r := GenerateLeaveStatusMessage(leave, pick);
      var s := StatusMessage(leave.status, pick);
      |s| <= |r| && r[|r| - |s|..] == s && s in StatusPool(leave.status)
  {
    EndsWith(Prefix, Insight(leave), StatusMessage(leave.status, pick));
  }
}
