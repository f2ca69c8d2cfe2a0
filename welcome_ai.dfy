/** The dashboard welcome text (WelcomeAIService.java): a greeting by the time
    of day, the user's name, a sentence from the pool of the user's role and a
    quote. The clock is the parameter `secondOfDay`; the two random draws are
    the indices `messagePick` and `quotePick`. */
module WelcomeAI {
  import opened Domain

  const Noon := 12 * 3600
  const FivePm := 17 * 3600

  /** `getTimeBasedGreeting`: strictly before 12:00, strictly before 17:00,
      otherwise evening. */
  function TimeGreeting(secondOfDay: nat): (r: string)
    ensures r == "Good morning" <==> secondOfDay < Noon
    ensures r == "Good afternoon" <==> Noon <= secondOfDay < FivePm
    ensures r == "Good evening" <==> FivePm <= secondOfDay
  {
    if secondOfDay < Noon then "Good morning"
    else if secondOfDay < FivePm then "Good afternoon"
    else "Good evening"
  }

  const AdminMessages: seq<string> := [
    "Your team is ready for another productive day!",
    "New insights await in your dashboard.",
    "Time to lead and inspire your team!",
    "Ready to make strategic decisions today?"]

  const EmployeeMessages: seq<string> := [
    "Ready to make today amazing?",
    "Your hard work continues to shine!",
    "Time to tackle new challenges!",
    "Another day to grow and succeed!"]

  const Quotes: seq<string> := [
    "Success is the result of preparation meeting opportunity.",
    "Excellence is not a skill, it's an attitude.",
    "Great things never come from comfort zones.",
    "Every accomplishment starts with the decision to try.",
    "Your potential is endless."]

  function MessagePool(role: Role): (r: seq<string>)
    ensures |r| == 4
  {
    if role == ADMIN then AdminMessages else EmployeeMessages
  }

  /** `getPersonalizedMessage`: a sentence of the role's pool. */
  function PersonalizedMessage(role: Role, messagePick: nat): (r: string)
    requires messagePick < 4
    ensures r in MessagePool(role)
  {
    MessagePool(role)[messagePick]
  }

  /** The two pools are disjoint: the sentence reveals whether the user is an
      admin. */
  lemma PersonalizedMessageTellsRole(r1: Role, p1: nat, r2: Role, p2: nat)
    requires p1 < 4 && p2 < 4
    requires PersonalizedMessage(r1, p1) == PersonalizedMessage(r2, p2)
    ensures r1 == r2
  {
    assert MessagePool(r1)[p1] == MessagePool(r2)[p2];
  }

  function MotivationalQuote(quotePick: nat): (r: string)
    requires quotePick < |Quotes|
    ensures r in Quotes
  {
    Quotes[quotePick]
  }

  /** `generateSmartWelcome(user)`. */
  function GenerateSmartWelcome(username: string, role: Role, secondOfDay: nat, messagePick: nat, quotePick: nat): (r: string)
    requires messagePick < 4 && quotePick < |Quotes|
  {
    TimeGreeting(secondOfDay) + " " + username + "! " + PersonalizedMessage(role, messagePick)
      + " " + MotivationalQuote(quotePick)
  }

  /** The welcome opens with the greeting for the time and the user's name, and
      closes with one of the fixed quotes. */
  lemma WelcomeShape(username: string, role: Role, secondOfDay: nat, messagePick: nat, quotePick: nat)
    requires messagePick < 4 && quotePick < |Quotes|
    ensures var r := GenerateSmartWelcome(username, role, secondOfDay, messagePick, quotePick);
      var head := TimeGreeting(secondOfDay) + " " + username + "! ";
      var q := MotivationalQuote(quotePick);
      |head| + |q| <= |r| && r[..|head|] == head && r[|r| - |q|..] == q && q in Quotes
  {
    var head := TimeGreeting(secondOfDay) + " " + username + "! ";
    var mid := PersonalizedMessage(role, messagePick) + " ";
    var q := MotivationalQuote(quotePick);
    assert GenerateSmartWelcome(username, role, secondOfDay, messagePick, quotePick) == head + mid + q;
  }
}
