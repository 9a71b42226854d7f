/** The data chat: the user's messages are answered by keyword rules over the lower-cased
    text, each rule a pair of keywords and a canned reply, tried in order, with a general
    reply when none applies. */
module Chat {
  import opened Strings
  import opened Js

  datatype Role = User | Assistant
  datatype ChatMessage = ChatMessage(id: string, role: Role, content: string)

  /** A reply rule: it applies when the message holds either keyword. */
  datatype Rule = Rule(first: string, second: string, reply: string)

  const GREETING := ChatMessage("1", Assistant, "Hello! I can help you analyze and understand Census data. What would you like to know?")

  const INCOME := Rule("income", "salary", "Based on the Census data, median household income varies significantly by region. Would you like me to show you specific income statistics for a particular area?")
  const EDUCATION := Rule("education", "college", "Education attainment levels show interesting patterns across different regions. The data indicates variation in college graduation rates by geography and demographics.")
  const HOUSING := Rule("housing", "home", "Housing costs have been trending upward in many metropolitan areas. The Census data shows regional variations in homeownership rates and housing affordability.")
  const POPULATION := Rule("demographics", "population", "Population demographics show changing patterns, with growing diversity in many urban areas and shifts in age distribution across regions.")
  const COMPARISON := Rule("compare", "difference", "Comparing regions can reveal interesting insights. The data shows significant variations between urban and rural areas in multiple demographic factors.")
  const TRENDS := Rule("trend", "change", "Looking at trends over time, there are notable shifts in population distribution, income levels, and housing costs across different regions.")
  const RULES := [INCOME, EDUCATION, HOUSING, POPULATION, COMPARISON, TRENDS]
  const GENERAL_REPLY := "That's an interesting question about the Census data. Looking at the available information, I can help you analyze specific variables or regions if you provide more details."

  predicate Applies(rule: Rule, lower: string) {
    Contains(lower, rule.first) || Contains(lower, rule.second)
  }

  /** The reply of the first rule, from `i` on, that applies; the general reply if none. */
  function ReplyFrom(rules: seq<Rule>, lower: string, i: nat): string
    decreases |rules| - i
  {
    if i >= |rules| then GENERAL_REPLY
    else if Applies(rules[i], lower) then rules[i].reply
    else ReplyFrom(rules, lower, i + 1)
  }

  /** The answer to a message. */
  function ReplyTo(message: string): string {
    ReplyFrom(RULES, ToLower(message), 0)
  }

  /** The first applicable rule decides the reply: rule `k` answers when it applies and no
      earlier rule does. */
  lemma {:induction false} FirstRuleAnswers(rules: seq<Rule>, lower: string, i: nat, k: nat)
    requires i <= k < |rules|
    requires Applies(rules[k], lower)
    requires forall j :: i <= j < k ==> !Applies(rules[j], lower)
    ensures ReplyFrom(rules, lower, i) == rules[k].reply
    decreases k - i
  {
    if i < k {
      FirstRuleAnswers(rules, lower, i + 1, k);
    }
  }

  /** With no rule applying the reply is the general one. */
  lemma {:induction false} NoRuleGeneral(rules: seq<Rule>, lower: string, i: nat)
    requires forall j :: i <= j < |rules| ==> !Applies(rules[j], lower)
    ensures ReplyFrom(rules, lower, i) == GENERAL_REPLY
    decreases |rules| - i
  {
    if i < |rules| {
      NoRuleGeneral(rules, lower, i + 1);
    }
  }

  /** The reply never depends on letter case. */
  lemma ReplyIgnoresCase(message: string)
    ensures ReplyTo(ToLower(message)) == ReplyTo(message)
  {
    ToLowerIdempotent(message);
  }

  /** A message about income is always answered by the income rule, whatever else it
      mentions. */
  lemma IncomeFirst(message: string)
    requires Contains(ToLower(message), "income")
    ensures ReplyTo(message) == INCOME.reply
  {
    FirstRuleAnswers(RULES, ToLower(message), 0, 0);
  }

  /** The chat state: the conversation, opened by the greeting, and whether a reply is
      pending. */
  class ChatSession {
    var messages: seq<ChatMessage>
    var isLoading: bool

    predicate Valid()
      reads this
    {
      |messages| >= 1 && messages[0] == GREETING
    }

    constructor ()
      ensures Valid() && messages == [GREETING] && !isLoading
    {
      messages := [GREETING];
      isLoading := false;
    }

    /** Sending at time `now` (milliseconds): a blank message is ignored; otherwise it joins
        the conversation under the time as its id and a reply is awaited. */
    method SendMessage(message: string, now: nat) returns (pending: bool)
      requires Valid()
      modifies this
      ensures Valid()
      ensures pending <==> !AllSpace(message)
      ensures !pending ==> messages == old(messages) && isLoading == old(isLoading)
      ensures pending ==> messages == old(messages) + [ChatMessage(NatToString(now), User, message)] && isLoading
    {
      BlankIffAllSpace(message);
      if Trim(message) == "" {
        return false;
      }
      messages := messages + [ChatMessage(NatToString(now), User, message)];
      isLoading := true;
      pending := true;
    }

    /** The reply, produced at time `now` after the simulated delay: the rules' answer joins
        the conversation under the time plus one as its id, and loading ends. */
    method Respond(message: string, now: nat)
      requires Valid()
      modifies this
      ensures Valid()
      ensures messages == old(messages) + [ChatMessage(NatToString(now + 1), Assistant, ReplyTo(message))]
      ensures !isLoading
    {
      messages := messages + [ChatMessage(NatToString(now + 1), Assistant, ReplyTo(message))];
      isLoading := false;
    }
  }
}
