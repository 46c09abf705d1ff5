/** The rotating suggestion under the empty chat (src/components/SuggestedPrompts.tsx): the
    prompt list of the chosen domain (the general list for an unknown domain), optionally led by
    a personalised prompt, and an index that the rotation timer advances modulo the list's
    length. The timers are steps: `FadeOut` for the interval, `Advance` for the timeout. */
module SuggestedPrompts {
  import opened Common
  import opened Personalization

  const General: seq<string> := [
    "Create a new lead for a potential customer",
    "Schedule a follow-up meeting with a client",
    "Add a task to follow up on a lead",
    "Show me all leads from this week",
    "Create a note about a customer interaction"]

  const Sales: seq<string> := [
    "Create a lead with contact information",
    "Update lead status to 'Contacted'",
    "Schedule a demo meeting for next week",
    "Add a task to send a proposal",
    "Show me high-priority leads"]

  const CustomerService: seq<string> := [
    "Create a note about a customer issue",
    "Schedule a call to resolve a complaint",
    "Add a task to follow up on a support ticket",
    "Show me all open customer issues",
    "Create a meeting to discuss customer feedback"]

  const Marketing: seq<string> := [
    "Create leads from a marketing campaign",
    "Schedule a meeting to discuss campaign results",
    "Add tasks for content creation",
    "Show me leads by source",
    "Create notes about campaign performance"]

  const Management: seq<string> := [
    "Show me the sales pipeline overview",
    "Create a meeting to review team performance",
    "Add tasks for team members",
    "Generate a report on lead conversion",
    "Schedule a strategy meeting"]

  /** `PROMPTS_BY_DOMAIN`. */
  const PromptsByDomain: map<string, seq<string>> := map[
    "general" := General, "sales" := Sales, "customer_service" := CustomerService,
    "marketing" := Marketing, "management" := Management]

  /** `PROMPTS_BY_DOMAIN[domain] ?? PROMPTS_BY_DOMAIN.general`. */
  function BasePrompts(domain: string): (r: seq<string>)
    ensures domain !in PromptsByDomain ==> r == General
    ensures domain in PromptsByDomain ==> r == PromptsByDomain[domain]
    ensures |r| == 5
  {
    if domain in PromptsByDomain then PromptsByDomain[domain] else General
  }

  const Lead := "Use my context to tailor suggestions: "

  /** The personalised prompt: the first 80 characters of the context, then "..." when the
      context is longer. */
  function Personalized(context: string): (p: string)
    ensures Lead <= p
    ensures |context| <= 80 ==> p == Lead + context
    ensures |context| > 80 ==> p == Lead + context[..80] + "..."
  {
    Lead + context[..Min(80, |context|)] + (if |context| > 80 then "..." else "")
  }

  /** The `prompts` memo. */
  function Prompts(s: Settings): (r: seq<string>)
    ensures s.longTermContext != "" && s.rememberLongTermContext ==>
      |r| == |BasePrompts(s.domainFocus)| + 1 && r[0] == Personalized(s.longTermContext)
      && r[1..] == BasePrompts(s.domainFocus)
    ensures !(s.longTermContext != "" && s.rememberLongTermContext) ==> r == BasePrompts(s.domainFocus)
    ensures 5 <= |r| <= 6
  {
    var base := BasePrompts(s.domainFocus);
    if s.longTermContext != "" && s.rememberLongTermContext then [Personalized(s.longTermContext)] + base
    else base
  }

  /** `prompts[currentPromptIndex] ?? prompts[0]`. */
  function CurrentPrompt(prompts: seq<string>, index: nat): (p: string)
    requires prompts != []
    ensures index < |prompts| ==> p == prompts[index]
    ensures index >= |prompts| ==> p == prompts[0]
    ensures p in prompts
  {
    if index < |prompts| then prompts[index] else prompts[0]
  }

  /** The component's index and visibility state. */
  class PromptRotator {
    var currentPromptIndex: nat
    var isVisible: bool

    constructor ()
      ensures currentPromptIndex == 0 && isVisible
    {
      currentPromptIndex := 0;
      isVisible := true;
    }

    /** The 4-second interval: the prompt fades out. */
    method FadeOut()
      modifies this
      ensures !isVisible && currentPromptIndex == old(currentPromptIndex)
    {
      isVisible := false;
    }

    /** The 300 ms timeout: the next prompt, wrapping around, and visible again. */
    method Advance(promptCount: nat)
      requires promptCount > 0
      modifies this
      ensures currentPromptIndex == (old(currentPromptIndex) + 1) % promptCount
      ensures currentPromptIndex < promptCount && isVisible
    {
      currentPromptIndex := (currentPromptIndex + 1) % promptCount;
      isVisible := true;
    }

    /** The prompt on screen for the current settings. */
    method Current(s: Settings) returns (p: string)
      ensures p == CurrentPrompt(Prompts(s), currentPromptIndex)
    {
      var prompts := Prompts(s);
      if currentPromptIndex < |prompts| {
        p := prompts[currentPromptIndex];
      } else {
        p := prompts[0];
      }
    }
  }
}
