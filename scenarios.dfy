/**
 * The static scenario prompts: eight named templates over a profile, looked up
 * by key, with `daily_planning` as the default for any other key.
 */
module Scenarios {
  import opened Wrappers
  import opened Text

  datatype Scenario =
    | GoalPlanning
    | TaskHelp
    | ProgressReview
    | ResourceSuggestion
    | MotivationBoost
    | DailyPlanning
    | SkillDevelopment
    | GoalReflection

  function Key(s: Scenario): string {
    match s
    case GoalPlanning => "goal_planning"
    case TaskHelp => "task_help"
    case ProgressReview => "progress_review"
    case ResourceSuggestion => "resource_suggestion"
    case MotivationBoost => "motivation_boost"
    case DailyPlanning => "daily_planning"
    case SkillDevelopment => "skill_development"
    case GoalReflection => "goal_reflection"
  }

  /** The scenario a key names, or none when the key is not one of the eight. */
  function Lookup(key: string): (r: Option<Scenario>)
    ensures r.Some? ==> Key(r.value) == key
    ensures r.None? ==> forall s: Scenario :: Key(s) != key
  {
    if key == "goal_planning" then Some(GoalPlanning)
    else if key == "task_help" then Some(TaskHelp)
    else if key == "progress_review" then Some(ProgressReview)
    else if key == "resource_suggestion" then Some(ResourceSuggestion)
    else if key == "motivation_boost" then Some(MotivationBoost)
    else if key == "daily_planning" then Some(DailyPlanning)
    else if key == "skill_development" then Some(SkillDevelopment)
    else if key == "goal_reflection" then Some(GoalReflection)
    else None
  }

  /** Every scenario's own key finds it. */
  lemma LookupKey(s: Scenario)
    ensures Lookup(Key(s)) == Some(s)
  {
  }

  /** `context.profile`; `skills` and `interests` are the arrays the templates join. */
  datatype Profile = Profile(
    name: string,
    level: int,
    skills: Option<seq<string>>,
    interests: Option<seq<string>>)

  datatype PromptContext = PromptContext(profile: Option<Profile>)

  /**
   * The prompt table is built in full before the lookup, so every template is
   * evaluated: a missing profile, skills list or interests list throws a
   * TypeError whatever the scenario.
   */
  predicate Evaluable(c: PromptContext) {
    c.profile.Some? && c.profile.value.skills.Some? && c.profile.value.interests.Some?
  }

  function Template(s: Scenario, p: Profile): string
    requires p.skills.Some? && p.interests.Some?
  {
    var name, level := p.name, IntToString(p.level);
    var skills, interests := Join(p.skills.value, ", "), Join(p.interests.value, ", ");
    match s
    case GoalPlanning =>
      "As an AI assistant helping " + name + " (Level " + level + "), analyze their goal and create an actionable plan. Consider their skills (" + skills + ") and current tasks. Break down the goal into specific, achievable steps. Focus on practical actions and available resources."
    case TaskHelp =>
      "You're assisting " + name + " with their current task. Consider their goal context, skill level (" + level + "), and previous progress. Provide specific, actionable advice that moves them forward. Include relevant resources or techniques based on their skills (" + skills + ")."
    case ProgressReview =>
      "Review " + name + "'s progress on their goals and tasks. Acknowledge achievements, identify challenges, and suggest next steps. Consider their level (" + level + ") and skills. Provide constructive feedback and specific recommendations for improvement."
    case ResourceSuggestion =>
      "Based on " + name + "'s goals, tasks, and interests (" + interests + "), recommend relevant resources, tools, or approaches. Consider their skill level (" + level + ") and prioritize practical, accessible options."
    case MotivationBoost =>
      "Craft an encouraging message for " + name + " that acknowledges their progress (Level " + level + ") and current challenges. Reference their specific goals and achievements. Provide actionable steps to maintain momentum."
    case DailyPlanning =>
      "Help " + name + " plan their day effectively. Consider their high-priority tasks, ongoing goals, and skill level (" + level + "). Suggest a balanced approach that makes meaningful progress while remaining achievable."
    case SkillDevelopment =>
      "Guide " + name + " in developing skills relevant to their goals. Consider their current level (" + level + "), existing skills (" + skills + "), and immediate objectives. Suggest specific learning resources and practice activities."
    case GoalReflection =>
      "Help " + name + " reflect on their goals and progress. Consider their interests (" + interests + "), current level (" + level + "), and achievements. Guide them in adjusting or refining their objectives based on their experience."
  }

  /** `generateContextBasedPrompt`; `None` is the TypeError the source throws. */
  function ContextBasedPrompt(c: PromptContext, scenario: string): (r: Option<string>)
    ensures r.None? <==> !Evaluable(c)
  {
    if !Evaluable(c) then None
    else Some(Template(Lookup(scenario).GetOr(DailyPlanning), c.profile.value))
  }

  /** Any key outside the eight gives exactly the `daily_planning` prompt. */
  lemma UnknownScenarioFallsBack(c: PromptContext, scenario: string)
    requires Lookup(scenario).None?
    ensures ContextBasedPrompt(c, scenario) == ContextBasedPrompt(c, Key(DailyPlanning))
  {
    LookupKey(DailyPlanning);
  }

  /** Each of the eight keys gives its own template. */
  lemma KnownScenarioTemplate(c: PromptContext, s: Scenario)
    requires Evaluable(c)
    ensures ContextBasedPrompt(c, Key(s)) == Some(Template(s, c.profile.value))
  {
    LookupKey(s);
  }
}
