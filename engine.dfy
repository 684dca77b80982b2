/**
 * `AIAssistantEngine`: the dialogue state (scenario step and chat history)
 * bound to one user snapshot. Only the constructor and `Reset` write the
 * state; every other member reads it.
 */
module Engine {
  import opened Wrappers
  import opened Text
  import opened Snapshot
  import Messages
  import Prompts
  import Scenarios

  /** The scenario stage the engine sets; it never sets another. */
  const InitStep := "init"

  /** `{ step }`: the only field the engine ever gives its scenario state. */
  datatype ScenarioState = ScenarioState(step: string)

  datatype ChatTurn = ChatTurn(sender: string, text: string, timestamp: string)

  datatype EngineOptions = EngineOptions(userContext: Option<UserContext>)

  class AIAssistantEngine {
    var userContext: Option<UserContext>
    var scenarioState: ScenarioState
    var chatHistory: seq<ChatTurn>

    constructor (options: EngineOptions)
      ensures userContext == options.userContext
      ensures scenarioState == ScenarioState(InitStep)
      ensures chatHistory == []
    {
      userContext := options.userContext;
      scenarioState := ScenarioState(InitStep);
      chatHistory := [];
    }

    /** Back to step `init` with no history; the snapshot is replaced only when one is given. */
    method Reset(context: Option<UserContext>)
      modifies this
      ensures scenarioState == ScenarioState(InitStep)
      ensures chatHistory == []
      ensures userContext == if context.Some? then context else old(userContext)
    {
      if context.Some? {
        userContext := context;
      }
      scenarioState := ScenarioState(InitStep);
      chatHistory := [];
    }

    method GetCurrentScenarioState() returns (state: ScenarioState)
      ensures state == scenarioState
    {
      state := scenarioState;
    }

    /**
     * `handleUserMessage`: a missing or empty goal list wins; then the count of
     * open tasks when there is one; then a generic thanks. The message text is
     * not read, the reply is never empty, and no field changes.
     */
    method HandleUserMessage(message: string) returns (reply: string)
      ensures var c := Current(userContext);
              c.goals.None? || |c.goals.value| == 0 ==> reply == Messages.NoGoalsReply
      ensures var c := Current(userContext);
              c.goals.Some? && |c.goals.value| > 0 && AnyKept(ListOrEmpty(c.tasks), TaskOpen) ==>
                reply == Messages.PendingTasksReply(Messages.OpenTaskCount(ListOrEmpty(c.tasks)))
      ensures var c := Current(userContext);
              c.goals.Some? && |c.goals.value| > 0 && !AnyKept(ListOrEmpty(c.tasks), TaskOpen) ==>
                reply == Messages.ThanksReply
      ensures reply != ""
    {
      var c := Current(userContext);
      if c.goals.None? || |c.goals.value| == 0 {
        return Messages.NoGoalsReply;
      }
      var tasks := ListOrEmpty(c.tasks);
      var pending := Filter(tasks, TaskOpen);
      Messages.OpenTaskFilter(tasks);
      if |pending| > 0 {
        reply := Messages.PendingTasksReply(|pending|);
      } else {
        reply := Messages.ThanksReply;
      }
    }

    /** `generateSystemPrompt`: the header, then a `+=` loop over the goals and one over the tasks. */
    method GenerateSystemPrompt() returns (prompt: string)
      ensures prompt == Prompts.SystemPrompt(Current(userContext))
    {
      var c := Current(userContext);
      var header := Prompts.PromptHeader(c);
      prompt := header;
      if c.goals.Some? && |c.goals.value| > 0 {
        prompt := AppendGoalLines(prompt + Prompts.GoalsHeading, c.goals.value);
        AppendAssoc(header, Prompts.GoalsHeading, Concat(Prompts.GoalLines(c.goals.value)));
        assert prompt == header + (Prompts.GoalsHeading + Concat(Prompts.GoalLines(c.goals.value)));
      }
      assert prompt == header + Prompts.GoalSection(c.goals);
      ghost var withGoals := prompt;
      if c.tasks.Some? && |c.tasks.value| > 0 {
        prompt := AppendTaskLines(prompt + Prompts.TasksHeading, c.tasks.value);
        AppendAssoc(withGoals, Prompts.TasksHeading, Concat(Prompts.TaskLines(c.tasks.value)));
        assert prompt == withGoals + (Prompts.TasksHeading + Concat(Prompts.TaskLines(c.tasks.value)));
      }
      assert prompt == withGoals + Prompts.TaskSection(c.tasks);
    }

    /** The goals loop of `generateSystemPrompt`: one line per goal, in order. */
    static method AppendGoalLines(start: string, goals: seq<Goal>) returns (prompt: string)
      ensures prompt == start + Concat(Prompts.GoalLines(goals))
    {
      ghost var lines := Prompts.GoalLines(goals);
      prompt := start;
      for i := 0 to |goals|
        invariant prompt == start + Concat(lines[..i])
      {
        ConcatSnoc(lines, i);
        AppendAssoc(start, Concat(lines[..i]), lines[i]);
        prompt := prompt + Prompts.GoalLine(goals[i]);
      }
      assert lines[..|goals|] == lines;
    }

    /** The tasks loop of `generateSystemPrompt`: one line per task, in order. */
    static method AppendTaskLines(start: string, tasks: seq<Task>) returns (prompt: string)
      ensures prompt == start + Concat(Prompts.TaskLines(tasks))
    {
      ghost var lines := Prompts.TaskLines(tasks);
      prompt := start;
      for i := 0 to |tasks|
        invariant prompt == start + Concat(lines[..i])
      {
        ConcatSnoc(lines, i);
        AppendAssoc(start, Concat(lines[..i]), lines[i]);
        prompt := prompt + Prompts.TaskLine(tasks[i]);
      }
      assert lines[..|tasks|] == lines;
    }

    function GenerateWelcomeMessage(daily: Option<Messages.DailyContext>): string
      reads this
    {
      Messages.WelcomeMessage(Current(userContext), daily)
    }

    function GenerateSystemInstructions(): string
      reads this
    {
      Messages.SystemInstructions(Current(userContext))
    }

    function GenerateDailyGreeting(daily: Messages.DailyContext): string
      reads this
    {
      Messages.DailyGreeting(Current(userContext), daily)
    }

    function GenerateInterestingSuggestion(): string
      reads this
    {
      Messages.InterestingSuggestion(Current(userContext))
    }

    static function GenerateContextBasedPrompt(context: Scenarios.PromptContext, scenario: string): Option<string> {
      Scenarios.ContextBasedPrompt(context, scenario)
    }
  }
}
