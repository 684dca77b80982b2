/**
 * The user-facing texts of the assistant: the welcome message, the daily
 * greeting, the suggestion, the replies to a user message, and the hidden
 * instruction block. Each is a choice of the first matching case over the
 * snapshot (and the optional daily context), stated here as a decision table
 * over "some goal / task is not completed" rather than over filtered lists.
 */
module Messages {
  import opened Wrappers
  import opened Text
  import opened Snapshot

  /** The per-call daily context; an absent `isFirstVisitToday` reads as `false`. */
  datatype DailyContext = DailyContext(
    isFirstVisitToday: bool,
    lastVisitTimestamp: Option<string>,
    completedTodayTasks: int,
    pendingHighPriorityTasks: int)

  predicate FirstVisit(daily: Option<DailyContext>) {
    daily.Some? && daily.value.isFirstVisitToday
  }

  ghost predicate HasOpenGoal(c: UserContext) {
    AnyKept(ListOrEmpty(c.goals), GoalOpen)
  }

  ghost predicate HasOpenTask(c: UserContext) {
    AnyKept(ListOrEmpty(c.tasks), TaskOpen)
  }

  /** Number of goals, resp. tasks, whose status is not `completed`. */
  function OpenGoalCount(goals: seq<Goal>): nat {
    |KeptIndices(goals, GoalOpen)|
  }

  function OpenTaskCount(tasks: seq<Task>): nat {
    |KeptIndices(tasks, TaskOpen)|
  }

  lemma OpenGoalFilter(goals: seq<Goal>)
    ensures |Filter(goals, GoalOpen)| == OpenGoalCount(goals)
    ensures OpenGoalCount(goals) > 0 <==> AnyKept(goals, GoalOpen)
  {
    FilterByIndices(goals, GoalOpen);
    FilterEmptyIff(goals, GoalOpen);
  }

  lemma OpenTaskFilter(tasks: seq<Task>)
    ensures |Filter(tasks, TaskOpen)| == OpenTaskCount(tasks)
    ensures OpenTaskCount(tasks) > 0 <==> AnyKept(tasks, TaskOpen)
  {
    FilterByIndices(tasks, TaskOpen);
    FilterEmptyIff(tasks, TaskOpen);
  }

  // ------------------------------------------------------- welcome message

  function Quote(s: string): string {
    "\"" + s + "\""
  }

  /** A goal as the welcome message names it: quoted, falling back to `Цель {id}`. */
  function WelcomeTitle(g: Goal): string {
    Quote(GoalLabel(g, "Цель " + g.id))
  }

  /**
   * The titles the welcome message lists: one per goal whose status is not
   * `completed`, in list order, and no other.
   */
  function WelcomeTitles(goals: seq<Goal>): (titles: seq<string>)
    ensures |titles| == OpenGoalCount(goals)
    ensures forall k :: 0 <= k < |titles| ==>
              titles[k] == WelcomeTitle(goals[KeptIndices(goals, GoalOpen)[k]])
  {
    var open := Filter(goals, GoalOpen);
    FilterByIndices(goals, GoalOpen);
    seq(|open|, k requires 0 <= k < |open| => WelcomeTitle(open[k]))
  }

  /** The four welcome templates, with what each one interpolates. */
  datatype Welcome =
    | Returning(name: string)
    | WorkingOnGoals(name: string, titles: seq<string>)
    | PendingTasks(name: string, pending: nat)
    | Onboarding(name: string)

  /**
   * The choice `generateWelcomeMessage` makes: first visit today, then open
   * goals, then open tasks, then onboarding; the name falls back to `друг`.
   */
  function SelectWelcome(c: UserContext, daily: Option<DailyContext>): (w: Welcome)
    ensures w.name == DisplayName(c.dbUser, "друг")
    ensures FirstVisit(daily) <==> w.Returning?
    ensures !FirstVisit(daily) && HasOpenGoal(c) <==> w.WorkingOnGoals?
    ensures w.WorkingOnGoals? ==> w.titles == WelcomeTitles(ListOrEmpty(c.goals))
    ensures !FirstVisit(daily) && !HasOpenGoal(c) && HasOpenTask(c) <==> w.PendingTasks?
    ensures w.PendingTasks? ==> w.pending == OpenTaskCount(ListOrEmpty(c.tasks)) > 0
  {
    var goals, tasks := ListOrEmpty(c.goals), ListOrEmpty(c.tasks);
    var name := DisplayName(c.dbUser, "друг");
    if daily.Some? && daily.value.isFirstVisitToday then
      Returning(name)
    else
      OpenGoalFilter(goals);
      if |goals| > 0 && |Filter(goals, GoalOpen)| > 0 then
        WorkingOnGoals(name, WelcomeTitles(goals))
      else
        OpenTaskFilter(tasks);
        if |tasks| > 0 && |Filter(tasks, TaskOpen)| > 0 then
          PendingTasks(name, |Filter(tasks, TaskOpen)|)
        else
          Onboarding(name)
  }

  function RenderWelcome(w: Welcome): string {
    match w
    case Returning(name) =>
      "С возвращением, " + name + "! Готов помочь тебе сегодня."
    case WorkingOnGoals(name, titles) =>
      GoalsWelcomeStart(name) + Join(titles, ", ") + GoalsWelcomeEnd
    case PendingTasks(name, pending) =>
      TasksWelcomeStart(name) + NatToString(pending) + TasksWelcomeEnd
    case Onboarding(name) =>
      "Привет, " + name + "! Я твой ИИ-ассистент. Давай поставим для тебя значимые цели. Чего хочешь достичь?"
  }

  function GoalsWelcomeStart(name: string): string {
    "Привет, " + name + "! Ты работаешь над целями: "
  }

  const GoalsWelcomeEnd := ". Чем могу помочь продвинуться сегодня?"

  function TasksWelcomeStart(name: string): string {
    "Привет, " + name + "! У тебя "
  }

  const TasksWelcomeEnd := " незавершённых задач. С чего начнём?"

  /** `generateWelcomeMessage`. */
  function WelcomeMessage(c: UserContext, daily: Option<DailyContext>): string {
    RenderWelcome(SelectWelcome(c, daily))
  }

  /** Unless it is a first visit, every goal not yet completed is named, quoted, in the welcome. */
  lemma WelcomeNamesEveryOpenGoal(c: UserContext, daily: Option<DailyContext>, i: nat)
    requires !FirstVisit(daily)
    requires i < |ListOrEmpty(c.goals)| && GoalOpen(ListOrEmpty(c.goals)[i])
    ensures IsInfix(WelcomeTitle(ListOrEmpty(c.goals)[i]), WelcomeMessage(c, daily))
  {
    var goals := ListOrEmpty(c.goals);
    var idx := KeptIndices(goals, GoalOpen);
    var titles := WelcomeTitles(goals);
    assert i in idx;
    var k :| 0 <= k < |idx| && idx[k] == i;
    JoinContains(titles, ", ", k);
    var name := DisplayName(c.dbUser, "друг");
    InfixWiden(titles[k], Join(titles, ", "), GoalsWelcomeStart(name), GoalsWelcomeEnd);
  }

  /** The open-task welcome text alone fixes both the name and the count, whatever the names. */
  lemma PendingTasksWelcomeInjective(name1: string, a: nat, name2: string, b: nat)
    requires RenderWelcome(PendingTasks(name1, a)) == RenderWelcome(PendingTasks(name2, b))
    ensures a == b && name1 == name2
  {
    var s1, s2 := TasksWelcomeStart(name1), TasksWelcomeStart(name2);
    assert s1[|s1| - 1] == ' ' && s2[|s2| - 1] == ' ';
    AfterTextNatInjective(s1, s2, TasksWelcomeEnd, a, b);
    assert name1 == s1[|"Привет, "| .. |s1| - |"! У тебя "|];
    assert name2 == s2[|"Привет, "| .. |s2| - |"! У тебя "|];
  }

  // -------------------------------------------------------- daily greeting

  /** The five daily-greeting templates, with what each one interpolates. */
  datatype Greeting =
    | WelcomeBack(name: string, completed: int, pending: int)
    | GoodToSee(name: string, pending: int)
    | StartJourney(name: string)
    | ContinueGoals(name: string, activeGoals: nat, pendingTasks: nat)
    | HowCanIHelp(name: string)

  /**
   * The choice `generateDailyGreeting` makes: a first visit wins (with or
   * without a last-visit time); then a missing goal or task list; then open
   * goals; else a plain hello. An empty list is not a missing one. The name
   * falls back to `there`.
   */
  function SelectGreeting(c: UserContext, daily: DailyContext): (g: Greeting)
    ensures g.name == DisplayName(c.dbUser, "there")
    ensures daily.isFirstVisitToday && Present(daily.lastVisitTimestamp) <==> g.WelcomeBack?
    ensures daily.isFirstVisitToday && !Present(daily.lastVisitTimestamp) <==> g.GoodToSee?
    ensures g.WelcomeBack? ==> g.completed == daily.completedTodayTasks && g.pending == daily.pendingHighPriorityTasks
    ensures g.GoodToSee? ==> g.pending == daily.pendingHighPriorityTasks
    ensures !daily.isFirstVisitToday && (c.goals.None? || c.tasks.None?) <==> g.StartJourney?
    ensures !daily.isFirstVisitToday && c.goals.Some? && c.tasks.Some? && HasOpenGoal(c) <==> g.ContinueGoals?
    ensures g.ContinueGoals? ==>
              g.activeGoals == OpenGoalCount(c.goals.value) > 0 && g.pendingTasks == OpenTaskCount(c.tasks.value)
  {
    var name := DisplayName(c.dbUser, "there");
    if daily.isFirstVisitToday then
      if Present(daily.lastVisitTimestamp) then
        WelcomeBack(name, daily.completedTodayTasks, daily.pendingHighPriorityTasks)
      else
        GoodToSee(name, daily.pendingHighPriorityTasks)
    else if c.goals.None? || c.tasks.None? then
      StartJourney(name)
    else
      var activeGoals := Filter(c.goals.value, GoalOpen);
      var pendingTasks := Filter(c.tasks.value, TaskOpen);
      OpenGoalFilter(c.goals.value);
      OpenTaskFilter(c.tasks.value);
      if |activeGoals| > 0 then
        ContinueGoals(name, |activeGoals|, |pendingTasks|)
      else
        HowCanIHelp(name)
  }

  function RenderGreeting(g: Greeting): string {
    match g
    case WelcomeBack(name, completed, pending) =>
      "Welcome back, " + name + "! Since your last visit, you've completed " + IntToString(completed)
        + " tasks. You have " + IntToString(pending) + " tasks that need attention."
    case GoodToSee(name, pending) =>
      "Good to see you, " + name + "! You have " + IntToString(pending) + " tasks waiting for you today."
    case StartJourney(name) =>
      "Hi " + name + "! Let's get started with your journey."
    case ContinueGoals(name, activeGoals, pendingTasks) =>
      "Hi " + name + "! Let's continue working on your goals. You have " + NatToString(activeGoals)
        + " active goals and " + NatToString(pendingTasks) + " pending tasks."
    case HowCanIHelp(name) =>
      "Hi " + name + "! How can I help you today?"
  }

  /** `generateDailyGreeting`. */
  function DailyGreeting(c: UserContext, daily: DailyContext): string {
    RenderGreeting(SelectGreeting(c, daily))
  }

  // ---------------------------------------------------- interesting suggestion

  const StartSuggestion := "Let's start by setting some goals for you. What would you like to achieve?"
  const SetGoalsSuggestion := "Would you like to set some goals? I can help you create a plan to achieve them."
  const NewChallengesSuggestion := "Great job on keeping up with your tasks! Would you like to take on new challenges?"
  const FocusSuggestion := "I'm here to help you make progress on your goals. What would you like to focus on today?"

  /** `generateInterestingSuggestion`: a missing list, then no open goal, then no open task, else focus. */
  function InterestingSuggestion(c: UserContext): (r: string)
    ensures c.goals.None? || c.tasks.None? ==> r == StartSuggestion
    ensures c.goals.Some? && c.tasks.Some? && !HasOpenGoal(c) ==> r == SetGoalsSuggestion
    ensures c.goals.Some? && c.tasks.Some? && HasOpenGoal(c) && !HasOpenTask(c) ==> r == NewChallengesSuggestion
    ensures c.goals.Some? && c.tasks.Some? && HasOpenGoal(c) && HasOpenTask(c) ==> r == FocusSuggestion
  {
    if c.goals.None? || c.tasks.None? then
      StartSuggestion
    else
      var activeGoals := Filter(c.goals.value, GoalOpen);
      var pendingTasks := Filter(c.tasks.value, TaskOpen);
      OpenGoalFilter(c.goals.value);
      OpenTaskFilter(c.tasks.value);
      if |activeGoals| == 0 then SetGoalsSuggestion
      else if |pendingTasks| == 0 then NewChallengesSuggestion
      else FocusSuggestion
  }

  // ------------------------------------------------- replies to a user message

  const NoGoalsReply := "У тебя пока нет целей. Хочешь создать первую цель?"
  const ThanksReply := "Спасибо за сообщение! Я готов помочь с твоими целями и задачами."

  function PendingTasksReply(pending: nat): string {
    "У тебя " + NatToString(pending) + " незавершённых задач. С какой начнём? Или задай вопрос!"
  }

  /** The three replies are told apart by their text, and the pending count can be read back. */
  lemma RepliesDistinct(a: nat, b: nat)
    ensures PendingTasksReply(a) != NoGoalsReply
    ensures PendingTasksReply(a) != ThanksReply
    ensures NoGoalsReply != ThanksReply
    ensures PendingTasksReply(a) == PendingTasksReply(b) ==> a == b
  {
    var r := PendingTasksReply(a);
    assert r[|r| - 1] == '!';
    if PendingTasksReply(a) == PendingTasksReply(b) {
      FramedNatInjective("У тебя ", " незавершённых задач. С какой начнём? Или задай вопрос!", a, b);
    }
  }

  // ------------------------------------------------- hidden system instructions

  /** The fixed text before and after the two interpolated summary lines (abbreviated). */
  const InstructionsOpening :=
    "You are a personal AI assistant in the WeAi platform - a decentralized social platform and public life-support system. \n"
    + "Your mission is to help users achieve their dreams and solve their problems through personalized guidance and support.\n\n"
    + "CURRENT USER CONTEXT:\n"
  const InstructionsClosing :=
    "\n\nRemember: Your role is to be a trusted guide and supporter, helping users transform their dreams into reality through practical, actionable steps and continuous support."

  const NoGoalsLine := "No goals loaded currently."
  const NoTasksLine := "No tasks loaded currently."

  /** A goal as the instructions name it: `title`, then `goal.title`, then `Goal {id}`. */
  function InstructionGoalTitle(g: Goal): string {
    GoalLabel(g, "Goal " + g.id)
  }

  /** A task as the instructions name it: only `task.task?.title`, then `Task {id}`; `task.title` is not read. */
  function InstructionTaskTitle(t: Task): string {
    if Present(t.nestedTitle) then t.nestedTitle.value else "Task " + t.id
  }

  function InstructionGoalTitles(goals: seq<Goal>): seq<string> {
    seq(|goals|, k requires 0 <= k < |goals| => InstructionGoalTitle(goals[k]))
  }

  function InstructionTaskTitles(tasks: seq<Task>): seq<string> {
    seq(|tasks|, k requires 0 <= k < |tasks| => InstructionTaskTitle(tasks[k]))
  }

  /** The goals line: the placeholder exactly when there is no goal. */
  function GoalsSummary(goals: Option<seq<Goal>>): (line: string)
    ensures line == NoGoalsLine <==> goals.None? || |goals.value| == 0
  {
    if goals.Some? && |goals.value| > 0 then
      var line := "Current goals: " + Join(InstructionGoalTitles(goals.value), ", ");
      assert line[0] != NoGoalsLine[0];
      line
    else
      NoGoalsLine
  }

  /** The tasks line: the placeholder exactly when there is no task. */
  function TasksSummary(tasks: Option<seq<Task>>): (line: string)
    ensures line == NoTasksLine <==> tasks.None? || |tasks.value| == 0
  {
    if tasks.Some? && |tasks.value| > 0 then
      var line := "Current tasks: " + Join(InstructionTaskTitles(tasks.value), ", ");
      assert line[0] != NoTasksLine[0];
      line
    else
      NoTasksLine
  }

  /**
   * A non-empty goals line names the first goal, then every later goal in list
   * order, each after `, `, and nothing else.
   */
  lemma GoalsSummaryInOrder(goals: seq<Goal>)
    requires |goals| > 0
    ensures GoalsSummary(Some(goals))
            == "Current goals: " + InstructionGoalTitle(goals[0])
               + Concat(Prefixed(InstructionGoalTitles(goals[1..]), ", "))
  {
    var titles := InstructionGoalTitles(goals);
    JoinInOrder(titles, ", ");
    assert titles[1..] == InstructionGoalTitles(goals[1..]);
    AppendAssoc("Current goals: ", titles[0], Concat(Prefixed(titles[1..], ", ")));
  }

  /**
   * A non-empty tasks line names the first task, then every later task in list
   * order, each after `, `, and nothing else.
   */
  lemma TasksSummaryInOrder(tasks: seq<Task>)
    requires |tasks| > 0
    ensures TasksSummary(Some(tasks))
            == "Current tasks: " + InstructionTaskTitle(tasks[0])
               + Concat(Prefixed(InstructionTaskTitles(tasks[1..]), ", "))
  {
    var titles := InstructionTaskTitles(tasks);
    JoinInOrder(titles, ", ");
    assert titles[1..] == InstructionTaskTitles(tasks[1..]);
    AppendAssoc("Current tasks: ", titles[0], Concat(Prefixed(titles[1..], ", ")));
  }

  /** `generateSystemInstructions`: fixed text around the goals line and the tasks line. */
  function SystemInstructions(c: UserContext): string {
    InstructionsOpening + GoalsSummary(c.goals) + "\n" + TasksSummary(c.tasks) + InstructionsClosing
  }

  /** Every goal of a list is named in the instructions. */
  lemma InstructionsNameEveryGoal(c: UserContext, i: nat)
    requires c.goals.Some? && i < |c.goals.value|
    ensures IsInfix(InstructionGoalTitle(c.goals.value[i]), SystemInstructions(c))
  {
    var titles := InstructionGoalTitles(c.goals.value);
    JoinContains(titles, ", ", i);
    InfixWiden(titles[i], Join(titles, ", "), "Current goals: ", "");
    assert GoalsSummary(c.goals) == "Current goals: " + Join(titles, ", ") + "";
    InfixWiden(titles[i], GoalsSummary(c.goals), InstructionsOpening,
               "\n" + TasksSummary(c.tasks) + InstructionsClosing);
    assert SystemInstructions(c) == InstructionsOpening + GoalsSummary(c.goals) + ("\n" + TasksSummary(c.tasks) + InstructionsClosing);
  }

  /** Every task of a list is named in the instructions (by its nested title or `Task {id}`). */
  lemma InstructionsNameEveryTask(c: UserContext, i: nat)
    requires c.tasks.Some? && i < |c.tasks.value|
    ensures IsInfix(InstructionTaskTitle(c.tasks.value[i]), SystemInstructions(c))
  {
    var titles := InstructionTaskTitles(c.tasks.value);
    JoinContains(titles, ", ", i);
    InfixWiden(titles[i], Join(titles, ", "), "Current tasks: ", "");
    assert TasksSummary(c.tasks) == "Current tasks: " + Join(titles, ", ") + "";
    InfixWiden(titles[i], TasksSummary(c.tasks), InstructionsOpening + GoalsSummary(c.goals) + "\n",
               InstructionsClosing);
  }

  /** Two task lists that differ only in `task.title` give the same instructions. */
  lemma InstructionsIgnoreTaskTitle(c: UserContext, other: seq<Task>)
    requires c.tasks.Some? && |other| == |c.tasks.value|
    requires forall i :: 0 <= i < |other| ==>
               other[i].id == c.tasks.value[i].id && other[i].nestedTitle == c.tasks.value[i].nestedTitle
    ensures SystemInstructions(c.(tasks := Some(other))) == SystemInstructions(c)
  {
    assert InstructionTaskTitles(other) == InstructionTaskTitles(c.tasks.value);
  }
}
