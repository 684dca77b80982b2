/**
 * The hidden system prompt: a header with the user's name, level and the two
 * list sizes, then one line per goal and one line per task, each section
 * present only when its list is non-empty.
 */
module Prompts {
  import opened Wrappers
  import opened Text
  import opened Snapshot

  /** `dbUser?.level || 'не указан'`: level 0 counts as absent. */
  function LevelText(user: Option<DbUser>): (s: string)
    ensures user.Some? && PresentNumber(user.value.level) ==> s == IntToString(user.value.level.value)
    ensures user.None? || !PresentNumber(user.value.level) ==> s == "не указан"
    ensures s == "не указан" <==> !(user.Some? && PresentNumber(user.value.level))
  {
    if user.Some? && PresentNumber(user.value.level) then IntToString(user.value.level.value) else "не указан"
  }

  /** `goal.difficulty_level || 'не указана'`. */
  function DifficultyText(level: Option<int>): (s: string)
    ensures PresentNumber(level) ==> s == IntToString(level.value)
    ensures !PresentNumber(level) ==> s == "не указана"
    ensures s == "не указана" <==> !PresentNumber(level)
  {
    if PresentNumber(level) then IntToString(level.value) else "не указана"
  }

  function HeaderStart(name: string, level: string): string {
    "Контекст пользователя:\nИмя: " + name + "\nУровень: " + level + "\nЦелей: "
  }

  const TaskCountLabel := "\nЗадач: "

  function Header(name: string, level: string, goalCount: nat, taskCount: nat): string {
    HeaderStart(name, level) + NatToString(goalCount) + TaskCountLabel + NatToString(taskCount) + "\n"
  }

  /** The header for a snapshot: a missing list counts as 0 entries. */
  function PromptHeader(c: UserContext): string {
    Header(DisplayName(c.dbUser, "Пользователь"), LevelText(c.dbUser), CountOrZero(c.goals), CountOrZero(c.tasks))
  }

  /**
   * The counts can be read back from the header alone: two headers are equal
   * only when both counts are, whatever the names and levels.
   */
  lemma HeaderDeterminesCounts(name1: string, level1: string, g1: nat, t1: nat,
                               name2: string, level2: string, g2: nat, t2: nat)
    requires Header(name1, level1, g1, t1) == Header(name2, level2, g2, t2)
    ensures g1 == g2 && t1 == t2
  {
    var start1, start2 := HeaderStart(name1, level1), HeaderStart(name2, level2);
    var front1 := start1 + NatToString(g1) + TaskCountLabel;
    var front2 := start2 + NatToString(g2) + TaskCountLabel;
    assert front1[|front1| - 1] == ' ' && front2[|front2| - 1] == ' ';
    AfterTextNatInjective(front1, front2, "\n", t1, t2);
    var w := start1 + NatToString(g1);
    assert front1 == w + TaskCountLabel;
    assert w == front1[..|front1| - |TaskCountLabel|];
    assert start2 + NatToString(g2) == front2[..|front2| - |TaskCountLabel|];
    assert start1 + NatToString(g1) + "" == start2 + NatToString(g2) + "";
    assert start1[|start1| - 1] == ' ' && start2[|start2| - 1] == ' ';
    AfterTextNatInjective(start1, start2, "", g1, g2);
  }

  /** One goal line; an untitled goal prints `Без названия`. */
  function GoalLine(g: Goal): string {
    "- " + GoalLabel(g, "Без названия") + " (статус: " + g.status + ", сложность: " + DifficultyText(g.difficultyLevel) + ")\n"
  }

  /** One task line: `task.title`, then `task.task?.title`, then `Без названия`. */
  function TaskLine(t: Task): string {
    "- " + FirstPresent(t.title, t.nestedTitle, "Без названия") + " (статус: " + t.status + ")\n"
  }

  function GoalLines(goals: seq<Goal>): (lines: seq<string>)
    ensures |lines| == |goals|
    ensures forall k :: 0 <= k < |goals| ==> lines[k] == GoalLine(goals[k])
  {
    seq(|goals|, k requires 0 <= k < |goals| => GoalLine(goals[k]))
  }

  function TaskLines(tasks: seq<Task>): (lines: seq<string>)
    ensures |lines| == |tasks|
    ensures forall k :: 0 <= k < |tasks| ==> lines[k] == TaskLine(tasks[k])
  {
    seq(|tasks|, k requires 0 <= k < |tasks| => TaskLine(tasks[k]))
  }

  const GoalsHeading := "\nСписок целей:\n"
  const TasksHeading := "\nСписок задач:\n"

  /** The goals section: absent exactly when the goal list is missing or empty. */
  function GoalSection(goals: Option<seq<Goal>>): (s: string)
    ensures s == "" <==> goals.None? || |goals.value| == 0
  {
    if goals.Some? && |goals.value| > 0 then GoalsHeading + Concat(GoalLines(goals.value)) else ""
  }

  /** The tasks section: absent exactly when the task list is missing or empty. */
  function TaskSection(tasks: Option<seq<Task>>): (s: string)
    ensures s == "" <==> tasks.None? || |tasks.value| == 0
  {
    if tasks.Some? && |tasks.value| > 0 then TasksHeading + Concat(TaskLines(tasks.value)) else ""
  }

  /** `generateSystemPrompt` as a value: the header, then the goals section, then the tasks section. */
  function SystemPrompt(c: UserContext): string {
    PromptHeader(c) + GoalSection(c.goals) + TaskSection(c.tasks)
  }

  /**
   * Goal `i` has exactly one line, after the lines of the goals before it and
   * before the lines of the goals after it.
   */
  lemma GoalLineInOrder(c: UserContext, i: nat)
    requires c.goals.Some? && i < |c.goals.value|
    ensures SystemPrompt(c) ==
              PromptHeader(c) + GoalsHeading + Concat(GoalLines(c.goals.value)[..i])
              + GoalLine(c.goals.value[i]) + Concat(GoalLines(c.goals.value)[i + 1..]) + TaskSection(c.tasks)
  {
    var lines := GoalLines(c.goals.value);
    assert GoalSection(c.goals) == GoalsHeading + Concat(lines);
    SectionSplit(PromptHeader(c), GoalsHeading, lines, i, TaskSection(c.tasks));
  }

  /**
   * Task `i` has exactly one line, after the lines of the tasks before it and
   * before the lines of the tasks after it.
   */
  lemma TaskLineInOrder(c: UserContext, i: nat)
    requires c.tasks.Some? && i < |c.tasks.value|
    ensures SystemPrompt(c) ==
              PromptHeader(c) + GoalSection(c.goals) + TasksHeading + Concat(TaskLines(c.tasks.value)[..i])
              + TaskLine(c.tasks.value[i]) + Concat(TaskLines(c.tasks.value)[i + 1..])
  {
    var lines := TaskLines(c.tasks.value);
    assert TaskSection(c.tasks) == TasksHeading + Concat(lines);
    var before := PromptHeader(c) + GoalSection(c.goals);
    SectionSplit(before, TasksHeading, lines, i, "");
    var whole := before + TasksHeading + Concat(lines[..i]) + lines[i] + Concat(lines[i + 1..]);
    assert whole + "" == whole;
  }
}
