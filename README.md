# WeAi assistant engine — Dafny model

This project models `AIAssistantEngine`, the dialogue helper of the WeAi
Telegram mini-app. The engine holds a user snapshot (`dbUser`, `goals`,
`tasks`), a scenario state whose step is always `init`, and a chat history.
From the snapshot it builds:

- the welcome message and the daily greeting shown to the user;
- a suggestion and the replies to a user message;
- a hidden system prompt and hidden system instructions for a language model;
- eight static scenario prompts looked up by key.

Every user-facing text is chosen as the first matching case of an ordered
list. The contracts state each choice as a decision table over "some goal
(task) is not `completed`". The bodies filter the lists as the code does, and
`OpenGoalFilter` and `OpenTaskFilter` prove that the two readings agree.

Modules:

- `Wrappers`: the `Option` type used for every field the source may leave undefined.
- `Text`: decimal printing of numbers, `join`, `+=` concatenation, and the lemmas
  that let printed text be read back (counts, joined parts, line order).
- `Snapshot`: the typed user context. It also holds JavaScript `||` read as
  "present and non-empty / non-zero", the name and title fallbacks, and
  `.filter` by status with its index characterisation.
- `Messages`: the welcome message, the daily greeting, the suggestion, the
  replies of `handleUserMessage`, and the system instructions.
  - The welcome and the greeting are split into a template choice (`SelectWelcome`,
    `SelectGreeting`) and its rendering (`RenderWelcome`, `RenderGreeting`).
- `Prompts`: the hidden system prompt as a value (header, goals section, tasks section).
- `Scenarios`: the scenario table with its eight keys and its `daily_planning` default.
- `Engine`: the class `AIAssistantEngine`.
  - It has the fields `userContext`, `scenarioState` and `chatHistory`.
  - The constructor and `Reset` are its only writers.
  - `HandleUserMessage` and `GenerateSystemPrompt` are methods without a `modifies`
    clause, so they cannot change any field.
  - The other `generate*` members are functions that read the object.

Inputs that the source takes from its surroundings become parameters:

- the snapshot (`Option<UserContext>`);
- the daily context (`DailyContext`);
- the scenario context (`PromptContext`).

Modelling choices:

- JavaScript `a || b` keeps `a` only when it is defined and truthy. So a string
  counts as present when it is non-empty, and a number (level, difficulty) when it is
  non-zero. That is why level 0 prints `не указан`.
- `goal.goal?.title` and `task.task?.title` are one optional field, `nestedTitle`.
- Ids and statuses are kept as the text they interpolate to.
- Numbers are integers printed in decimal (`IntToString`, `NatToString`).
- `generateContextBasedPrompt` builds all eight templates before the lookup. So a
  missing `profile`, `profile.skills` or `profile.interests` throws a TypeError
  whatever the key. The model returns `None` for that error.

Facts about the code worth knowing when reading the model:

- Names fall back with `||` (components/ai-assistant-engine.ts:77, :109, :243,
  :262): an empty first name falls through to the username, and an empty
  username to the fixed fallback.
- The header comment says the assistant keeps the dialogue history
  (components/ai-assistant-engine.ts:4). But `handleUserMessage`
  (components/ai-assistant-engine.ts:133-145) never appends to `chatHistory`
  and never changes the step. The history is written only by the constructor
  (:48) and by `reset` (:59).
- The daily greeting and the suggestion test `!goals || !tasks`
  (components/ai-assistant-engine.ts:250, :263). An empty list passes that test;
  only a missing list selects the "get started" texts.

## Model

| member | source | states |
|---|---|---|
| Snapshot.Current | components/ai-assistant-engine.ts:74 | a missing snapshot reads as one with no user, no goal list and no task list; a given one is used as is |
| Snapshot.Present | components/ai-assistant-engine.ts:77 | definition: a string that `||` keeps is defined and non-empty |
| Snapshot.PresentNumber | components/ai-assistant-engine.ts:110 | definition: a number that `||` keeps is defined and non-zero |
| Snapshot.FirstPresent | components/ai-assistant-engine.ts:91 | the first defined non-empty candidate wins, else the fallback; never empty when the fallback is not |
| Snapshot.DisplayName | components/ai-assistant-engine.ts:77 | the name is `first_name`, else `telegram_username`, else the fallback (`друг`, `there`, `Пользователь`); empty strings fall through |
| Snapshot.GoalLabel | components/ai-assistant-engine.ts:91 | definition: `title`, else the nested `goal.title`, else the given fallback (`Цель {id}`, `Без названия`, `Goal {id}`), as `FirstPresent` specifies |
| Snapshot.ListOrEmpty | components/ai-assistant-engine.ts:75-76 | definition: a missing list reads as the empty list, a given one as itself |
| Snapshot.CountOrZero | components/ai-assistant-engine.ts:111-112 | the list length, 0 when the list is missing |
| Snapshot.GoalOpen | components/ai-assistant-engine.ts:88 | definition: a goal is open when its status is not `completed` |
| Snapshot.TaskOpen | components/ai-assistant-engine.ts:97 | definition: a task is open when its status is not `completed` |
| Snapshot.Filter | components/ai-assistant-engine.ts:88 | definition: `.filter`, keeping the passing elements in list order, as `KeptIndices` and `FilterByIndices` characterise it |
| Snapshot.KeptIndices | components/ai-assistant-engine.ts:88 | the positions kept by a status filter are strictly increasing, each passes the test, and every passing position is among them |
| Snapshot.FilterByIndices | components/ai-assistant-engine.ts:88 | `.filter` returns exactly the elements at the kept positions, in list order |
| Snapshot.FilterEmptyIff | components/ai-assistant-engine.ts:89 | the filtered list is empty exactly when no element passes |
| Messages.OpenGoalFilter | components/ai-assistant-engine.ts:88-89 | the count of filtered goals is the number of non-completed goals, positive exactly when one exists |
| Messages.OpenTaskFilter | components/ai-assistant-engine.ts:97-98 | the count of filtered tasks is the number of non-completed tasks, positive exactly when one exists |
| Messages.FirstVisit | components/ai-assistant-engine.ts:80-81 | definition: a daily context is given and says this is the first visit today |
| Messages.WelcomeTitle | components/ai-assistant-engine.ts:91 | definition: a goal's welcome title, quoted, with the `Цель {id}` fallback |
| Messages.WelcomeTitles | components/ai-assistant-engine.ts:88-92 | the welcome lists one quoted title per non-completed goal, in list order, and nothing else; each title is `title`, else `goal.title`, else `Цель {id}` |
| Messages.SelectWelcome | components/ai-assistant-engine.ts:74-102 | a first visit today gives the returning template whatever the goals and tasks; otherwise some open goal gives the goal list; otherwise n > 0 open tasks give the count n; otherwise onboarding; the name falls back to `друг` |
| Messages.RenderWelcome | components/ai-assistant-engine.ts:80-102 | definition: the four welcome templates, with the chosen name, titles joined by `, ` and the count filled in, rendered as defined |
| Messages.WelcomeMessage | components/ai-assistant-engine.ts:68-103 | definition: the welcome text is the rendering of the template `SelectWelcome` chooses |
| Messages.WelcomeNamesEveryOpenGoal | components/ai-assistant-engine.ts:87-93 | unless it is a first visit, the quoted title of every non-completed goal occurs in the welcome text |
| Messages.PendingTasksWelcomeInjective | components/ai-assistant-engine.ts:99 | the open-task welcome text alone determines the task count and the name: two such texts are equal only when both are, whatever the names |
| Messages.SelectGreeting | components/ai-assistant-engine.ts:241-256 | a first visit wins (with a last-visit time: completed and pending counts; without: pending count); then a missing goal or task list; then open goals (with both open counts); else the plain hello; an empty list is not a missing one |
| Messages.RenderGreeting | components/ai-assistant-engine.ts:244-256 | definition: the five greeting templates with the name and counts filled in, rendered as defined |
| Messages.DailyGreeting | components/ai-assistant-engine.ts:235-257 | definition: the greeting text is the rendering of the template `SelectGreeting` chooses |
| Messages.InterestingSuggestion | components/ai-assistant-engine.ts:260-273 | a missing list gives the start text; then no open goal, then no open task, else the focus question |
| Messages.RepliesDistinct | components/ai-assistant-engine.ts:136-144 | the three replies to a user message differ from each other, and the pending-task reply determines its count |
| Messages.PendingTasksReply | components/ai-assistant-engine.ts:139-141 | definition: the reply naming the count of open tasks, rendered as defined |
| Messages.InstructionGoalTitle | components/ai-assistant-engine.ts:153 | definition: `title`, else `goal.title`, else `Goal {id}` |
| Messages.InstructionTaskTitle | components/ai-assistant-engine.ts:161 | definition: only the nested `task.title`, else `Task {id}`; the task's own `title` is not read |
| Messages.GoalsSummary | components/ai-assistant-engine.ts:150-156 | the goals line is `No goals loaded currently.` exactly when the goal list is missing or empty |
| Messages.TasksSummary | components/ai-assistant-engine.ts:158-164 | the tasks line is `No tasks loaded currently.` exactly when the task list is missing or empty |
| Messages.GoalsSummaryInOrder | components/ai-assistant-engine.ts:150-156 | a non-empty goals line is `Current goals: `, then the first goal's title, then each later goal's title in list order after `, `, and nothing else |
| Messages.TasksSummaryInOrder | components/ai-assistant-engine.ts:158-164 | a non-empty tasks line is `Current tasks: `, then the first task's title, then each later task's title in list order after `, `, and nothing else |
| Messages.SystemInstructions | components/ai-assistant-engine.ts:148-232 | definition: the fixed text (abbreviated) around the goals line and the tasks line, rendered as defined |
| Messages.InstructionsNameEveryGoal | components/ai-assistant-engine.ts:151-156 | every goal's title (`title`, else `goal.title`, else `Goal {id}`) occurs in the instructions |
| Messages.InstructionsNameEveryTask | components/ai-assistant-engine.ts:159-164 | every task's title (`task.title` of the nested task, else `Task {id}`) occurs in the instructions |
| Messages.InstructionsIgnoreTaskTitle | components/ai-assistant-engine.ts:160-162 | tasks that differ only in their own `title` give the same instructions |
| Prompts.LevelText | components/ai-assistant-engine.ts:110 | the level is printed when defined and non-zero, else `не указан`; the placeholder appears exactly when the level is unknown, so a printed number is never taken for it |
| Prompts.DifficultyText | components/ai-assistant-engine.ts:118 | the difficulty is printed when defined and non-zero, else `не указана`; the placeholder appears exactly when the difficulty is unknown |
| Prompts.HeaderDeterminesCounts | components/ai-assistant-engine.ts:108-113 | the header text alone fixes the goal and task counts: equal headers have equal counts, even for different names and levels |
| Prompts.PromptHeader | components/ai-assistant-engine.ts:108-113 | definition: the header with the name (fallback `Пользователь`), the level text and the two list sizes (0 for a missing list), rendered as defined |
| Prompts.GoalLine | components/ai-assistant-engine.ts:118 | definition: one goal line with the title (fallback `Без названия`), status and difficulty text, rendered as defined |
| Prompts.TaskLine | components/ai-assistant-engine.ts:125 | definition: one task line with `title`, else `task.title`, else `Без названия`, and the status, rendered as defined |
| Prompts.GoalLines | components/ai-assistant-engine.ts:117-119 | one goal line per goal: line k is the line of goal k |
| Prompts.TaskLines | components/ai-assistant-engine.ts:124-126 | one task line per task: line k is the line of task k |
| Prompts.GoalSection | components/ai-assistant-engine.ts:115-120 | the `Список целей` section is present exactly when the goal list is non-empty |
| Prompts.TaskSection | components/ai-assistant-engine.ts:122-127 | the `Список задач` section is present exactly when the task list is non-empty |
| Prompts.SystemPrompt | components/ai-assistant-engine.ts:106-130 | definition: the header, then the goals section, then the tasks section |
| Prompts.GoalLineInOrder | components/ai-assistant-engine.ts:115-120 | goal i has one line, after the lines of goals before it and before those after it, between the header and the tasks section |
| Prompts.TaskLineInOrder | components/ai-assistant-engine.ts:122-127 | task i has one line, after the lines of tasks before it and before those after it, at the end of the prompt |
| Scenarios.Key | components/ai-assistant-engine.ts:279-286 | definition: the eight scenario keys, one per scenario |
| Scenarios.Evaluable | components/ai-assistant-engine.ts:279-286 | definition: the templates can be built (no TypeError) exactly when the profile, its skills and its interests are present |
| Scenarios.Lookup | components/ai-assistant-engine.ts:278-288 | a key finds a scenario only when it is that scenario's key; any other key finds none |
| Scenarios.LookupKey | components/ai-assistant-engine.ts:279-286 | each of the eight keys finds its own scenario |
| Scenarios.Template | components/ai-assistant-engine.ts:279-286 | definition: the eight scenario templates with the profile's name, level and joined skills or interests filled in, rendered as defined |
| Scenarios.ContextBasedPrompt | components/ai-assistant-engine.ts:276-288 | the call fails (TypeError) exactly when the profile, its skills or its interests are missing, for every key |
| Scenarios.UnknownScenarioFallsBack | components/ai-assistant-engine.ts:288 | a key outside the eight gives exactly the `daily_planning` result for the same context |
| Scenarios.KnownScenarioTemplate | components/ai-assistant-engine.ts:279-288 | each listed key gives its own template |
| Engine.AIAssistantEngine.constructor | components/ai-assistant-engine.ts:48-53 | the snapshot is the one given, the step is `init`, the history is empty |
| Engine.AIAssistantEngine.Reset | components/ai-assistant-engine.ts:56-60 | afterwards the step is `init` and the history is empty; the snapshot is replaced only when one is given, otherwise kept |
| Engine.AIAssistantEngine.GetCurrentScenarioState | components/ai-assistant-engine.ts:63-65 | returns the current scenario state and changes nothing |
| Engine.AIAssistantEngine.HandleUserMessage | components/ai-assistant-engine.ts:133-145 | a missing or empty goal list gives the "no goals" reply even with pending tasks; otherwise n > 0 open tasks give the count n; otherwise the thanks; the reply is never empty, is fixed by the snapshot alone (not the message), and no field changes |
| Engine.AIAssistantEngine.GenerateSystemPrompt | components/ai-assistant-engine.ts:106-130 | the prompt is the header, then the goals section, then the tasks section, as `Prompts.SystemPrompt` defines; no field changes |
| Engine.AIAssistantEngine.AppendGoalLines | components/ai-assistant-engine.ts:116-119 | the goals loop appends the goal lines, one per goal, in list order |
| Engine.AIAssistantEngine.AppendTaskLines | components/ai-assistant-engine.ts:123-126 | the tasks loop appends the task lines, one per task, in list order |
| Engine.AIAssistantEngine.GenerateWelcomeMessage | components/ai-assistant-engine.ts:68-103 | definition: the welcome text for the engine's current snapshot, as `Messages.WelcomeMessage` defines and `SelectWelcome` specifies |
| Engine.AIAssistantEngine.GenerateSystemInstructions | components/ai-assistant-engine.ts:148-232 | definition: the instructions for the current snapshot, as `Messages.SystemInstructions` defines |
| Engine.AIAssistantEngine.GenerateDailyGreeting | components/ai-assistant-engine.ts:235-257 | definition: the greeting for the current snapshot, as `Messages.DailyGreeting` defines and `SelectGreeting` specifies |
| Engine.AIAssistantEngine.GenerateInterestingSuggestion | components/ai-assistant-engine.ts:260-273 | definition: the suggestion for the current snapshot, as `Messages.InterestingSuggestion` specifies |
| Engine.AIAssistantEngine.GenerateContextBasedPrompt | components/ai-assistant-engine.ts:276-289 | definition: the scenario prompt, as `Scenarios.ContextBasedPrompt` specifies |
| Text.NatToString | components/ai-assistant-engine.ts:99 | a printed count is non-empty decimal digits without a leading zero |
| Text.NatToStringRoundTrip | components/ai-assistant-engine.ts:99 | reading a printed count back gives the count |
| Text.IntToString | components/ai-assistant-engine.ts:110 | a printed integer starts with `-` exactly when negative, followed by the decimal digits of its absolute value; a non-negative one is its decimal digits; the first character is `-` or a digit |
| Text.Join | components/ai-assistant-engine.ts:92 | definition: `.join(sep)`, the parts with the separator between neighbours, as `JoinInOrder` and `JoinOffset` characterise it |
| Text.JoinOffset | components/ai-assistant-engine.ts:92 | every part of a joined list stands unchanged at some position of the joined text |
| Text.JoinInOrder | components/ai-assistant-engine.ts:152-154 | the joined text is the first part, then every later part in order after one separator, and nothing else |
| Text.Concat | components/ai-assistant-engine.ts:116-126 | definition: the text a `+=` loop appends, part by part in order, as `ConcatAt` characterises it |
| Text.ConcatAt | components/ai-assistant-engine.ts:116-119 | the text appended by a loop over parts has part i right after parts 0..i-1 and right before the rest |

## Left out

- `getTimeOfDay` reads the wall clock and no code calls it.
- The `async`/`Promise` wrapper of `handleUserMessage` is left out: the method awaits nothing, so it is modelled as a synchronous method.
- The language-model call marked TODO in `handleUserMessage` is left out; no transport exists.
- `Messages.SystemInstructions`: the fixed English guidance is abbreviated. The constants keep the opening paragraph, the `CURRENT USER CONTEXT:` heading and the closing sentence. They leave out the principle, response-structure and debug sections between them. Only the two interpolated summary lines carry logic.
- `Scenarios.Lookup`: keys that JavaScript finds on the object prototype (`constructor`, `toString`, …) are not modelled. The table is a closed set of eight keys with a default.
- `Scenarios.ContextBasedPrompt`: a `null` or missing `context` argument (a TypeError in the source) is not modelled. The context is a value that always exists.
- `Scenarios.Profile`: `name` is a string. A missing name, which prints `undefined`, is not modelled.
- `Snapshot.Goal`, `Snapshot.Task`: a missing status, which prints `undefined`, is not modelled. It would compare unequal to `completed`, as any other text does. Non-string ids are modelled by their printed text.
- Text.IntToString, Text.NatToString: numbers are integers printed with every decimal digit. This covers the snapshot's level and difficulty, the daily counts and `Scenarios.Profile.level`. Not modelled:
  - fractions and `NaN`;
  - JavaScript's exponent form for integers of 1e21 and above (`1e+21`);
  - the text `undefined` that a missing `profile.level` prints (components/ai-assistant-engine.ts:279-286), because `level` is always present.
- Engine.AIAssistantEngine.constructor, Engine.AIAssistantEngine.Reset: the snapshot is stored as an immutable value. The source keeps a reference to the caller's object (components/ai-assistant-engine.ts:51, :57) and reads it again on every `generate*` and `handleUserMessage` call. So a change the caller makes to that object in place, such as pushing a goal, reaches the next call without a `reset`. The model does not capture that aliasing; its snapshot changes only through the constructor and `Reset`.
- `Engine.AIAssistantEngine.GetCurrentScenarioState`: it returns a copy. In the source the caller gets the engine's own state object and could mutate it through that alias.
- `components/UserContext.tsx` is not part of this model. It holds React state, the Telegram WebApp SDK, a `fetch` of the user record and database queries.
- `app/actions/user-actions.ts` is not part of this model. It is a pass-through wrapper over database selects.
- `components/social/social-tabs.tsx` is not part of this model. It only renders three tab buttons.
