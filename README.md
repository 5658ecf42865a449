# KairoQuest progression core in Dafny

KairoQuest is a gamified to-do list. Tasks are "dungeons" with a difficulty
rank from E to S. Clearing a dungeon pays experience points (XP), and XP
raises the hunter's level. This project models the part of the app that
decides what happens to that state. The Dafny files are:

- `Engine.dfy`, module `Engine`: the quest page's state machine.
  - A task list plus the player's XP, level and streak, as the class
    `Progression`.
  - One method per handler: `addTask`, `toggleTaskComplete`,
    `updateTaskProgress`, `addSubtask`, `toggleSubtask`, `addTimeToTask`
    and `deleteTask`.
  - The per-task rewrites done inside each handler's `map`/`filter`, as pure
    functions: the rank reward table, subtask progress, the level formula,
    and the active/cleared tabs.
  - This file also declares the small module `Wrappers` with `Option`.
- `TaskForm.dfy`, module `TaskForm`: the "new quest" form as the class
  `Form`. It has an open/closed switch and the fields being typed. Submit
  only goes through when the title is not blank.
- `PlayerStats.dfy`, module `PlayerStats`: the figures on the player card.
  These are the XP bar width, the completion rate and the achievement
  badge.
- `Assistant.dfy`, module `Assistant`: the assistant chat.
  - A keyword router (`generateAIResponse`) that lowercases the message and
    answers from one of four reply families.
  - The class `Chat` holding the message log, with the blank-input guard
    of `handleSendMessage`.
- `Text.dfy`, module `Text`: the JavaScript string operations these rely on.
  These are `trim`, reduced to "is the text blank?", `toLowerCase` and
  `includes`.

Percentages are exact `real` values. Fresh ids, clock readings and the value
of `Math.random()` are parameters.

The canned texts of the assistant are values of the datatype
`Assistant.Script`. Its routing and wrapping are proved for any texts.
`Assistant.HunterScript` holds the app's own texts: the guide, four quest
suggestions, five pieces of advice, the wrappers and the greeting.

## Behaviour worth knowing

These facts about the code are easy to miss; the model keeps each of them.

- `updateTaskProgress` stores the value as given (`src/pages/Index.tsx:175-179`).
  It does not clamp to [0, 100], and it does not refuse a task that has
  subtasks.
- `addSubtask` does not recompute progress (`src/pages/Index.tsx:181-193`).
  `Engine.AddSubtaskLeavesProgressStale` shows that the stored progress then
  overstates the subtask ratio.
- Reopening a completed task takes the XP back, floored at 0, but never
  lowers the level (`src/pages/Index.tsx:165-169`). Completing a task that
  is already complete is not a no-op either: the handler is a toggle.
- Unknown ids are silent no-ops, not errors.
- The XP bar divides the whole XP by 200, not the XP within the current
  level (`src/components/PlayerStats.tsx:16`). It is therefore at least 100%
  once XP reaches 200, that is once `LevelFor(xp) >= 2`
  (`PlayerStats.XpBarCountsPassedLevels`).
- The card shows an achievement badge with thresholds at levels 5 and 3
  (`src/components/PlayerStats.tsx:91`).
- The first seed task stores 60% progress, but two of its four subtasks
  are done, which gives 50% (`Engine.SeedProgressDisagreesWithSubtasks`).
- The form offers the priorities `low|medium|high|critical`, while the
  reward table is keyed `e..s`. A task registered through the form
  therefore finds no reward (`TaskForm.FormPrioritiesMissRewardTable`).
  The engine is modelled over the ranks E to S.

## Model

| member | source | states |
|---|---|---|
| Text.TrimStart | src/components/AddTaskForm.tsx:32 | The result is a suffix of the input. Everything it drops is white space. It does not start with white space. |
| Text.TrimEnd | src/components/AddTaskForm.tsx:32 | The result is a prefix of the input. Everything it drops is white space. It does not end with white space. |
| Text.TrimEmptyIffBlank | src/components/AddTaskForm.tsx:32 | `s.trim()` is empty (falsy) exactly when every character of `s` is ECMAScript white space or a line terminator. |
| Text.Trim | src/components/AddTaskForm.tsx:32 | `trim` is no longer than its input, and a nonempty result neither starts nor ends with white space. |
| Text.TrimKeepsMiddle | src/components/AddTaskForm.tsx:32 | What `trim` keeps is a contiguous piece of the input with only white space before and after it. |
| Text.LowerChar | src/components/AIAssistant.tsx:38 | An upper-case ASCII letter becomes the lower-case letter 32 code points above it. Every other character is unchanged. |
| Text.ToLower | src/components/AIAssistant.tsx:38 | `toLowerCase` keeps the length and maps every character through `LowerChar`. |
| Text.ToLowerIdempotent | src/components/AIAssistant.tsx:38 | Lowercasing a lowercased message changes nothing. |
| Text.ToLowerAppend | src/components/AIAssistant.tsx:38 | Lowercasing a concatenation lowercases each part. |
| Text.Contains | src/components/AIAssistant.tsx:40 | `includes` needs the text to be at least as long as the part, and holds when the text starts with it. |
| Text.ContainsAt | src/components/AIAssistant.tsx:40 | `includes` holds when the text occurs at some position. |
| Text.ContainsIff | src/components/AIAssistant.tsx:40 | `includes` holds exactly when the part occurs at some position of the text. |
| Text.ContainsMiddle | src/components/AIAssistant.tsx:87 | A text placed between two others is included in the result. |
| Engine.RewardForKey | src/pages/Index.tsx:116-123 | The reward table has an entry for a key exactly when the key is one of the six rank keys `e..s`. |
| Engine.RewardXp | src/pages/Index.tsx:116-123 | The reward of a rank is the table's entry under that rank's key, and it is at least 10. |
| Engine.RewardIncreasesWithRank | src/pages/Index.tsx:116-123 | A higher rank pays strictly more XP. |
| Engine.CompletedSubtasks | src/pages/Index.tsx:168 | The number of completed subtasks is at most the list length. It is 0 exactly when none is done, and the length exactly when all are done. |
| Engine.CompletedSubtasksAppend | src/pages/Index.tsx:189 | Appending a subtask adds one to the count exactly when that subtask is completed. |
| Engine.SubtaskProgress | src/pages/Index.tsx:203-204 | The derived progress lies in [0, 100]. It is 100 exactly when all subtasks are done and 0 exactly when none is. |
| Engine.ToggledSubtasks | src/pages/Index.tsx:198-202 | `completed` flips on every subtask with the given id. Every other subtask stays as it was, and so does the length. |
| Engine.ToggleSubtaskTwice | src/pages/Index.tsx:198-202 | Toggling the same subtask twice restores the list. |
| Engine.ToggleSubtaskCount | src/pages/Index.tsx:198-203 | With distinct subtask ids, one toggle moves the completed count up by 1 if the subtask was open, or down by 1 if it was done. |
| Engine.ToggleSubtaskProgressStep | src/pages/Index.tsx:198-204 | With distinct subtask ids, one toggle moves the derived progress by exactly `100 / length`, up or down. |
| Engine.NewTask | src/pages/Index.tsx:125-135 | The new task keeps the caller's title, description, rank and category, gets the given id and clock reading and the rank's reward, and starts open at 0% with no subtasks, 0 minutes spent and a 60-minute estimate. |
| Engine.ToggledCompletion | src/pages/Index.tsx:164-169 | The rewrite changes only `completed` and `progress`. Completing sets progress to 100. Reopening recomputes progress from the subtasks, or without subtasks sets it to `max(progress, 50)`: at least 50 and at least the old progress, and equal to one of the two. |
| Engine.WithProgress | src/pages/Index.tsx:177 | Progress becomes the given value and every other field is unchanged. |
| Engine.WithNewSubtask | src/pages/Index.tsx:184-189 | The old subtasks are kept in order and one open subtask with the given id and title follows them. The completed count is unchanged, and so is every other field. |
| Engine.WithTimeAdded | src/pages/Index.tsx:215 | Time spent grows by exactly the given minutes and every other field is unchanged. |
| Engine.CompleteReopenLosesProgress | src/pages/Index.tsx:164-169 | Completing and then reopening a task without subtasks leaves it at 100%, not at its earlier progress. |
| Engine.CompleteReopenRederivesProgress | src/pages/Index.tsx:164-169 | Completing and then reopening a task with subtasks leaves it at the subtask-derived progress. |
| Engine.AddSubtaskLeavesProgressStale | src/pages/Index.tsx:181-192 | Take a task whose progress matches partly completed subtasks. After `addSubtask`, its progress is strictly above the ratio of its new subtask list. |
| Engine.WithSubtaskToggled | src/pages/Index.tsx:195-206 | Toggling a subtask never changes the task's `completed` flag, and leaves progress in [0, 100]. |
| Engine.IndexOf | src/pages/Index.tsx:176-177 | Gives the position of the first task with the id, or nothing exactly when no task has it. |
| Engine.MapMatching | src/pages/Index.tsx:176-178 | Every task with the id is rewritten. Every other task is kept in its place. |
| Engine.MapMatchingIsUpdate | src/pages/Index.tsx:176-178 | With distinct ids, an unknown id changes nothing. A known id rewrites only the task at its position. |
| Engine.MapMatchingKeepsUniqueIds | src/pages/Index.tsx:176-178 | A rewrite that keeps ids keeps them pairwise distinct. |
| Engine.MapMatchingKeepsSubtaskIds | src/pages/Index.tsx:182-191 | A rewrite that leaves each matching task with distinct subtask ids keeps subtask ids distinct within every task. |
| Engine.AppendFreshKeepsDistinct | src/pages/Index.tsx:184-189 | Appending a subtask under an id the list lacks keeps subtask ids distinct. |
| Engine.Without | src/pages/Index.tsx:226 | The filtered list is no longer than the original, holds only tasks of the original and none with the id. |
| Engine.WithoutRemovesOne | src/pages/Index.tsx:226 | With distinct ids, deleting a known id removes exactly the task at its position. The others keep their order. |
| Engine.WithoutAbsent | src/pages/Index.tsx:226 | Deleting an unknown id changes nothing. |
| Engine.WithoutKeepsUniqueIds | src/pages/Index.tsx:226 | Deleting keeps task ids pairwise distinct. |
| Engine.ActiveTasks | src/pages/Index.tsx:264 | The active tab holds exactly the open tasks. |
| Engine.ClearedTasks | src/pages/Index.tsx:265 | The cleared tab holds exactly the completed tasks. |
| Engine.ActiveTasksAppend | src/pages/Index.tsx:264 | The active tab keeps the list's order: filtering a concatenation concatenates the filtered parts. |
| Engine.ClearedTasksAppend | src/pages/Index.tsx:265 | The cleared tab keeps the list's order in the same way. |
| Engine.ActiveClearedPartition | src/pages/Index.tsx:264-265 | The two tabs' sizes add up to the number of tasks. |
| Engine.AllClearedIff | src/pages/Index.tsx:113 | The cleared count is at most the number of tasks. It equals that number exactly when every task is completed. |
| Engine.SeedTasks | src/pages/Index.tsx:40-74 | The seed list has two open tasks with distinct ids, created now, and distinct subtask ids within each task. |
| Engine.SeedProgressDisagreesWithSubtasks | src/pages/Index.tsx:40-74 | The first seed task stores 60% while its subtasks give 50%. |
| Engine.LevelFor | src/pages/Index.tsx:148 | The level is the `l` with `200 * (l - 1) <= xp < 200 * l`, so it is at least 1 for non-negative XP. |
| Engine.LevelForMonotone | src/pages/Index.tsx:148 | `floor(xp / 200) + 1` never decreases as XP grows. |
| Engine.Award | src/pages/Index.tsx:146-152 | XP grows by exactly the reward. The new level is the old one or the one the new XP implies, whichever is higher. |
| Engine.LevelsUp | src/pages/Index.tsx:150-155 | The level-up notice fires exactly when the award raises the level. |
| Engine.Revoke | src/pages/Index.tsx:165-166 | XP drops by the reward when it has that much and becomes 0 otherwise. The level is unchanged. |
| Engine.AwardKeepsConsistent | src/pages/Index.tsx:146-162 | Completing adds exactly the reward and keeps XP non-negative. The level never goes down. It rises, to exactly `floor(newXP / 200) + 1`, precisely when the level-up notice fires. |
| Engine.RevokeKeepsConsistent | src/pages/Index.tsx:165-166 | Reopening subtracts the reward when XP covers it and sets XP to 0 otherwise, and keeps the level. The level stays at or above the one the XP implies. |
| Engine.AwardRevokeRoundTrip | src/pages/Index.tsx:146-166 | Completing then reopening the same task restores the XP exactly and keeps any level gained. |
| Engine.RankBCompletionLevelsUp | src/pages/Index.tsx:146-156 | A rank-B clear at 150 XP and level 1 gives 250 XP and level 2, with the level-up notice. |
| Engine.Progression.constructor | src/pages/Index.tsx:38-90 | A fresh profile has the two seed tasks, level 1, 0 XP and streak 0, and satisfies the invariant: consistent standing, distinct task ids, distinct subtask ids within each task. |
| Engine.Progression.CompletedCount | src/pages/Index.tsx:113 | The completed count never exceeds the number of tasks. |
| Engine.Progression.AddTask | src/pages/Index.tsx:115-137 | Exactly one task is prepended and the old list follows unchanged. It has the rank's reward, is open, has 0% progress, no subtasks, 0 minutes spent and a 60-minute estimate. XP, level and streak are unchanged, and ids stay distinct. |
| Engine.Progression.ToggleTaskComplete | src/pages/Index.tsx:144-173 | An unknown id changes nothing. Completing pays the reward and raises the level only through `Award`, with the notice exactly when it rises. Reopening takes the reward back, floored at 0, and keeps the level. Only the matching task changes, and the level never decreases. |
| Engine.Progression.UpdateTaskProgress | src/pages/Index.tsx:175-179 | Only the matching task's progress changes, set verbatim. An unknown id changes nothing. XP and level are unchanged. |
| Engine.Progression.AddSubtask | src/pages/Index.tsx:181-193 | One open subtask is appended to the matching task. Its progress and every other field are unchanged. An unknown id changes nothing. Subtask ids stay distinct within each task. |
| Engine.Progression.ToggleSubtask | src/pages/Index.tsx:195-210 | The matching task's subtasks are toggled and progress is recomputed from them, within [0, 100]. Toggling an existing subtask moves the progress by exactly `100 / length` from the subtask-derived value, up if it was open and down if it was done. `completed` is unchanged, and so are XP and level. |
| Engine.Progression.AddTimeToTask | src/pages/Index.tsx:212-217 | Only the matching task's time spent changes, by exactly `minutes`. An unknown id changes nothing. |
| Engine.Progression.DeleteTask | src/pages/Index.tsx:225-226 | The matching task is removed and the rest keep their order. An unknown id changes nothing. XP and level are kept. |
| PlayerStats.XpProgress | src/components/PlayerStats.tsx:16 | The bar is `100 * xp / xpToNext`. It is over 100 exactly when XP exceeds `xpToNext`, exactly 100 when they are equal, and non-negative exactly when XP is. |
| PlayerStats.XpBarCountsPassedLevels | src/components/PlayerStats.tsx:16 | At 200 XP per level, the bar shows 100 for each level already passed plus the share of the current one. It is at least 100 once XP reaches 200 (`LevelFor(xp) >= 2`). |
| PlayerStats.CompletionRate | src/components/PlayerStats.tsx:17 | The rate is 0 without tasks and `100 * completed / total` otherwise. It lies in [0, 100] when `completed <= total`. |
| PlayerStats.PageCompletionRate | src/components/PlayerStats.tsx:17 | Fed with the page's list and cleared count, the rate lies in [0, 100]. It is 100 exactly when there are tasks and all are completed. |
| PlayerStats.CardCompletionRate | src/components/PlayerStats.tsx:17 | Fed with the page's `completedTasks` count, the rate lies in [0, 100] and is 100 exactly when there are tasks and all are cleared. |
| PlayerStats.FullRateIffAll | src/components/PlayerStats.tsx:17 | On a nonempty list the rate is 100 exactly when the completed count equals the total. |
| PlayerStats.BadgeFor | src/components/PlayerStats.tsx:91 | The badge, and the label the card shows for it, is "Quest Master" exactly from level 5, "Rising Warrior" exactly at levels 3 and 4, and "New Adventurer" exactly below 3. |
| PlayerStats.BadgeMonotone | src/components/PlayerStats.tsx:91 | A higher level never shows a lower badge. |
| TaskForm.FormPrioritiesMissRewardTable | src/components/AddTaskForm.tsx:12 | None of the form's priority values is a key of the reward table. |
| TaskForm.Form.constructor | src/components/AddTaskForm.tsx:22-28 | The form starts closed, with title "", description "", priority medium and category "General". |
| TaskForm.Form.Open | src/components/AddTaskForm.tsx:48 | Opening keeps the fields. |
| TaskForm.Form.EditTitle | src/components/AddTaskForm.tsx:66 | Only the title changes. |
| TaskForm.Form.EditDescription | src/components/AddTaskForm.tsx:73 | Only the description changes. |
| TaskForm.Form.ChoosePriority | src/components/AddTaskForm.tsx:78 | Only the priority changes. |
| TaskForm.Form.ChooseCategory | src/components/AddTaskForm.tsx:90 | Only the category changes. |
| TaskForm.Form.Submit | src/components/AddTaskForm.tsx:30-37 | A blank title hands on nothing and changes nothing. Otherwise the current fields are handed on once, then the form resets to the defaults and closes. |
| TaskForm.Form.RequestMotivation | src/components/AddTaskForm.tsx:39-43 | The title, untrimmed, is handed on exactly when it is not blank. |
| TaskForm.Form.Cancel | src/components/AddTaskForm.tsx:123 | Cancel closes the form and keeps the entered fields. |
| Assistant.Classify | src/components/AIAssistant.tsx:38-87 | The lowercased message gets the guide exactly when it asks how to use the app; the quest family exactly when it does not but mentions quests; advice exactly when it does neither but asks for advice; the default otherwise. |
| Assistant.ShoutedHowToGetsGuide | src/components/AIAssistant.tsx:38-40 | A message with "HOW" followed later by "USE", in capitals, still gets the guide. |
| Assistant.RoutingIgnoresCase | src/components/AIAssistant.tsx:38 | The reply family does not depend on letter case. |
| Assistant.RoutingPriority | src/components/AIAssistant.tsx:40-87 | A how-to question is answered with the guide whatever other keywords it has. Quest keywords win over advice keywords. The default reply comes exactly when no keyword test holds. |
| Assistant.PickIndex | src/components/AIAssistant.tsx:69 | `Math.floor(Math.random() * length)` is a valid index into the table. |
| Assistant.Reply | src/components/AIAssistant.tsx:32-92 | A how-to message gets the guide. A quest message gets some suggestion between the quest header and footer. An advice message gets some piece of advice between its wrapper. Any other message gets a reply that starts with the default header and contains the message verbatim. |
| Assistant.RollForIndex | src/components/AIAssistant.tsx:69 | The roll `i / n` lies in [0, 1) and picks index `i` of an `n`-entry table. |
| Assistant.EveryEntryReachable | src/components/AIAssistant.tsx:69-82 | Every quest suggestion and every piece of advice is the answer for some value of `Math.random()`. |
| Assistant.HunterScriptStocked | src/components/AIAssistant.tsx:62-80 | The app's own texts have four quest suggestions and five pieces of advice, so every reply family has entries. |
| Assistant.Chat.constructor | src/components/AIAssistant.tsx:21-30 | The log holds only the greeting, the box is empty and nothing is pending. |
| Assistant.Chat.SetInput | src/components/AIAssistant.tsx:187 | Only the box's text changes. |
| Assistant.Chat.SendMessage | src/components/AIAssistant.tsx:94-117 | A blank box appends nothing and changes nothing. Otherwise exactly two entries are appended, the user's text and then the reply to it, and earlier entries are unchanged. The box is cleared and the loading flag ends false. |

## Left out

- Rendering, layout, toasts and animations. The level-up toast is the
  boolean that `Engine.Progression.ToggleTaskComplete` returns.
- `getAIMotivation` (`src/pages/Index.tsx:233-262`). It is a delayed random
  pick of a canned text and changes no progression state.
  `TaskForm.Form.RequestMotivation` returns the title it would be given.
- Persistence through `src/lib/storage.ts` and the save effects. The
  `Engine.Progression.constructor` is a fresh profile, where every stored
  value is missing and the defaults apply.
- `supabase/functions/chat-ai/index.ts`, `src/components/TaskCard.tsx` and
  `src/components/MotivationalQuote.tsx`: network I/O and display.
- `Date.now()` ids and `new Date()` timestamps are parameters.
  - `Engine.Progression.AddTask` requires a fresh task id, which makes task
    ids pairwise distinct, an invariant of `Progression.Valid`.
  - Engine.Progression.AddSubtask: takes the new subtask's id as given,
    instead of the `taskId-timestamp` string, and requires that the matching
    task has no subtask with that id yet. A later clock reading gives a new
    id; the model makes that an assumption, which keeps subtask ids distinct
    within each task, part of `Progression.Valid`.
- `Math.random()` is the parameter `roll` in [0, 1).
- React's asynchronous state updates and stale closures. The handlers run
  one after another on the current state.
- Floating point. Percentages are exact rationals, and `toFixed` formatting
  is not modelled.
- Engine.Progression.ToggleSubtask: requires the matching task to have
  subtasks. On an empty list the source divides 0 by 0 and stores NaN.
- Text.ToLower: lowercases ASCII letters only. JavaScript's full Unicode
  case mapping is not modelled.
- Assistant.Reply: is stated for any stocked `Script` rather than for the
  app's texts alone. `Assistant.HunterScriptStocked` proves that
  `HunterScript` is stocked, with four suggestions and five pieces of advice.
- Assistant.Chat.constructor: takes the texts as a parameter instead of
  always using `HunterScript`, so the chat's proofs do not carry the long
  literals.
- Assistant.Chat.SendMessage: tests `IsBlank` directly instead of
  `Trim(...) == []`. `Text.TrimEmptyIffBlank` proves the two tests agree.
- `streak` is loaded and shown but never changed by any handler. Every
  method of `Engine.Progression` keeps it.
