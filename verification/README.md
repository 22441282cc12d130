# Gram's House Hub, modelled in Dafny

Gram's House Hub is a single-page family dashboard (React and TypeScript). Relatives use it to
coordinate care for an elderly grandmother. This project models the parts of it that hold logic:

- the root component's sign-in and view switching (`App.tsx`);
- the team chat, the grounded resource search and the week calendar (`CareCircle.tsx`);
- the kanban board, the task cards and the shopping-list colours (`Projects.tsx`);
- the password gate of the shared vault (`Vault.tsx`);
- the photo album and its add-memory form (`Memories.tsx`);
- the streaming assistant (`Lunai.tsx`);
- the hockey widget with its live game, next game, countdown, scoreboard and live-score polling,
  plus the meal planner and the weekly-update generator (`Dashboard.tsx`);
- the deterministic parts of the hosted-model service (`services/geminiService.ts`).

Components whose state changes in place are classes: every `useState` becomes a field and every
handler a method with a `modifies` clause. A handler that `await`s is split at the `await` into a
`Begin…` method and a `Complete…` method. The awaited result (the model's reply, a file read, the
clock) is a parameter of the second one. The service's reply handling is pure and is written as
functions over a `Reply` value. The JavaScript string and array operations the code relies on are
the modules `Text` and `Seqs`: `trim`, `split`, `join`, `${n}`, `toUpperCase`, `filter`,
`slice`, `map` and `reverse`.

Files: `types.dfy`, `text.dfy`, `seqs.dfy`, `gemini_service.dfy`, `app.dfy`, `care_circle.dfy`,
`projects.dfy`, `vault.dfy`, `memories.dfy`, `lunai.dfy`, `dashboard.dfy`.

## Model

| member | source | states |
|---|---|---|
| Types.ViewName | types.ts:1-8 | each view's run-time string |
| Types.ViewNameInjective | types.ts:1-8 | different views carry different strings |
| Types.StatusLabel | types.ts:62-66 | each task status's run-time string |
| Types.StatusLabelInjective | types.ts:62-66 | different statuses carry different labels |
| App.ScreenOf | App.tsx:30-47 | no view leads to the login screen |
| App.ScreenOfInjective | App.tsx:30-47 | distinct views render distinct screens |
| App.RenderView | App.tsx:30-47 | each view's run-time string selects that view's screen; any other string falls back to the Dashboard; never the login screen |
| App.Session.constructor | App.tsx:14-15 | the app opens on the Dashboard view with nobody signed in |
| App.Session.Login | App.tsx:17-19 | signing in sets the user and leaves the view alone |
| App.Session.Logout | App.tsx:21-24 | signing out clears the user and returns to the Dashboard view |
| App.Session.Navigate | App.tsx:51-56 | the header's view switch sets the view and leaves the user alone |
| App.Session.Render | App.tsx:26-28 | the login screen shows exactly when nobody is signed in; otherwise the current view's screen |
| App.LogoutIsIdempotent | App.tsx:21-24 | signing out twice ends in the same state as signing out once |
| CareCircle.SequentialIdsAreUnique | components/CareCircle.tsx:71 | the ids `c1…cn` are pairwise distinct, so they can serve as React keys |
| CareCircle.AppendKeepsSequentialIds | components/CareCircle.tsx:70-77 | appending the message numbered after the list's length keeps the id sequence |
| CareCircle.SeedIdsAreSequential | components/CareCircle.tsx:48-52 | the seed messages already follow the id scheme |
| CareCircle.MessageId | components/CareCircle.tsx:71 | the id is `c` followed by decimal digits that read back as the message's number |
| CareCircle.IsCurrentUser | components/CareCircle.tsx:85 | a message is drawn as the current user's when its author's id is the user's id |
| CareCircle.CurrentUserIsById | components/CareCircle.tsx:85 | whose side a message is drawn on depends on the user's id alone, not on the name or avatar |
| CareCircle.SeedOwnMessages | components/CareCircle.tsx:48-52 | of the seed messages, signed in as Craig, only the third is drawn on his own side |
| CareCircle.TeamChat.constructor | components/CareCircle.tsx:55-58 | the chat opens on the seed messages, an empty draft and Craig as the user; the ids are sequential |
| CareCircle.TeamChat.EditDraft | components/CareCircle.tsx:106 | typing sets the draft |
| CareCircle.TeamChat.SendMessage | components/CareCircle.tsx:66-79 | a blank draft changes nothing; otherwise exactly one message is appended: the current user's, with the untrimmed draft and id `c(n+1)`; the draft is cleared, the message is drawn as the user's own, and sequential ids are preserved |
| CareCircle.GeminiSearch.constructor | components/CareCircle.tsx:122-124 | empty query, not loading, no result |
| CareCircle.GeminiSearch.EditQuery | components/CareCircle.tsx:143 | typing sets the query |
| CareCircle.GeminiSearch.BeginSearch | components/CareCircle.tsx:126-130 | a blank query sends nothing and keeps the old result; otherwise the untrimmed query is sent, loading starts and the result is cleared |
| CareCircle.GeminiSearch.CompleteSearch | components/CareCircle.tsx:131-133 | the service's grounded answer (or its apology) becomes the result and loading stops |
| CareCircle.DayColumn | components/CareCircle.tsx:188 | a day's column holds exactly the events on that day |
| CareCircle.CalendarColumns | components/CareCircle.tsx:177-188 | seven columns, Monday to Sunday, each the day's filter |
| CareCircle.EventPlacement | components/CareCircle.tsx:184-188 | an event sits in a column exactly when its day is that column's; an event on any other day string appears in no column |
| CareCircle.DayColumnKeepsOrder | components/CareCircle.tsx:188 | a column keeps the calendar's order |
| Projects.Column | components/Projects.tsx:41-43 | a column holds only tasks of its status, each as often as in the project |
| Projects.ColumnsPartition | components/Projects.tsx:41-43 | the three columns together hold every task exactly once |
| Projects.Kanban | components/Projects.tsx:41-43 | the board's columns are the three status filters, and their sizes add up to the number of tasks |
| Projects.TaskInExactlyOneColumn | components/Projects.tsx:41-43 | every task appears in the column of its own status and in no other |
| Projects.ColumnKeepsOrder | components/Projects.tsx:41-43 | within a column the tasks keep the project's order |
| Projects.Card | components/Projects.tsx:7-19 | the assignee row exists exactly when the task has an assignee; the due date shows exactly when there is an assignee and a non-empty due date |
| Projects.CategoryColour | components/Projects.tsx:69-73 | green exactly for groceries, blue for supplies, yellow for pet, red for everything else |
| Vault.SecureVault.constructor | components/Vault.tsx:22-24 | the vault starts locked, with an empty password and no error |
| Vault.SecureVault.EditPassword | components/Vault.tsx:49 | typing sets the password field |
| Vault.SecureVault.Submit | components/Vault.tsx:26-35 | the right password unlocks and clears the error; a wrong one leaves the lock as it was and sets the fixed message; nothing ever re-locks |
| Vault.SecureVault.Screen | components/Vault.tsx:37-100 | while locked only the password gate and its error are rendered; the logins and documents appear only once unlocked |
| Memories.SortedMemories | components/Memories.tsx:166-174 | "newest" shows the stored order; "oldest" shows it reversed position by position; both keep exactly the stored memories |
| Memories.AddedMemoryPosition | components/Memories.tsx:162-174 | an added memory is shown first under "newest" and last under "oldest", with the others in their old order |
| Memories.OldestOfOldestIsStored | components/Memories.tsx:166-174 | reversing the "oldest" view gives the stored order back |
| Memories.Album.constructor | components/Memories.tsx:158-160 | the album opens on the three seed memories, newest first |
| Memories.Album.AddMemory | components/Memories.tsx:162-164 | the new memory goes to index 0; the earlier ones follow unchanged |
| Memories.Album.SetSortOrder | components/Memories.tsx:160 | choosing an order sets it |
| Memories.Album.Displayed | components/Memories.tsx:166-174 | the grid shows the sorted copy, with the same memories as the store |
| Memories.NewMemory | components/Memories.tsx:87-94 | a new memory keeps the prompt and date, has Craig as uploader, the service's story (or its apology) and the id `mem<clock>` |
| Memories.AddMemoryForm.constructor | components/Memories.tsx:41-46 | empty fields, no file or preview, not loading, no error |
| Memories.AddMemoryForm.EditPrompt | components/Memories.tsx:137 | typing sets the prompt |
| Memories.AddMemoryForm.EditDate | components/Memories.tsx:142 | typing sets the date |
| Memories.AddMemoryForm.FileChanged | components/Memories.tsx:48-63 | no file changes nothing; a file over 4 MiB sets the error and keeps the old file; any other file is taken and clears the error |
| Memories.AddMemoryForm.PreviewLoaded | components/Memories.tsx:58-60 | the reader's data URL becomes the preview |
| Memories.AddMemoryForm.BeginSubmit | components/Memories.tsx:74-81 | a missing image or a blank prompt or date sets the error and sends nothing; otherwise the error clears, loading starts and the captured values go on |
| Memories.AddMemoryForm.CompleteSubmit | components/Memories.tsx:83-108 | a successful read adds exactly one memory at the front and resets the four fields; a failed read sets the error and leaves the album and fields alone; loading stops either way |
| Lunai.ChunkText | components/Lunai.tsx:49-52 | a chunk without text contributes `undefined`, as string concatenation does |
| Lunai.Concat | components/Lunai.tsx:48-54 | the chunks' texts one after the other, in stream order; ConcatAppend is its law |
| Lunai.ConcatAppend | components/Lunai.tsx:48-55 | concatenating two runs of chunks concatenates their texts |
| Lunai.Assistant.constructor | components/Lunai.tsx:11-13 | before mounting there is no transcript and no chat session |
| Lunai.Assistant.Mount | components/Lunai.tsx:16-23 | mounting opens a chat session and the transcript is exactly the greeting |
| Lunai.Assistant.EditInput | components/Lunai.tsx:35 | the input field's value |
| Lunai.Assistant.BeginSend | components/Lunai.tsx:32-43 | a blank input or a missing session changes nothing; otherwise the trimmed text and an empty model entry are appended, loading starts, the input clears and the trimmed text is sent |
| Lunai.Assistant.FinishSend | components/Lunai.tsx:45-66 | only the last entry changes: a completed stream appends the in-order concatenation of the chunks, a failed one leaves the apology; loading stops |
| Dashboard.PastTime | components/Dashboard.tsx:58-60 | the time lies the given hours and minutes before now |
| Dashboard.FutureTime | components/Dashboard.tsx:62-64 | the time lies the given days, hours and minutes after now |
| Dashboard.MockSchedule | components/Dashboard.tsx:66-71 | four games with pairwise distinct ids, built from the load time |
| Dashboard.IsLive | components/Dashboard.tsx:86-89 | a game is live from its start to three hours after it, both ends included |
| Dashboard.FindLive | components/Dashboard.tsx:86-90 | the first index whose game is live, from its start to three hours later inclusive, or none when no game is live |
| Dashboard.LiveGame | components/Dashboard.tsx:86-90 | the first live game in list order, or none exactly when no game is live |
| Dashboard.InsertByStart | components/Dashboard.tsx:120-122 | insertion keeps every game and adds exactly one |
| Dashboard.InsertKeepsSorted | components/Dashboard.tsx:120-122 | inserting into a list sorted by start keeps it sorted |
| Dashboard.SortByStart | components/Dashboard.tsx:122 | the comparator sort's result is sorted by start and a permutation of its input |
| Dashboard.SortedHeadIsEarliest | components/Dashboard.tsx:124 | the head of a sorted list starts no later than any of its games |
| Dashboard.UpcomingGames | components/Dashboard.tsx:120-122 | exactly the games that start after now, sorted by start |
| Dashboard.NextGame | components/Dashboard.tsx:124 | none exactly when no game starts after now; otherwise a game that starts after now and no later than any other such game |
| Dashboard.LiveIsNeverNext | components/Dashboard.tsx:86-124 | the live game and the next game are never the same game |
| Dashboard.MockScheduleStarts | components/Dashboard.tsx:66-71 | the four mock games start 1 h 38 min before load and 1 d 4 h 30 min, 5 d 2 h and 10 d after it |
| Dashboard.MockScheduleLiveAtLoad | components/Dashboard.tsx:66-90 | at load time the Ottawa game is live |
| Dashboard.MockScheduleNextAtLoad | components/Dashboard.tsx:66-124 | at load time the Toronto game is next |
| Dashboard.Countdown | components/Dashboard.tsx:131-140 | a negative distance shows zeros; otherwise hours, minutes and seconds are in range and the parts add up to the distance rounded down to whole seconds |
| Dashboard.AtLeastOnce | components/Dashboard.tsx:136-139 | helper lemma, arithmetic step of the countdown: a positive multiple of d is at least d |
| Dashboard.DivModUnique | components/Dashboard.tsx:136-139 | helper lemma, arithmetic step of the countdown: the floor quotient and remainder are the unique decomposition |
| Dashboard.CountdownParts | components/Dashboard.tsx:136-139 | the mixed-radix parts are in range and recompose the distance |
| Dashboard.CountdownOfParts | components/Dashboard.tsx:136-139 | the countdown reads back any in-range days, hours, minutes and seconds a distance was built from |
| Dashboard.CountdownToFutureDate | components/Dashboard.tsx:62-64 | a game scheduled `d` days, `h` hours and `m` minutes ahead counts down from exactly those values at load |
| Dashboard.TeamLabel | components/Dashboard.tsx:146-147 | at most three characters, each the upper-cased character of the opponent's name |
| Dashboard.ScoreboardFor | components/Dashboard.tsx:146-149 | MTL is on the side of the game's location and the opponent's label on the other; each side shows its own team's score, or none while there is no score |
| Dashboard.HockeyCountdown.RunLiveScoreEffect | components/Dashboard.tsx:92-118 | the effect records the live game's id, invalidates earlier fetches, clears the score, and turns the spinner on exactly when a game is live |
| Dashboard.HockeyCountdown.RunCountdownEffect | components/Dashboard.tsx:126-142 | the countdown holds the decomposed distance to the next game, or keeps its old value when there is no next game |
| Dashboard.CountdownAfter | components/Dashboard.tsx:126-142 | without a next game the old countdown stays; with one, the game lies ahead and the in-range parts add up to the distance rounded down to whole seconds |
| Dashboard.IdOf | components/Dashboard.tsx:118 | the live game's id, the effect's dependency; none when no game is live |
| Dashboard.HockeyCountdown.constructor | components/Dashboard.tsx:74-77 | mounting at `now` runs both effects on the initial state |
| Dashboard.HockeyCountdown.Tick | components/Dashboard.tsx:79-82 | a clock tick re-runs the live-score effect only when the live game's id changed, and always re-runs the countdown |
| Dashboard.HockeyCountdown.ScoreArrivedAsWritten | components/Dashboard.tsx:95-102 | a stale fetch is ignored; a current one stores the score but clears the spinner only when the closed-over flag was on |
| Dashboard.HockeyCountdown.ScoreArrived | components/Dashboard.tsx:95-102 | corrected: a current fetch stores the score and always clears the spinner; a stale one is ignored |
| Dashboard.ScenarioGame | components/Dashboard.tsx:86-124 | the scenario's game is not live at 0, is live at 1000, and then nothing is upcoming |
| Dashboard.ScenarioReply | services/geminiService.ts:194-209 | the scenario's reply parses to its score |
| Dashboard.GameStartsWhileMounted | components/Dashboard.tsx:92-118 | mounting before a game and ticking to its start leaves the spinner on with a closed-over flag that is off |
| Dashboard.StuckSpinnerScenario | components/Dashboard.tsx:99 | as written, the first score arrives and is stored, but the spinner stays on |
| Dashboard.CorrectedScenario | components/Dashboard.tsx:99 | with the corrected handler, the same steps show the score with the spinner off |
| Dashboard.MealPlanner.constructor | components/Dashboard.tsx:297-299 | empty query and plan, not loading |
| Dashboard.MealPlanner.EditQuery | components/Dashboard.tsx:321 | typing sets the query |
| Dashboard.MealPlanner.BeginGenerate | components/Dashboard.tsx:301-306 | a blank query sends nothing and keeps the plan; otherwise loading starts, the plan empties and the query is sent |
| Dashboard.MealPlanner.CompleteGenerate | components/Dashboard.tsx:307-309 | the service's plan (empty on any failure) is shown and loading stops |
| Dashboard.WeeklyUpdateGenerator.constructor | components/Dashboard.tsx:233-235 | no text, not loading, not copied |
| Dashboard.WeeklyUpdateGenerator.BeginGenerate | components/Dashboard.tsx:237-240 | loading starts; text and copied flag clear |
| Dashboard.WeeklyUpdateGenerator.CompleteGenerate | components/Dashboard.tsx:249-251 | the update (or its apology) is shown and loading stops |
| Dashboard.WeeklyUpdateGenerator.Copy | components/Dashboard.tsx:254-259 | with no text nothing changes; otherwise the copied flag is raised |
| GeminiService.Sources | services/geminiService.ts:26-29 | at most one source per chunk, each with a non-empty uri and title |
| GeminiService.IsUsable | services/geminiService.ts:28 | the filter's test: a web entry whose uri and title are both present and non-empty |
| GeminiService.ToSource | services/geminiService.ts:29 | the kept chunk's uri and title, both non-empty |
| GeminiService.SourcesAreUsableChunks | services/geminiService.ts:24-29 | the sources are exactly the usable chunks, in order, one each |
| GeminiService.GroundedSuggestions | services/geminiService.ts:12-39 | failure gives the apology and no sources; otherwise the answer with exactly the sources built from the first candidate's grounding chunks (none when there is no grounding metadata), each with a uri and a title |
| GeminiService.ShiftLines | services/geminiService.ts:52-56 | one line for each of the first three shifts, in calendar order; birthdays skipped |
| GeminiService.AssigneeName | services/geminiService.ts:55 | never empty: the assignee's name when there is a non-empty one, otherwise "unassigned" |
| GeminiService.TimeText | services/geminiService.ts:55 | the event's time, or "undefined" when it has none, as template interpolation writes it |
| GeminiService.ShiftLine | services/geminiService.ts:55 | a bullet line that holds a line break exactly when the day, time, title or assignee name does |
| GeminiService.LogLine | services/geminiService.ts:61 | a bullet line that holds a line break exactly when the author's name or the content does |
| GeminiService.TaskLine | services/geminiService.ts:66 | a bullet line that holds a line break exactly when the task's title does |
| GeminiService.ShoppingLine | services/geminiService.ts:70 | a bullet line that holds a line break exactly when the item's name or its adder's name does |
| GeminiService.LogLines | services/geminiService.ts:59-62 | exactly `min(2, length)` lines, one for each of the first wellness logs, in order |
| GeminiService.OpenTaskLines | services/geminiService.ts:64-67 | one line per task that is not done, in project order |
| GeminiService.ShoppingText | services/geminiService.ts:69-71 | the all-clear sentence exactly when the shopping list is empty; otherwise one line per item, in list order, joined with line breaks |
| GeminiService.JoinStartsWithFirst | services/geminiService.ts:69-71 | helper lemma: a joined text starts with its first piece's first character |
| GeminiService.WeeklyDigestFor | services/geminiService.ts:48-88 | the prompt carries the project's title; the shift, log and task sections are their lines joined with line breaks, and each is empty exactly when there is nothing to list; the shopping section is the shopping text, the all-clear sentence exactly when the list is empty |
| GeminiService.DigestSectionLines | services/geminiService.ts:52-67 | a section's lines can be read back from its text when no line holds a line break |
| GeminiService.DigestSectionsReadBack | services/geminiService.ts:48-88 | when no line holds a line break, each non-empty section of the digest splits on line breaks back into exactly its shift, log, task or shopping lines |
| GeminiService.WeeklyUpdate | services/geminiService.ts:100-109 | the model's text, or the fixed apology on failure |
| GeminiService.MealPlan | services/geminiService.ts:146-155 | a non-empty plan needs a reply whose trimmed text is bracketed; such a reply yields its decoded plan, or an empty one on a parse error |
| GeminiService.MemoryStory | services/geminiService.ts:163-181 | the model's text, or the fixed apology on failure |
| GeminiService.ParseLiveScore | services/geminiService.ts:184-217 | failure gives no score; a reply gives a score exactly when its trimmed text splits on ',' into four parts, which are then the score's fields in order |
| GeminiService.ScoreOfFields | services/geminiService.ts:201-210 | four comma-separated parts give the score with those fields; any other count gives none |
| GeminiService.BlankReplyHasNoScore | services/geminiService.ts:194-199 | an empty or all-whitespace reply gives no score |
| GeminiService.ParsedScoreRejoins | services/geminiService.ts:194-209 | joining a parsed score's fields with ',' gives back the trimmed reply |
| GeminiService.JoinFour | services/geminiService.ts:188 | the requested reply format is the fields joined with ',' |
| GeminiService.FormatScore | services/geminiService.ts:188 | the reply format `MTL,OPP,PERIOD,TIME`; JoinFour and ParseFormattedScore are its laws |
| GeminiService.FormattedScoreSplits | services/geminiService.ts:188-203 | a well-formed score's reply splits on ',' into exactly its four fields |
| GeminiService.FormattedScoreIsTrimmed | services/geminiService.ts:194 | a well-formed score's reply has no whitespace at either end |
| GeminiService.ParseFormattedScore | services/geminiService.ts:184-217 | a well-formed score written in the requested format parses back to itself |
| Text.Trim | components/CareCircle.tsx:68 | `trim`: a slice of the input with only whitespace before and after it; nothing is left exactly when the string is all whitespace; no whitespace at either end; a string already trimmed is unchanged |
| Text.TrimIsTheWhitespaceFreeMiddle | components/CareCircle.tsx:68 | the slice between the first and the last non-whitespace character is the trimmed string |
| Text.TrimStartStopsAt | services/geminiService.ts:194 | helper lemma: dropping leading whitespace stops at the first non-whitespace character |
| Text.TrimEndStopsAt | services/geminiService.ts:194 | helper lemma: dropping trailing whitespace stops after the last non-whitespace character |
| Text.TrimStart | services/geminiService.ts:194 | the result is a suffix and what was dropped is whitespace |
| Text.TrimEnd | services/geminiService.ts:194 | the result is a prefix and what was dropped is whitespace |
| Text.Split | services/geminiService.ts:201 | `split`: never empty, and no piece holds the separator |
| Text.Join | services/geminiService.ts:56 | `join`: the pieces with the separator between them; JoinSplit and SplitJoin are its round trips with Split |
| Text.JoinSplit | services/geminiService.ts:201 | joining the pieces of a split gives the input back |
| Text.SplitPrefix | services/geminiService.ts:201 | a separator-free prefix extends the first piece of the split |
| Text.SplitJoin | services/geminiService.ts:201 | splitting a join of separator-free pieces gives the pieces back |
| Text.SplitCount | services/geminiService.ts:203 | a split has one more piece than the input has separators |
| Text.DigitChar | components/CareCircle.tsx:71 | helper: a digit's character is a decimal digit |
| Text.NatToString | components/CareCircle.tsx:71 | `${n}`: a non-empty string of decimal digits |
| Text.ParseNatToString | components/CareCircle.tsx:71 | the decimal rendering reads back as the number |
| Text.NatToStringInjective | components/CareCircle.tsx:71 | different numbers render differently |
| Text.ToUpperAscii | components/Dashboard.tsx:146 | `toUpperCase` keeps the length and upper-cases each character |
| Seqs.Filter | components/Projects.tsx:41 | `filter` keeps only elements satisfying the predicate and never grows |
| Seqs.FilterMultiset | components/Projects.tsx:41-43 | `filter` keeps every satisfying element as often as it occurs, and nothing else |
| Seqs.FilterCons | components/CareCircle.tsx:188 | filtering a list with a given first element |
| Seqs.FilterConcat | components/CareCircle.tsx:188 | `filter` keeps the original order: it works piece by piece on a concatenation |
| Seqs.FilterMembership | components/Dashboard.tsx:121 | an element is kept exactly when it occurs and satisfies the predicate |
| Seqs.Take | services/geminiService.ts:54 | `slice(0, n)`: the first `min(n, length)` elements |
| Seqs.Map | services/geminiService.ts:55 | `map`: one image per element, in order |
| Seqs.Reverse | components/Memories.tsx:170 | `reverse` on a copy: position `i` comes from position `length-1-i` |
| Seqs.ReverseReverse | components/Memories.tsx:170 | reversing twice gives the list back |
| Seqs.ReverseCons | components/Memories.tsx:163-170 | the element put in front ends up last in the reversal |
| Seqs.ReverseMultiset | components/Memories.tsx:170 | reversal keeps every element with its multiplicity |

## Left out

- Rendering: markup, styling, icons and the scroll-to-bottom effects of the chat and the assistant.
- The hosted-model client, its prompts' fixed prose and its network calls. The outcome of each call enters as a `Reply` or `GroundedReply` parameter. The rest of the code is modelled from there on.
- The assistant's streaming transport: the stream enters as its chunks, plus whether it threw.
- Lunai.Assistant: the input field is DOM state in the component, not React state. The model keeps it as a field.
- Lunai.Assistant.FinishSend: does not model that each updater mutates the previous array's last message object in place. Under React's development double-invocation that would add a chunk twice. Only the resulting list is stated.
- `JSON.parse` enters as the `decode` parameter of GeminiService.MealPlan. A parse error is `None`.
- GeminiService.ParseLiveScore: a response whose `text` is undefined gives no score, like a failed call. The model folds that case into `Failed`.
- `FileReader` and base64 encoding. Only whether the read succeeded is kept. The preview's data URL is a parameter, and a missing preview becomes the empty string in Memories.NewMemory.
- Clocks and timers are parameters or explicit steps: `Date.now()`, the one-second interval, the one-minute polling interval, and the two-second reset of the copy flag. Each poll is a separate call of Dashboard.HockeyCountdown.ScoreArrived for the current epoch.
- Locale time formatting (`toLocaleTimeString`) and ISO date strings. Times are whole milliseconds and the chat timestamp is a parameter.
- Dashboard.NextGame: does not state which game is chosen among several with the same earliest start. The model's sort is stable, as the engine's is.
- Dashboard.HockeyCountdown: the unmount cleanup (clearing intervals) is left out. Only the `isMounted` flag's effect on stale fetches is kept, as the epoch.
- Clipboard access in Dashboard.WeeklyUpdateGenerator.Copy.
- `toUpperCase` beyond ASCII letters. Other characters are kept as they are.
- Dashboard.TeamLabel: a Dafny string is a sequence of Unicode scalar values, while JavaScript's `substring`, `length` and indices count UTF-16 code units. For a name holding a character outside the Basic Multilingual Plane the first three code units and the first three characters differ; the same holds for every length and index in the model.
- The header clock, the login picker, the pet-and-baby log and the static mock data of the other pages. They hold no logic beyond display.
- The vault's password check offers no security. The model states only the gate's transitions.
- There is no persistence anywhere in the application, so none is modelled.

## Findings

| source | as written | input that shows it | evidently intended | confidence | as-written member | corrected member |
|---|---|---|---|---|---|---|
| components/Dashboard.tsx:99 | `fetchScore` clears the spinner only if `isScoreLoading` was true in the render that created the effect. That closed-over value can be stale. | Mount at time 0 with one game starting at 1000. Tick to 1000: the effect turns the spinner on while its closure holds `false`. When the first score arrives, it is stored, but the spinner stays on for as long as the game is live. | The first score to arrive clears the spinner. | not executed | Dashboard.StuckSpinnerScenario, Dashboard.HockeyCountdown.ScoreArrivedAsWritten | Dashboard.CorrectedScenario, Dashboard.HockeyCountdown.ScoreArrived |
