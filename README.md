# A verified model of the 3D-artist dashboard's organizer and chat bots

The dashboard is a single-page app for a 3D artist. It keeps a task list and
a note list, scans social-media trends, and composes posts for several
platforms. A Telegram bot lets the user drive the organizer from a chat.
The bot exists twice:

- **in the browser**: a three-second interval in `App.tsx` polls the bot,
  acts on the last message of each poll, and sends the daily reminder;
- **on the server**: `server.js` keeps its own in-memory lists and handles
  every message of each poll.

This project models the logic of these parts in Dafny and proves what they
promise:

| module | file | what it models |
|---|---|---|
| `JsText` | `text.dfy` | the JavaScript built-ins the logic relies on: `trim`, `startsWith`, `replace` with a string pattern, `parseInt`, `Number`, `split`, and the decimal rendering of `Date.now()` and of chat ids |
| `Records` | `records.dfy` | the shapes of `types.ts` (task, note, settings, platform, trend), the poll answer, and the outgoing messages, compared by kind rather than wording |
| `TelegramService` | `telegram.dfy` | the pure parts of `services/aiService.ts`: the command classifier, the poll cursor, the category-driven trend search and tagging, the alert emoji, and the send guards |
| `Organizer` | `organizer.dfy` | the handlers of `components/TaskManager.tsx`, as functions from page state to page state |
| `Reminder` | `reminder.dfy` | the daily reminder check of the tick |
| `Dashboard` | `dashboard.dfy` | the tick and the trend scan of `App.tsx`: the command dispatch, the state, and the class `App` whose methods update it in place |
| `ServerBot` | `server.dfy` | `processCommands`, with task objects as heap cells, since `/done` writes through a filtered view of the list |
| `Composer` | `composer.dfy` | the platform multi-select and the results map of `PostGenerator.tsx`, as the class `PostComposer` |

Whatever the outside world decides becomes a parameter:

- the poll answer (`Poll`);
- the clock (`Clock`, or a `stamp` per server update);
- what the generation services answer, with `None` for a call that failed;
- the text of a brainstormed idea.

A message that is sent is appended to an outgoing log. The log's send
guard drops it when the bot token or the chat id is empty.

Several behaviours of the code are proved as they stand:

- The browser classifier tests `/task` before `/tasks`, so `/tasks` is an
  add-task whose text starts with "s", and only `/list` lists
  (`TelegramService.TasksAliasIsShadowed`, `TelegramService.ListOnlyByListToken`).
- The browser tick acts on the last update of a poll alone
  (`TelegramService.OnlyLastUpdateCounts`). The server acts on every update
  (`ServerBot.TaskBatchAppendsAll`).
- The browser tick runs its reminder check on the tasks and the watermark it
  started with, because a React state setter does not change the values the
  running callback already holds. A reminder in the same tick as an
  add-task therefore does not list the new task
  (`Dashboard.ReminderSeesTickStart`).
- The server's `/note` saves a note even when its text is empty
  (`ServerBot.NoteAlwaysAppends`). Its `/task` does not
  (`ServerBot.TaskAppends`).
- Toggling a platform removes every copy of it, so "the selection never
  becomes empty" holds only for a selection without repeats. The composer
  starts without repeats, and every operation keeps it so
  (`Composer.ToggleKeepsSelection`, `Composer.PostComposer.Valid`).

## Model

| member | source | states |
|---|---|---|
| JsText.TrimStartKeepsSuffix | components/TaskManager.tsx:25 | the start of `trim` drops only white space and keeps a suffix that does not start with white space |
| JsText.TrimEndKeepsPrefix | components/TaskManager.tsx:25 | the end of `trim` drops only white space and keeps a prefix that does not end with white space |
| JsText.LeadingSpace | components/TaskManager.tsx:25 | the count of leading white space `trim` drops is at most the length; what that count means (the run of white space before the first other character) is stated by `JsText.TrimIsCore` |
| JsText.TrimIsCore | components/TaskManager.tsx:25 | `trim` returns the slice between the leading and the trailing white space; the slice neither starts nor ends with white space |
| JsText.Trim | components/TaskManager.tsx:25 | `String.prototype.trim` as `TrimEnd` after `TrimStart`; `JsText.TrimIsCore`, `JsText.TrimEmptyIffAllSpace` and `JsText.TrimIdempotent` state what it returns |
| JsText.TrimEmptyIffAllSpace | components/TaskManager.tsx:25 | `!s.trim()` holds exactly when `s` is all white space (both directions) |
| JsText.TrimIdempotent | services/aiService.ts:280 | trimming a trimmed payload changes nothing |
| JsText.IndexOf | services/aiService.ts:280 | a found index is the position of an occurrence of the pattern |
| JsText.IndexOfIsFirst | services/aiService.ts:280 | the found occurrence is the first; none is reported only when none exists, which is the occurrence `replace` with a string pattern removes |
| JsText.RemoveLeadingToken | services/aiService.ts:278-280 | when the text starts with the command token, `replace(token, "")` drops exactly that prefix |
| JsText.RemoveFirst | services/aiService.ts:280 | `replace` with a string pattern: the first occurrence found by `IndexOf` is cut out, and a miss leaves the text; `JsText.IndexOfIsFirst` and `JsText.RemoveLeadingToken` state its effect |
| JsText.RadixPrefix | App.tsx:116 | the digits `parseInt` reads are the longest prefix of radix digits |
| JsText.DigitChar | components/TaskManager.tsx:27 | each digit value renders as the matching decimal digit |
| JsText.DecimalString | components/TaskManager.tsx:27 | `Date.now().toString()` is a non-empty digit string |
| JsText.DecimalStringValue | components/TaskManager.tsx:27 | the rendered id reads back as the millisecond count |
| JsText.IntegerString | App.tsx:95 | `chatId.toString()` is never empty |
| JsText.IntegerStringEnds | App.tsx:95 | `String(n)` starts with a sign or a digit and ends with a digit |
| JsText.ParseDecimal | server.js:89 | a digit string followed by a non-digit parses to its decimal value |
| JsText.ParseUnsigned | App.tsx:116 | a string that starts with a digit, and not with `0x`, is read in radix 10 from its first character |
| JsText.RadixPrefixOfDigits | App.tsx:116 | before a non-digit, `parseInt` takes exactly the digit string |
| JsText.ParseIntRoundTrip | App.tsx:116 | `parseInt(String(n))` is `n` for every integer `n` |
| JsText.ParseInt | App.tsx:116 | `parseInt` without a radix: leading white space, a sign, a `0x` prefix, then the longest digit prefix, or NaN when there is none; `JsText.ParseUnsigned`, `JsText.ParseDecimal` and `JsText.ParseIntRoundTrip` state its results |
| JsText.ToNumberOfDigits | App.tsx:148 | `Number` of a plain digit string is its decimal value |
| JsText.UnsignedDigits | App.tsx:148 | an unsigned digit literal has its decimal value |
| JsText.ToNumber | App.tsx:148 | `Number` of a string: trimmed, empty as 0, prefixed integers, a signed decimal literal, or NaN; `JsText.ToNumberOfDigits` states its value for a digit string |
| JsText.Split | App.tsx:148 | `split(':')` returns at least one piece, and no piece contains the separator |
| JsText.IndexOfChar | App.tsx:148 | the split point is the first occurrence of the separator |
| JsText.SplitJoin | App.tsx:148 | joining the pieces of `split` with the separator gives back the string |
| Organizer.Filter | components/TaskManager.tsx:44 | `tasks.filter(...)` keeps exactly the tasks that pass, and never grows the list |
| Organizer.FilterConcat | components/TaskManager.tsx:44 | filtering distributes over concatenation, so it keeps the order |
| Organizer.FilterKeepsAll | components/TaskManager.tsx:44 | a filter that every task passes is the identity |
| Organizer.Texts | App.tsx:110 | the texts of a task list, element by element |
| Organizer.Active | App.tsx:117 | `tasks.filter(t => !t.completed)`, the open view; `Organizer.AddTaskOpensOne` and `Dashboard.CompleteNthOpen` state how the handlers change it |
| Organizer.AddTask | components/TaskManager.tsx:24-36 | white-space-only input changes nothing; otherwise an open task with the untrimmed input and the daily flag goes in front, and the input and the flag are reset |
| Organizer.AddTaskOpensOne | components/TaskManager.tsx:24-36 | adding a task puts it at the head of the open list and grows that list by one |
| Organizer.ToggleById | components/TaskManager.tsx:39 | exactly the tasks with the id flip `completed`; every other task stays |
| Organizer.ToggleTask | components/TaskManager.tsx:38-41 | toggling changes only the task list |
| Organizer.ToggleTwice | components/TaskManager.tsx:38-41 | toggling the same id twice restores the list |
| Organizer.DeleteTask | components/TaskManager.tsx:43-45 | the tasks become the order-keeping filter without the id (`Organizer.FilterConcat` gives the order): exactly the tasks with the id go; an unknown id changes nothing; nothing else on the page changes |
| Organizer.AddThenDeleteTask | components/TaskManager.tsx:24-45 | deleting the task just added, when its id was unused, restores the list |
| Organizer.AddNote | components/TaskManager.tsx:48-57 | white-space-only input changes nothing; otherwise the note goes in front and the input is reset |
| Organizer.WithoutNote | components/TaskManager.tsx:60 | exactly the notes with the id are removed |
| Organizer.DeleteNote | components/TaskManager.tsx:59-61 | the notes become the order-keeping removal of the id (`Organizer.WithoutNoteConcat`): exactly the notes with the id go, and nothing else changes |
| Organizer.WithoutNoteConcat | components/TaskManager.tsx:60 | note removal distributes over concatenation, so it keeps the order |
| Organizer.SetDailyReminders | components/TaskManager.tsx:64-66 | only the reminder flag changes, to the checkbox value |
| Organizer.SetReminderTime | components/TaskManager.tsx:68-70 | only the reminder time changes, to the field value |
| Reminder.ReminderMessage | App.tsx:152-158 | the reminder lists the open tasks in order, or is the no-tasks variant exactly when nothing is open |
| Reminder.CheckReminder | App.tsx:145-160 | when enabled, set, at the configured hour and minute, and not yet sent today, the check sends the reminder and stores today; otherwise it changes nothing |
| Reminder.ReminderTime | App.tsx:148 | `dailyReminderTime.split(':').map(Number)` destructured into hour and minute, with a missing minute as NaN; `Reminder.DigitTimeReads` states that "hh:mm" reads as its two values |
| Reminder.ShouldFire | App.tsx:145-151 | the reminder condition: enabled, a time set, hour and minute equal to the clock's, and a date other than the watermark; `Reminder.WatermarkMovesIffFired` and `Reminder.AtMostOncePerDay` state its consequences |
| Reminder.WatermarkMovesIffFired | App.tsx:151-159 | the stored date changes exactly when the reminder fires, and only to today |
| Reminder.AtMostOncePerDay | App.tsx:151-159 | after a reminder, any later check on the same date sends nothing |
| Reminder.FiresOnEachDay | App.tsx:147-159 | a new date re-arms the reminder |
| Reminder.DigitTimeReads | App.tsx:148 | an `HH:MM` setting of digits reads as that hour and minute |
| Reminder.NineOClock | App.tsx:23 | the default time "09:00" is nine o'clock sharp |
| Reminder.DisabledNeverFires | components/TaskManager.tsx:64-66 | switching reminders off silences the check at any time |
| Reminder.EnabledFiresAtTime | components/TaskManager.tsx:64-70 | switching them on at "09:00" fires at 9:00 on a new day |
| TelegramService.FirstMatch | services/aiService.ts:278-299 | the first entry of a token table that prefixes the text, or none when no token prefixes it |
| TelegramService.FirstTokenIndex | services/aiService.ts:278-299 | the index of the first token that prefixes the text |
| TelegramService.FirstMatchAt | services/aiService.ts:278-299 | the first match is the entry at that index |
| TelegramService.ClassifyIsFirstMatch | services/aiService.ts:275-299 | the classifier agrees with the token table: the first matching token decides the command; add-task, add-note and done carry the trimmed rest of the text; other commands carry no payload; no match gives no command |
| TelegramService.Classify | services/aiService.ts:275-299 | the `startsWith` chain in source order; `TelegramService.ClassifyIsFirstMatch` proves it equals first match over the independent command table |
| TelegramService.PayloadAfter | services/aiService.ts:280 | `text.replace(token, "").trim()`; `JsText.RemoveLeadingToken` and `JsText.TrimIsCore` state what remains |
| TelegramService.TaskTokenPrefixesTasks | services/aiService.ts:278-284 | a text starting with "/tasks" also starts with "/task" |
| TelegramService.TasksAliasIsShadowed | services/aiService.ts:278-284 | "/tasks…" is classified as add-task with payload "s…", never as a list request |
| TelegramService.ListOnlyByListToken | services/aiService.ts:284 | the list command comes exactly from texts starting with "/list" |
| TelegramService.NothingDeliveredKeepsCursor | services/aiService.ts:264-306 | no token, a failed request, a not-ok answer or an empty batch reports no command and keeps the cursor |
| TelegramService.OnlyLastUpdateCounts | services/aiService.ts:270-301 | only the last update of a batch is classified, and its id becomes the cursor |
| TelegramService.CursorMonotone | services/aiService.ts:263-306 | the cursor never moves back, and moves forward exactly when a batch was delivered |
| TelegramService.CheckCommands | services/aiService.ts:263-306 | no token or a failed poll keeps the cursor and gives no command; otherwise the last update is classified and its id becomes the cursor; `TelegramService.NothingDeliveredKeepsCursor`, `TelegramService.OnlyLastUpdateCounts` and `TelegramService.CursorMonotone` state this |
| TelegramService.SearchFor | services/aiService.ts:156-168 | the general search is used exactly for the General category |
| TelegramService.SearchRoundTrip | services/aiService.ts:156-168 | each category gets its own search |
| TelegramService.TagTrends | services/aiService.ts:179 | every trend gets the category; all other fields and the order stay |
| TelegramService.AnalyzeTrends | services/aiService.ts:152-190 | a failed call gives no trends; a successful one gives the generated trends in order, each tagged with the category and otherwise unchanged (`TelegramService.TagTrends`) |
| TelegramService.EmojiFor | services/aiService.ts:215-218 | the fire emoji is used exactly for a missing or General category |
| TelegramService.EmojiDistinguishesCategories | services/aiService.ts:215-218 | Audio, Formats and Plots have three different emoji |
| TelegramService.Send | services/aiService.ts:194-210 | nothing is sent exactly when the token or the chat id is empty; otherwise exactly that message goes to that chat |
| TelegramService.Notify | services/aiService.ts:212-251 | the alert carries the category's emoji and the trend, under the same guard |
| Dashboard.CompleteById | App.tsx:121 | exactly the tasks with the id become completed; every other task stays |
| Dashboard.CompleteByIdActive | App.tsx:121 | completing by id takes exactly the tasks with that id off the open list, in order |
| Dashboard.FilterUnique | App.tsx:117 | the open list of a list with distinct ids has distinct ids |
| Dashboard.DropUniqueId | App.tsx:121 | with distinct ids, dropping one element's id drops that element alone |
| Dashboard.CompleteNthOpen | App.tsx:116-121 | with distinct ids, completing the n-th open task removes exactly it from the open list |
| Dashboard.NumberedFrom | App.tsx:109 | the open lines are numbered consecutively from the offset plus one |
| Dashboard.TaskListing | App.tsx:107-113 | the placeholder appears exactly when nothing is open; otherwise line k+1 is the k-th open task; the done part lists the completed tasks in order |
| Dashboard.DoneIndex | App.tsx:114-119 | a position is picked exactly when the payload parses to a number from 1 to the open count, and it is that number minus one |
| Dashboard.ListedNumberCompletes | App.tsx:109-122 | the number a task is listed under is the number `/done` takes to complete it |
| Dashboard.DoneIndexOfNumber | App.tsx:116-119 | the rendered number n, from 1 to the open count, picks position n-1 |
| Dashboard.DispatchAddTask | App.tsx:97-101 | add-task with text puts one open, non-daily task with that text in front and acknowledges it |
| Dashboard.DispatchEmptyPayload | App.tsx:97-126 | add-task, add-note or done without text does nothing and sends nothing |
| Dashboard.DispatchDoneValid | App.tsx:114-122 | a valid number completes exactly the tasks with the n-th open task's id and acknowledges its text; with distinct ids the open list loses exactly that task |
| Dashboard.DispatchDoneInvalid | App.tsx:119-125 | an invalid number leaves the tasks alone and reports it |
| Dashboard.DispatchAddNote | App.tsx:102-106 | `add_note` with text prepends exactly one note with that text and the clock's id and time, keeps the tasks, starts no scan and sends the guarded acknowledgement |
| Dashboard.DispatchCheckTrends | App.tsx:127-130 | the scan flag is set exactly for `check_trends`, which keeps both lists and sends the guarded scanning notice |
| Dashboard.DispatchRepliesOnly | App.tsx:107-141 | `list_tasks`, `get_idea`, `get_help`, `start` and `get_status` keep both lists, start no scan, and send only their replies: the listing of the current tasks, the notice then the idea, the help text, or the status |
| Dashboard.Dispatch | App.tsx:94-141 | the command branches of the tick, each as its change to tasks and notes, its replies and the scan flag; `Dashboard.DispatchAddTask`, `Dashboard.DispatchAddNote`, `Dashboard.DispatchEmptyPayload`, `Dashboard.DispatchDoneValid`, `Dashboard.DispatchDoneInvalid`, `Dashboard.DispatchCheckTrends` and `Dashboard.DispatchRepliesOnly` state the branches |
| Dashboard.ScanStep | App.tsx:71-83 | a non-empty result replaces the trends and an empty one keeps them; a silent scan with a token sends the alert for the top trend, and no other scan sends anything; the busy flag ends cleared unless silent; nothing else changes |
| Dashboard.CommandPhase | App.tsx:91-142 | the poll cursor is stored; without a command from a chat nothing else changes; the reminder date and the category never change |
| Dashboard.Actionable | App.tsx:94 | `command && chatId`: a recognised command from a chat whose id is not 0; `Dashboard.CommandPhase` states that nothing but the cursor changes otherwise |
| Dashboard.TickStoresCursor | App.tsx:91-92 | every tick stores the poll's cursor, which never moves back |
| Dashboard.TickStep | App.tsx:86-166 | one interval callback: nothing without a token, else the command phase and then the reminder on the tick's starting values; `Dashboard.TickStoresCursor`, `Dashboard.TickWithoutCommand`, `Dashboard.TickReminderOncePerDay` and `Dashboard.ReminderSeesTickStart` state its effect |
| Dashboard.TickWithoutCommand | App.tsx:94-142 | without a recognised command from a chat, the lists, the trends and the category stay |
| Dashboard.TickReminderOncePerDay | App.tsx:145-160 | after a tick that sent the reminder, no later tick on the same date sends it |
| Dashboard.ReminderSeesTickStart | App.tsx:145-160 | the reminder of a tick lists the tasks the tick started with |
| Dashboard.App.constructor | App.tsx:41-61 | a fresh page starts with the saved lists, no trends, the General category, cursor 0 and no reminder date |
| Dashboard.App.PerformScan | App.tsx:71-83 | the scan changes the state exactly as `Dashboard.ScanStep` says: replace on a non-empty result, alert on a silent scan with a token |
| Dashboard.App.Tick | App.tsx:86-163 | the interval callback changes the state exactly as the tick function says |
| ServerBot.OpenPositions | server.js:90 | every position in the open view is an open task |
| ServerBot.OpenPositionsComplete | server.js:90 | the open view holds every open task once, in insertion order |
| ServerBot.OpenPositionsSnoc | server.js:72 | appending a task extends the open view by its position when it is open |
| ServerBot.DoneTextsAreDone | server.js:85 | a text is in the done part if and only if some done task carries it |
| ServerBot.ServerListingShows | server.js:83-86 | the placeholder appears exactly when nothing is open; otherwise line k+1 is the k-th open task; the done part lists the done tasks |
| ServerBot.ServerListing | server.js:84-86 | the `/list` reply built from the open view and the done texts; `ServerBot.ServerListingShows` states its content |
| ServerBot.DoneTarget | server.js:89-91 | an element is picked exactly when the number parses to a value from 1 to the open count |
| ServerBot.MarkOpen | server.js:90-92 | marking the k-th open task done removes exactly that position from the open view |
| ServerBot.MarkLastOpen | server.js:90-92 | marking the last task done, when open, leaves the open view of the tasks before it |
| ServerBot.MarkBeforeLast | server.js:90-92 | marking an earlier task leaves the last task's part of the open view alone |
| ServerBot.ParseDoneNumber | server.js:88-89 | "/done " followed by a rendered number is read as that number |
| ServerBot.ParseDoneText | server.js:88-89 | a text starting with `/done` is a done command carrying the trimmed rest |
| ServerBot.Parse | server.js:63-105 | empty text, else the first of `/task`, `/note`, `/list`, `/done`, `/idea`, `/help` the text starts with, with the trimmed payload where used; `ServerBot.ParseDoneText` and `ServerBot.ParseDoneNumber` state the `/done` case |
| ServerBot.TrimSpacedNumber | server.js:89 | a rendered number after one space trims to itself |
| ServerBot.TrimEndOfDigits | server.js:89 | `trim` keeps a trailing digit |
| ServerBot.Apply | server.js:65-105 | no command changes the cursor, and no command shrinks a list; each command's effect is stated by `ServerBot.TaskAppends`, `ServerBot.NoteAlwaysAppends`, `ServerBot.DoneMarksNth`, `ServerBot.RepliesOnly` and `ServerBot.EmptyTextOnlyMovesCursor` |
| ServerBot.WithReply | server.js:43-52 | one guarded `sendTelegram` appended to the log, nothing else changed; `ServerBot.RepliesOnly` states it for the reply-only commands |
| ServerBot.RepliesOnly | server.js:83-105 | `/list` sends the listing of the current tasks, `/idea` the progress notice and then the answer, `/help` the summary, each changing nothing else; an unknown command changes nothing |
| ServerBot.DoneCommand | server.js:88-96 | `/done` keeps the task count and the notes |
| ServerBot.Step | server.js:62 | the cursor moves to the update's id before anything else |
| ServerBot.Inputs | server.js:61-63 | one parsed input per update |
| ServerBot.NoTokenNoOp | server.js:55 | without a token nothing changes |
| ServerBot.Run | server.js:54-111 | nothing without a token or after a failed, not-ok or empty poll, else the batch in order; `ServerBot.NoTokenNoOp` and `ServerBot.RunCursorMonotone` state the no-op cases and the cursor, and `ServerBot.Server.ProcessCommands` is proved equal to it |
| ServerBot.RunCursorMonotone | server.js:55-62 | a failed, not-ok or empty poll leaves the whole state unchanged; a delivered batch leaves the cursor at its last id; with updates only after the cursor, the cursor never moves back |
| ServerBot.CursorAfterPrefix | server.js:61-62 | after any prefix of a batch the cursor is the id of the prefix's last update |
| ServerBot.EmptyTextOnlyMovesCursor | server.js:63-65 | an update without text only moves the cursor |
| ServerBot.TaskAppends | server.js:69-76 | `/task` with text appends one open task and acknowledges it; without text it adds nothing and asks for text |
| ServerBot.NoteAlwaysAppends | server.js:78-81 | `/note` appends a note even with empty text, sends the guarded acknowledgement, and changes nothing else |
| ServerBot.DoneMarksNth | server.js:88-96 | a valid `/done n` marks the n-th open task done in place and nothing else, and the open view loses it; otherwise the list stays and the number is reported invalid |
| ServerBot.ListedNumberCompletes | server.js:83-96 | `/done` with the number `/list` shows completes the listed task |
| ServerBot.DoneTargetOfNumber | server.js:89-91 | the rendered number n, from 1 to the open count, picks element n-1 |
| ServerBot.TaskBatchAppendsAll | server.js:60-76 | a batch of `/task` commands appends all their texts in batch order |
| ServerBot.Batch | server.js:61-106 | the updates of a poll handled in order, each by `Step`; `ServerBot.CursorAfterPrefix` and `ServerBot.TaskBatchAppendsAll` state its effect |
| ServerBot.BatchSnocTask | server.js:61-76 | a batch ending in a `/task` with text ends by appending that task |
| ServerBot.TaskTextsSnoc | server.js:72 | appending a task appends its text to the list of texts |
| ServerBot.Values | server.js:21 | the task objects read as values, element by element |
| ServerBot.TaskCell.constructor | server.js:72 | a new task object has the stamp, the text and `done` false |
| ServerBot.Server.constructor | server.js:21-23 | the process starts with empty lists and cursor 0 |
| ServerBot.Server.Reply | server.js:43-52 | a reply goes to the configured chat, under the send guard |
| ServerBot.Server.PushTask | server.js:72 | a new task object is appended, and the earlier objects stay |
| ServerBot.Server.MarkDone | server.js:88-96 | marking through the open view changes the objects as the `/done` function says |
| ServerBot.Server.Handle | server.js:62-105 | one update changes the state as the step function says |
| ServerBot.Server.Perform | server.js:65-105 | the command branches change the state as the apply function says |
| ServerBot.Server.ProcessCommands | server.js:54-111 | one poll changes the state as the batch function says, keeping every task a distinct object |
| Composer.AllPlatformsComplete | constants.ts:4-13 | select-all picks every platform once |
| Composer.Without | PostGenerator.tsx:46 | exactly that platform is removed |
| Composer.WithoutAbsent | PostGenerator.tsx:46 | removing an unselected platform changes nothing |
| Composer.WithoutAt | PostGenerator.tsx:46 | without repeats, removing the platform at a position keeps the others in order |
| Composer.WithoutLast | PostGenerator.tsx:46-48 | removing the platform just appended restores the selection |
| Composer.TogglePlatform | PostGenerator.tsx:41-51 | toggled membership: removed unless it was the only one, appended when absent; no other platform changes membership |
| Composer.ToggleRemovesAt | PostGenerator.tsx:46 | with others selected, toggling a selected platform removes it and keeps the rest in order |
| Composer.ToggleTwice | PostGenerator.tsx:41-51 | toggling an unselected platform twice restores the selection |
| Composer.ToggleKeepsSelection | PostGenerator.tsx:43-48 | a non-empty selection without repeats stays so, so it is never emptied |
| Composer.ResultsMap | PostGenerator.tsx:74-77 | the results map has exactly the selected platforms as keys |
| Composer.LastAnswerWins | PostGenerator.tsx:74-77 | each entry holds the answer for the platform's last occurrence |
| Composer.ResultsOfDistinct | PostGenerator.tsx:74-77 | without repeats, every selected platform holds its own answer |
| Composer.BuildResults | PostGenerator.tsx:74-77 | the `forEach` builds the results map |
| Composer.TranslatedResults | PostGenerator.tsx:103-106 | a translation writes only that platform's entry; the handler's catch (`None`) changes nothing |
| Composer.TranslateFallbackKeeps | services/aiService.ts:128-133 | a failed cloud translation answers with the content shown, which writes the entry back unchanged |
| Composer.TranslateKeepsPlatforms | PostGenerator.tsx:103-106 | translating a generated post keeps one entry per selected platform |
| Composer.PostComposer.constructor | PostGenerator.tsx:18-31 | an empty topic, Instagram alone selected, no results |
| Composer.PostComposer.ApplyInitial | PostGenerator.tsx:33-39 | a non-empty initial topic replaces the topic, and an initial platform becomes the whole selection |
| Composer.PostComposer.Toggle | PostGenerator.tsx:41-51 | a click toggles the platform and keeps the selection valid |
| Composer.PostComposer.SelectAll | PostGenerator.tsx:156 | the selection becomes every platform in declared order |
| Composer.PostComposer.Generate | PostGenerator.tsx:53-85 | a blank topic or empty selection changes nothing; otherwise the critique is cleared and the map is built from the answers, or stays empty when a call failed |
| Composer.PostComposer.CritiquePost | PostGenerator.tsx:87-97 | the critique shows the analysis, or the failure text |
| Composer.PostComposer.Translate | PostGenerator.tsx:99-112 | only that platform's entry changes, and its busy flag ends cleared |
| Composer.PostComposer.Brainstorm | PostGenerator.tsx:122-132 | the idea becomes the topic, or the fallback topic when the call failed |
| Composer.PostComposer.ClearResults | PostGenerator.tsx:134-137 | the results and the critique are emptied |

## Left out

- Strings are sequences of characters, not of UTF-16 code units. The two differ only outside the Basic Multilingual Plane. The white-space set and the command tokens lie inside it, and no string length is observed.
- Network I/O is left out: the `fetch` calls to the Telegram API and the generation services. What they answer is a parameter.
- The prompts, the model calls and `parseJsonFromResponse` are not modelled. A trend scan's outcome is a parameter: the trends, or `None`.
- `localStorage` persistence is left out. The saved lists are the `App` constructor's parameters.
- Timers and concurrency are left out: `setInterval`, the `await` interleavings of overlapping ticks, and the 2-second reset of the copy flag. Each tick and handler runs to completion.
- Message wording, Markdown, and the Russian texts are not modelled. Messages are compared by kind and content.
- Time zones are not modelled. The tick's date key (the UTC date of `toISOString`) and its local hour and minute are given separately in `Clock`.
- IEEE-754 rounding in `Number` is not modelled. Numbers are exact reals, which agree for the hour and minute fields.
- Dashboard.Dispatch: `Date.now()` is called twice for a new task's `id` and `createdAt`. The model uses one reading for both.
- Organizer.AddTask: `Date.now()` is called twice for the new task's `id` and `createdAt` (components/TaskManager.tsx:27,31). The model uses one reading for both.
- Organizer.AddNote: `Date.now()` is called twice for the new note's `id` and `createdAt` (components/TaskManager.tsx:51,53). The model uses one reading for both.
- ServerBot.Run: an `ok` answer without a `result` array throws and is swallowed; the model's poll answer always has one.
- TelegramService.CheckCommands: an `ok` answer without a `result` array throws at services/aiService.ts:270 and falls back to no command and the old cursor; the model's poll answer always has one.
- Dashboard.CommandPhase: the interval callback is re-created only when the values listed at App.tsx:166 change, and `activeTrendCategory` is not among them. A `/trends` scan in a tick therefore uses the category captured when the interval was last set up. The model scans with the current `activeTrendCategory` of the state, so it does not capture a stale category.
- The `/idea` reply's text from `generateAIResponse` (server.js:26-40) is a parameter; its error strings are not modelled.
- Presentation components (`TrendAnalyzer.tsx`, `Settings.tsx`, the business, growth and work pages) are not modelled.
- Express routes and static serving in `server.js` are not modelled.
- The clipboard copy in `PostGenerator.tsx` (lines 114-120) is not modelled.
- The `useSearch` flag and the generation settings only reach the generation service, so they are not modelled.
- Composer.TogglePlatform: "never empty" is proved only for a selection without repeats (`Composer.ToggleKeepsSelection`). A selection with repeats can be emptied.
