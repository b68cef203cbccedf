# idl task list — a Dafny model of its state logic

This project models the task list kept by three Python scripts.

- `idl.py` is the console to-do list. It works on a bare JSON list of task records. It shows a filtered *view* of the list: the main view or the benched view. In the main loop, a bare number completes item *n* of the view on screen, `b` followed by a number benches item *n*, `q` quits and `v` switches views. Any other line is added as a new task. `unbench_todo_item` exists but the loop never calls it.
- `discord_bot.py` is the chat bot. It works on the `ia` category of a categorised document (`{"subcategories": {...}}`). It lists, completes, starts and stops tasks. Numbers are resolved against the raw list of that category, not against a view.
- `stats.py` builds a report. `process_data` makes one pass over every task of every category and fills three dictionaries:
  - completions per date;
  - time spent per category;
  - time spent per task text.

Modules:

- `Todo` (todo.dfy): the task record, plus `Positions`. `Positions` gives the list positions a listing loop collects, with its specification.
- `Idl` (idl.dfy):
  - the two views;
  - `DisplayTodos`, as a loop proved against `View`;
  - `AfterComplete`, `AfterBench` and `AfterUnbench`, which give the list after each mutator;
  - the JSON file as the class `TodoFile`, whose methods change its `todos` field as those functions say.
- `IdlMain` (idl_main.dfy):
  - the dispatch of the console's main loop, as the pure classifier `Classify`;
  - Python's `int()` on the text after `b`;
  - one turn of the loop, as `Step` on values and as `MainStep` on the file.
- `DiscordBot` (discord_bot.py's handlers, in discord_bot.dfy):
  - the state logic of each handler, as a function from the category's list to a new list and a reply;
  - the document as the class `BotFile`, whose handler methods change the `subcategories` field as those functions say.
- `MapSums` (map_sums.dfy): the sum of a map's values, and how a `defaultdict`-style `+=` changes it.
- `Stats` (stats.dfy):
  - `process_data` as two nested loops;
  - the fold `Tally` it follows;
  - independent counting definitions (`CompletedOn`, `CategoryTime`, `LastTime`, …), with the lemma that the fold meets them.

Timestamps and calendar dates are opaque integers. `now` is a parameter of every operation that reads the clock, and `process_data` receives the date-of-timestamp function as `dateOf`. A key missing from a stored record and a key holding `null` are both `None`. The optional fields are read either through `.get`, for which the two are the same, or by subscript, where both raise: `stop` subscripts `start_time` and `time_spent`, and a missing key and a null value both end the handler with an exception. `time_spent` is an optional integer number of seconds, because `add_todo` never writes it. An exception raised inside a bot handler before the save is the reply `Raised`, and the document stays unchanged. Examples are a missing `ia` key, a missing `start_time`, and a missing `time_spent`.

Behaviour of the code worth knowing, each proved:

- `stop` does not clamp a negative elapsed time to zero (`DiscordBot.StopDoesNotClamp`).
- `start` does not refuse when another task is already running (`DiscordBot.TwoTasksCanRun`).
- `complete` does not stop a running task (`DiscordBot.Complete` keeps `inProgress`, `startTime` and `timeSpent`).
- The bot resolves numbers against the raw list of the category. `idl.py` resolves them against the displayed view.
- In the console, a number typed in the benched view completes the task instead of unbenching it (`IdlMain.DigitsInBenchedViewComplete`). `unbench_todo_item` is never called by the loop (`IdlMain.MainNeverUnbenches`).

## Model

| member | source | states |
|---|---|---|
| `Idl.ViewSpec` | idl.py:18-38 | a view lists each position once, in increasing order, each below the list length; a position is listed iff the view's filter accepts its task; a completed task is never listed |
| `Idl.DisplayTodos` | idl.py:18-38 | the loop returns exactly `View`: strictly increasing positions; benched view = benched and not completed; main view = not completed and (not benched or unbenched) |
| `Idl.AfterComplete` | idl.py:52-60 | with `0 <= index < len(displayed)`, only task `displayed[index]` changes and it gets `completed = now`, keeping every other field (stamps, text, running state, time); otherwise the list is unchanged |
| `Idl.AfterBench` | idl.py:62-70 | with a valid index only the chosen task changes, and only its `benched` field: `benched = now`, `unbenched` and every other field kept; otherwise nothing changes |
| `Idl.AfterUnbench` | idl.py:72-81 | with a valid index only the chosen task changes: `unbenched = now` and `benched` cleared, every other field kept; otherwise nothing changes |
| `Idl.CompleteShrinksView` | idl.py:52-60 | after completing item `index` of a view, the recomputed view is the old view with entry `index` taken out, the rest in order |
| `Idl.BenchMovesToBenchedView` | idl.py:62-70 | benching a main-view item lists it in the benched view; it stays in the main view iff it had been unbenched before |
| `Idl.UnbenchMovesToMainView` | idl.py:72-81 | unbenching a benched-view item lists it in the main view and no longer in the benched view |
| `Idl.RebenchedShowsTwice` | idl.py:28-36 | a task unbenched and then benched again is listed in both views |
| `Idl.AddShowsLast` | idl.py:40-50 | a new task is listed last in the main view and not in the benched view; the earlier entries of both views are unchanged |
| `Idl.TodoFile.constructor` | idl.py:8-12 | the file object holds the loaded list |
| `Idl.TodoFile.AddTodo` | idl.py:40-50 | the list grows by exactly one record at the end, with no completion, bench or unbench stamp; earlier records are unchanged |
| `Idl.TodoFile.MarkTodoComplete` | idl.py:52-60 | the stored list becomes `AfterComplete`; the success message is printed iff the index is inside the view |
| `Idl.TodoFile.BenchTodoItem` | idl.py:62-70 | the stored list becomes `AfterBench`; success iff the index is inside the view |
| `Idl.TodoFile.UnbenchTodoItem` | idl.py:72-81 | the stored list becomes `AfterUnbench`; success iff the index is inside the view |
| `IdlMain.ParseInt` | idl.py:102 | Python's `int()` in base 10: a plain digit string parses to its decimal value; a string without any digit raises ValueError (None) |
| `IdlMain.Classify` | idl.py:93-107 | `q`/`Q` quits and `v`/`V` toggles (iff); a completion comes only from an all-digit line, with index value - 1; a bench only from a line starting with `b`/`B` whose rest `int()` accepts, and a malformed bench only from such a line whose rest `int()` rejects; an added task is the line itself and neither all digits nor starting with `b` |
| `IdlMain.DigitsAlwaysComplete` | idl.py:97-99 | every all-digit line is a completion of item value - 1, whatever view is shown |
| `IdlMain.OtherInputIsAdded` | idl.py:106-107 | every line that is not `q`, `v`, all digits or `b`-prefixed is added verbatim |
| `IdlMain.BuyMilkIsNotAdded` | idl.py:100-105 | "buy milk" is a malformed bench command, not a new task |
| `IdlMain.PaddedBenchIsParsed` | idl.py:100-103 | "B 3 " benches item 3: upper-case `B` and white space around the number are accepted |
| `IdlMain.Step` | idl.py:85-107 | the turn quits iff the line is `q`/`Q` and switches view iff it is `v`/`V`; an added line appends exactly the fresh record; a completion line makes the list `AfterComplete` and a bench line `AfterBench`, both on the item the typed number names in the view on screen (0-based index number - 1); quit, toggle and a malformed bench leave the list unchanged |
| `IdlMain.MainNeverUnbenches` | idl.py:93-107 | no turn removes a bench or completion stamp, changes an unbench stamp or changes a task's text |
| `IdlMain.DigitsInBenchedViewComplete` | idl.py:88-99 | in the benched view a number completes the benched task it names, which stays benched |
| `IdlMain.MainStep` | idl.py:86-107 | one turn against the file: the view is recomputed, the line dispatched, and the file, view switch and quit flag become what `Step` says |
| `DiscordBot.Complete` | discord_bot.py:70-79 | invalid iff the number is outside `1..len(list)`; marked iff the task is uncompleted, and then only its `completed` field changes (running state, time, stamps, text and creation kept); already-completed iff it has a stamp, and nothing changes |
| `DiscordBot.Start` | discord_bot.py:87-99 | started iff the task is neither completed nor running, and then only its `in_progress` and `start_time` fields change; the other replies each hold iff their case holds, with nothing changed |
| `DiscordBot.FirstInProgress` | discord_bot.py:108-109 | the position of the first running task in list order, or none iff no task runs |
| `DiscordBot.Stop` | discord_bot.py:106-120 | nothing-in-progress iff no task runs; raised iff the first running task lacks a start stamp or `time_spent`; otherwise only the first running task changes: stopped, start stamp cleared, `time_spent` increased by `now - start`, every other field kept |
| `DiscordBot.CompleteTwiceKeepsFirstStamp` | discord_bot.py:70-77 | a second completion reports "already completed" and keeps the first stamp |
| `DiscordBot.TwoTasksCanRun` | discord_bot.py:87-93 | two different runnable tasks can both be started, one after the other |
| `DiscordBot.StartThenStopAddsElapsed` | discord_bot.py:87-117 | start then stop on a list where nothing runs adds exactly the elapsed time to the task and leaves it stopped; other tasks are unchanged |
| `DiscordBot.StopDoesNotClamp` | discord_bot.py:111-112 | a start stamp later than the stop instant lowers `time_spent` |
| `DiscordBot.BotFile.constructor` | discord_bot.py:35-36 | the document object holds the loaded categories |
| `DiscordBot.BotFile.OnReady` | discord_bot.py:32-38 | afterwards `ia` exists; an existing `ia` list is untouched, a missing one becomes empty |
| `DiscordBot.BotFile.ListTodos` | discord_bot.py:42-56 | missing `ia` raises; an empty list is reported empty; otherwise one line per task neither completed nor benched, in list order, numbered raw position + 1, "In Progress" iff running |
| `DiscordBot.BotFile.CompleteTodo` | discord_bot.py:66-79 | missing `ia` raises with no change; otherwise `ia` becomes `Complete`'s list and the reply is `Complete`'s |
| `DiscordBot.BotFile.StartTodo` | discord_bot.py:83-99 | missing `ia` raises with no change; otherwise `ia` becomes `Start`'s list and the reply is `Start`'s |
| `DiscordBot.BotFile.StopTodo` | discord_bot.py:103-120 | the loop with its `stopped` flag and `break`: missing `ia` raises with no change; otherwise `ia` and the reply are `Stop`'s |
| `Stats.DatesStep` | stats.py:23-25 | counting one more task keeps the per-date map exact, with its values summing to the number of completed tasks |
| `Stats.CategoriesStep` | stats.py:27-28 | adding one more task's time keeps the per-category map exact, with its values summing to the total time |
| `Stats.TasksStep` | stats.py:27-29 | one more task keeps the per-task map equal to the last timed task of each text |
| `Stats.TallyIsExact` | stats.py:16-31 | the fold yields the promised maps: per-date counts of completions (present iff non-zero, summing to the number of completed tasks); per-category sums of non-zero `time_spent` (present iff the category has such a task, summing to all such time); per-task time of the last timed task with that text |
| `Stats.AbsorbTask` | stats.py:23-29 | one turn of the inner loop changes the three dictionaries as one step of the fold |
| `Stats.TallyCategory` | stats.py:22-29 | the inner loop adds one category's tasks, in list order, to the fold |
| `Stats.ProcessData` | stats.py:16-31 | the two loops compute the fold over every task of every category, so the three dictionaries are exactly the counts, sums and last times above |

## Left out

- Loading and saving the JSON files is left out. Documents are values, held by `Idl.TodoFile` and `DiscordBot.BotFile`.
- Reading the clock, ISO-8601 formatting and parsing, and `.date()` are left out. They are parameters (`now`, `dateOf`).
- All printing, the prompts and the interactive `input()` loop are left out, apart from the dispatch of one line. The list re-displayed after an add (idl.py:108) only prints.
- Discord itself is left out: the bot object, intents, decorators, the channel check, the error handler, sending messages and reading the token. Each handler's message is the `Reply` value.
- The bot's `!add` handler (discord_bot.py:58-62) is left out. It calls `add_todo(task, SUBCATEGORY)`, which does not match the one-argument `add_todo` of idl.py.
- The bot imports idl.py's `load_todos`, which yields a bare list, while the handlers index `["subcategories"]`. The model gives the bot the categorised document it indexes.
- The bot's `!todohelp` text is left out.
- `process_data` turns the stored ISO string into a date with `.date()`; that is `dateOf` here. Its float seconds are integers here. `stats.py`'s plotting, hour formatting and `main` are left out.
- `Idl.TodoFile.MarkTodoComplete`: requires every position in the view to be a position of the list it changes. The mutator re-reads the file, and the model takes that list to be the one the view was computed from. In the source, a file changed in between could raise an IndexError or change the wrong task.
- `Idl.TodoFile.BenchTodoItem`: requires every position in the view to be a position of the list it changes. The mutator re-reads the file, and the model takes that list to be the one the view was computed from. In the source, a file changed in between could raise an IndexError or change the wrong task.
- `Idl.TodoFile.UnbenchTodoItem`: requires every position in the view to be a position of the list it changes. The mutator re-reads the file, and the model takes that list to be the one the view was computed from. In the source, a file changed in between could raise an IndexError or change the wrong task.
- `IdlMain.Classify`: `lower()`, `isdigit()` and `int()` are modelled on ASCII. Non-ASCII digits, non-ASCII white space and case-folding of other scripts are left out.
- `DiscordBot.Stop`: the elapsed time is the integer difference of two opaque timestamps. `total_seconds()` as a float is not modelled.
- A bot handler whose record holds a value of the wrong type for a field, such as a non-number `time_spent`, is not modelled.
