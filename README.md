# RoteiroBot route ledger and session supervisor, in Dafny

RoteiroBot is a Telegram bot that a delivery driver uses to record the routes
they ran. Each route has a date, a route name, a car and an island-delivery
flag. The bot computes the route's fee, stores it in a SQLite table, and answers
payment statements (`/espelho`), today's routes (`/hoje`), the full listing
(`/todas`) and deletions (`/deletar`). Around the bot sit several scripts. Some
keep it running (`bot_24_7.py`, `bot_simples_24_7.py`, `render_main.py`). Others
clear a Telegram session conflict by dropping the webhook and draining the
pending updates (`fix_conflict.py`, `run_bot.py`, `start_bot.py`,
`limpar_updates.py`). One watches the bot's health (`monitor_bot.py`). A one-off
importer loads past routes (`importar_rotas.py`).

The model has one module per source file, plus three shared modules.

| module | file | what it holds |
|---|---|---|
| `Common` | common.dfy | `Option`, concatenation lemmas |
| `PyText` | pytext.dfy | Python's `str.strip()`, `str.lower()`, `str.capitalize()` and code-point string order |
| `Feed` | feed.dfy | an abstract Telegram Bot API (see below) |
| `Ledger` | ledger.dfy | db.py: the fee rule, the table as a class `RouteTable`, the queries |
| `Handlers` | handlers.dfy | handlers.py: the `/rota` conversation as a class `Chat`, the listing commands |
| `ImportarRotas` | importar_rotas.dfy | importar_rotas.py |
| `Bot247` | bot_24_7.dfy | bot_24_7.py: class `BotRunner` |
| `BotSimples247` | bot_simples_24_7.dfy | bot_simples_24_7.py |
| `RenderMain` | render_main.dfy | render_main.py: class `RenderBot` |
| `FixConflict` | fix_conflict.dfy | fix_conflict.py |
| `RunBot` | run_bot.dfy | run_bot.py |
| `Monitor` | monitor.dfy | monitor_bot.py: class `BotMonitor` |
| `StartBot` | start_bot.dfy | start_bot.py |
| `LimparUpdates` | limpar_updates.dfy | limpar_updates.py |

**The table.** `Ledger.RouteTable` has two fields:

- `rows`, a map from id to stored columns;
- `lastId`, the AUTOINCREMENT high-water mark, so a deleted id is never handed out again.

SQLite's part of a SELECT is modelled by pure functions:

- `Scan` walks the table in rowid order and applies the WHERE filter;
- `OrderByKey` is an insertion sort by `(data, id)`.

Python's part, the append loop that builds one dictionary per fetched row, is the method `Collect`. Dates are compared as strings, character by character, exactly as the SQL does. So a `DD/MM/YYYY` period is a textual range, not a calendar range.

**The Telegram API.** `Feed.Api` is a value holding:

- the server's pending update ids;
- the next id to hand out;
- the webhook flag;
- an oracle of `Event`s;
- a log of every call and every sleep.

Each call consumes one event. The event says how many new updates arrived meanwhile and whether the call raised (Conflict, NetworkError, TimedOut or another error). The calls follow the Bot API:

- `getUpdates(offset, limit)` drops every pending id below `offset` and returns up to `limit` of the rest;
- `deleteWebhook(drop_pending_updates=True)` removes the webhook and the backlog.

An update is *confirmed* when every id still pending is greater than it. The clean-up procedures are methods that thread an `Api` through their calls. Their contracts state:

- the exact calls and waits they made, as a history that `Feed.Replay` replays against the server: `Replay(api, trace) == Some(out)` means each call in `trace` got from the server exactly the answer recorded there, in that order, and `out` is the server afterwards;
- what they return, in terms of the answers in that history;
- which updates are confirmed at the end, and whether the webhook is gone.

**Restart loops.** The outside world is given to each restart loop as a finite input sequence:

- in `bot_24_7.py`, the clock, `process.poll()` and the outcome of `Popen`;
- in `bot_simples_24_7.py`, the children's exit statuses;
- in `render_main.py`, the outcomes of `run_polling`.

A loop runs until its own exit condition holds or the input runs out. Sleeps are recorded, either as a ghost sequence of durations or as `Sleep` entries in the API log.

## Model

| member | source | states |
|---|---|---|
| PyText.StripIsTrimmedSlice | handlers.py:77 | `strip()` returns a slice `s[i..j]` of its input; only whitespace (Python's `isspace`) was cut on either side, and the result neither starts nor ends with whitespace |
| PyText.StripIdempotent | fix_conflict.py:158 | stripping an already stripped string changes nothing |
| PyText.Lower | handlers.py:116 | `lower()` keeps the length and lower-cases each code point on its own (ASCII and Latin-1 capitals) |
| PyText.LowerIdempotent | handlers.py:136 | lower-casing twice is lower-casing once |
| PyText.Capitalize | handlers.py:125 | `capitalize()` keeps the length, upper-cases the first code point and lower-cases the rest |
| PyText.UpperChar | handlers.py:125 | upper-casing a lower-case letter gives a letter that lower-cases back to it |
| PyText.StrLtIrreflexive | db.py:76-77 | no string sorts before itself in SQLite's BINARY order |
| PyText.StrLtAsymmetric | db.py:76-77 | two strings are never each before the other |
| PyText.StrLtTransitive | db.py:76-77 | the string order used by WHERE and ORDER BY is transitive |
| PyText.StrLtTotal | db.py:76-77 | any two different strings are ordered one way or the other |
| PyText.StrLeAntisymmetric | db.py:101-102 | `d <= data <= d` holds only for `data == d`, which makes the period `[today, today]` mean "dated today" |
| Ledger.Fee | db.py:41-42 | the fee is 110, 120, 130 or 140; it is at least 130 exactly when the car lower-cases to "van", and it carries the extra 10 exactly when the route had an island delivery |
| Ledger.ReadStored | db.py:47-50 | a stored row read back (`bool(row[4])`) gives the inserted date, route, car and island flag, and the rule's fee |
| Ledger.KeyLtTotal | db.py:77 | `ORDER BY data, id` orders any two rows with different ids |
| Ledger.KeyLtTransitive | db.py:77 | `ORDER BY data, id` is transitive |
| Ledger.Scan | db.py:73-76 | every fetched tuple is a stored row with its own id, satisfies the WHERE clause, and comes in rowid order |
| Ledger.ScanIds | db.py:73-76 | the scan fetches exactly the stored rows that satisfy the WHERE clause |
| Ledger.InsertFetched | db.py:77 | inserting a row into the sorted list keeps every row and adds exactly the new one |
| Ledger.InsertFetchedSorted | db.py:77 | inserting a row with a new id into a list sorted by (data, id) keeps it sorted |
| Ledger.OrderByKey | db.py:77 | the ORDER BY is a permutation of the fetched rows |
| Ledger.OrderByKeySorted | db.py:77 | rows with distinct ids come out strictly ascending by (data, id) |
| Ledger.Select | db.py:73-78 | the SELECT returns each matching row exactly once, with the table's values, strictly ascending by (data, id) |
| Ledger.ReadAll | db.py:80-89 | one dictionary per fetched row, at the same position, with `ilha` read as a boolean |
| Ledger.ReadAllFacts | db.py:80-89 | building the dictionaries keeps the ids and the ascending order |
| Ledger.ReverseFacts | db.py:117 | reversing an ascending listing gives a descending one with the same ids |
| Ledger.ListingFacts | db.py:114-129 | the full listing holds every row of the table exactly once, with its stored values, strictly descending by (data, id) |
| Ledger.Collect | db.py:80-89 | the append loop builds exactly the list of dictionaries of the fetched rows, in order |
| Ledger.SumValorReadAll | db.py:167 | summing `valor` over the dictionaries equals summing it over the fetched rows |
| Ledger.SumOrderByKey | db.py:166-167 | the ORDER BY does not change the total |
| Ledger.RouteTable.constructor | db.py:8-25 | a new database has an empty table and no id handed out yet |
| Ledger.RouteTable.InsertRota | db.py:27-56 | adds exactly one row, under the id after every id ever handed out (so never used before), with the rule's fee and `ilha` as 1/0, and returns that id; every other row is unchanged |
| Ledger.RouteTable.DeleteRota | db.py:134-153 | an id outside signed 64 bits raises OverflowError when bound and changes nothing; otherwise it answers True exactly when a row with that id existed, and afterwards that id is gone and every other row is unchanged |
| Ledger.RouteTable.RotasPorPeriodo | db.py:58-92 | returns exactly the rows with `lo <= data <= hi` under string comparison, each once, with their stored values, strictly ascending by (data, id) |
| Ledger.RouteTable.RotasHoje | db.py:94-102 | returns exactly the rows whose date string is today's, in id order |
| Ledger.RouteTable.TodasRotas | db.py:104-132 | returns every row exactly once, with its stored values, ordered by data descending and then id descending |
| Ledger.RouteTable.TotalPeriodo | db.py:155-167 | the total is `PeriodTotal`, the sum of `valor` over the rows whose date lies in the period (order does not matter, by `SumOrderByKey`), and 0 when no row lies in the period |
| Ledger.RouteTable.TotalHoje | db.py:169-176 | the total of the period `[today, today]`, and 0 when no row carries today's date |
| Feed.Invoke | fix_conflict.py:48 | every call is logged with its answer and consumes one event; it fails exactly when the event raises; every update pending afterwards was pending before or arrived during the call |
| Feed.InvokeDeleteWebhook | fix_conflict.py:35 | a successful `delete_webhook(drop_pending_updates=True)` leaves no pending update and no webhook |
| Feed.InvokeGetUpdates | fix_conflict.py:48-59 | a successful `get_updates` returns at most `limit` of the oldest pending updates without confirming them; with an offset, every update below it is confirmed |
| Feed.InvokeIncreasing | limpar_updates.py:27 | the pending queue stays in id order, so a batch comes oldest first |
| Feed.InvokeFailed | fix_conflict.py:71-72 | a call that raises confirms nothing and leaves the webhook as it was |
| Feed.InvokeQueries | fix_conflict.py:123-127 | `get_webhook_info` reports the webhook flag and `get_me` reports the bot, when they answer |
| Feed.StaysConfirmed | fix_conflict.py:55-59 | an update once confirmed stays confirmed whatever call follows |
| Feed.AcknowledgeConfirms | fix_conflict.py:55-59 | a follow-up `get_updates(offset=update_id + 1)` that answers confirms that update |
| Feed.DeleteWebhookIdempotent | run_bot.py:126 | dropping the webhook and the backlog a second time leaves the same state, no webhook and an empty queue, whatever updates arrived in between |
| Feed.Acknowledge | fix_conflict.py:53-62 | one follow-up with offset `update_id + 1` and limit 1 per update of the batch, in order; errors are swallowed; the count is the number of follow-ups that answered, at most the batch size; each of those confirms its update for good |
| Feed.CleanedAtMostSeen | fix_conflict.py:55-62 | `total_cleaned` never exceeds the number of updates the batches returned |
| Feed.Attempt | fix_conflict.py:47-74 | one attempt makes exactly the calls of its round, with the answers the server gives: a batch fetch without offset of at most `limit` updates, then either the error and its 2 s wait, or nothing more for an empty batch, or the follow-ups and the 2 s wait (after the last attempt only when asked); with a positive limit an empty batch means the queue was empty; it keeps the webhook, keeps every confirmed update confirmed, and confirms every update whose follow-up answered |
| Feed.DrainRounds | fix_conflict.py:43-74 | at most `attempts` batch fetches of at most `limit` updates each, replaying exactly against the server; only the last attempt can return an empty batch, and the loop stops early only there; with a positive limit, a drain that ended on an empty batch leaves the queue empty; a raising attempt does not end the loop; `total_cleaned` is the number of answered follow-ups and at most the number seen; every update acknowledged is still confirmed at the end |
| FixConflict.FixBotConflict | fix_conflict.py:19-107 | without a token, False with no call; otherwise exactly the calls of `FixTrace` are made, with the server's answers: first `delete_webhook(drop_pending_updates=True)`, then the drain of at most 3 attempts of 100 with no wait after the third, `get_me` and the final check; the answer is True exactly when `delete_webhook`, `get_me` and the final check all answered; after a successful delete the webhook is gone; every acknowledged update is confirmed at the end |
| FixConflict.CheckBotStatus | fix_conflict.py:109-144 | without a token, False with no call; otherwise exactly `get_me`, `get_webhook_info`, `get_updates(limit=1)` up to the first error, with the server's answers, and True exactly when all three answered; the queries leave the webhook and every confirmation as they were |
| FixConflict.DispatchCases | fix_conflict.py:158-177 | the stripped line "1" runs the fix, "2" the status check, "3" leaves, anything else is invalid; blanks around a line never change the option |
| FixConflict.RunOption | fix_conflict.py:160-177 | each line runs exactly the option it names and makes exactly that option's calls (none without a token, none for "3" or an unknown option); the answer recorded for an option is what `fix_bot_conflict` or `check_bot_status` returned, True exactly when the answers its calls got allow it; the menu prints the fix's verdict and discards the status check's |
| FixConflict.Menu | fix_conflict.py:151-183 | every line read is answered by the option it names, in order, each with the verdict its calls' answers give; the calls made are exactly those of the options, pass after pass; the loop leaves at the first "3" and only there |
| Handlers.ParseData | handlers.py:77-91 | "hoje" in any case with blanks around gives today's date; otherwise a stripped text that parses as DD/MM/YYYY is kept verbatim; anything else is rejected |
| Handlers.ParseDataStable | handlers.py:77-85 | a date that was kept is kept unchanged when typed again |
| Handlers.CarroWords | handlers.py:116-125 | `capitalize()` turns "van" and "fiorino" into "Van" and "Fiorino", which strip and lower-case back to the words typed |
| Handlers.ParseCarro | handlers.py:116-125 | only "van" or "fiorino" after strip and lower-casing is accepted, stored as "Van" or "Fiorino" respectively |
| Handlers.ParseCarroStable | handlers.py:116-125 | the stored car, typed again, is accepted as the same car |
| Handlers.FeeOfAnswer | handlers.py:116-125 | a route whose car went through the conversation costs 130 for a van and 110 for a Fiorino, plus 10 with an island delivery |
| Handlers.ParseIlha | handlers.py:136-145 | only sim, não, nao, s or n after strip and lower-casing is accepted; the route had an island delivery exactly for sim and s |
| Handlers.ShownFeeIsStored | handlers.py:157-158 | the fee shown in the confirmation equals the fee `insert_rota` stores |
| Handlers.Chat.RotaStart | handlers.py:65-73 | the conversation opens in state DATA (0) |
| Handlers.Chat.RotaData | handlers.py:75-100 | an accepted date is stored under 'data' and the state moves to ROTA; a rejected one stays in DATA with `user_data` untouched |
| Handlers.Chat.RotaNome | handlers.py:102-112 | any text is accepted, stored stripped under 'rota', and the state moves to CARRO |
| Handlers.Chat.RotaCarro | handlers.py:114-132 | an accepted car is stored capitalized under 'carro' and the state moves to ILHA; anything else stays in CARRO with no change |
| Handlers.Chat.RotaIlha | handlers.py:134-179 | an invalid answer stays in ILHA and changes nothing; a valid one stores exactly one route with the collected answers and shows its id and stored fee, unless an answer is missing or the database raises; either way `user_data` is emptied and the conversation ends |
| Handlers.Chat.RotaCancel | handlers.py:181-185 | `user_data` is emptied and the conversation ends |
| Handlers.LinesPosition | handlers.py:224-226 | each route's line follows the lines of the routes before it in the message |
| Handlers.BuildListing | handlers.py:222-226 | the `+=` loop builds the header followed by one line per route, in the listing's order |
| Handlers.ChunksFacts | handlers.py:283 | the slices put back together give the message; each is non-empty and at most 4000 characters; all but the last are exactly 4000; there are ⌈len/4000⌉ of them |
| Handlers.TodasRepliesFacts | handlers.py:281-287 | whatever its length, the listing reaches the chat whole and in order, in messages of at most 4000 characters, and as one message exactly when it fits |
| Handlers.Espelho | handlers.py:187-233 | not exactly two arguments gives the usage answer; a bad date gives the date error; otherwise the answer is "no routes" exactly when no row lies in the period, else the period's lines in query order and the period's total |
| Handlers.Hoje | handlers.py:235-260 | "no routes" exactly when no row carries today's date, else today's lines in id order and today's total |
| Handlers.Todas | handlers.py:262-290 | "no routes" exactly for an empty table, else one line per route, by date and then id descending, cut into messages of at most 4000 characters |
| Handlers.Deletar | handlers.py:292-318 | not exactly one argument gives the usage answer and a non-integer the id error, both leaving the table alone; an integer outside signed 64 bits gives the error answer of the catch-all handler (handlers.py:317-318) and leaves the table alone; otherwise the row is removed and the answer says whether it existed |
| ImportarRotas.Dedup | importar_rotas.py:16-23 | the removal only deletes rows; the rows it keeps are unchanged |
| ImportarRotas.DedupMeaning | importar_rotas.py:16-23 | a row is deleted exactly when an older row has the same date and route name |
| ImportarRotas.DedupKeepsOldest | importar_rotas.py:19-21 | every (data, rota) group keeps its minimum-id row, unchanged |
| ImportarRotas.DedupUnique | importar_rotas.py:16-23 | afterwards no two rows share date and route name |
| ImportarRotas.DedupIdempotent | importar_rotas.py:16-23 | a second removal deletes nothing |
| ImportarRotas.LimparRotasDuplicadas | importar_rotas.py:10-32 | the table becomes the deduplicated table, the AUTOINCREMENT mark stays, and the count returned is the number of rows deleted |
| ImportarRotas.ImportRowsIds | importar_rotas.py:73-90 | each insert that went through takes the next id, so the new ids lie above every old one and the table grows by the number imported |
| ImportarRotas.ImportRowsKeeps | importar_rotas.py:75-78 | the import leaves every row already present unchanged |
| ImportarRotas.ImportRowsWellFormed | importar_rotas.py:78 | every id the import handed out holds a row with the fee of the rule |
| ImportarRotas.ImportList | importar_rotas.py:73-90 | one insert per listed route, in order; an insert that raises is skipped; the counter equals the number of inserts that went through; each fee shown is the stored fee of its id |
| ImportarRotas.ImportarRotasExistentes | importar_rotas.py:34-101 | duplicate removal first, then the twenty listed routes; at most 20 are counted |
| ImportarRotas.VerificarRotasExistentes | importar_rotas.py:103-113 | the count is the number of rows |
| ImportarRotas.LimparTodasRotas | importar_rotas.py:115-129 | the table becomes empty, the AUTOINCREMENT mark stays, and the count returned is the number of rows there were |
| ImportarRotas.ImportarMain | importar_rotas.py:131-151 | on a non-empty table an answer outside s/sim/y/yes (after `lower()`) leaves it unchanged; an empty table or a yes clears the table (keeping the AUTOINCREMENT mark) and ends with exactly the routes whose insert went through, and their count |
| Bot247.Running | bot_24_7.py:82-88 | the bot is not running exactly when there is no process or `poll()` returned a code |
| Bot247.Window | bot_24_7.py:90-99 | the count and window start reset to 0 and now only when strictly more than 3600 s have passed; the answer is `restart_count < 10` after that |
| Bot247.Start | bot_24_7.py:39-63 | the answer is True exactly when the child was launched, and then the process handle is that child; on failure the old handle stays; the counters are untouched |
| Bot247.StepTick | bot_24_7.py:107-124 | no restart while the child runs; a restart is counted only after `should_restart` said yes; the loop gives up exactly when it said no; the count stays at most 10; the window start moves only on a reset, to the current time |
| Bot247.Sleeps | bot_24_7.py:114-124 | every wait is 5 s, 10 s or 30 s |
| Bot247.SleepsOne | bot_24_7.py:112-122 | each step waits as the loop body says: 10 s while the bot runs, 5 s after a restart that started it, 30 s after a failed start, and no wait when it gives up |
| Bot247.SimulateBounded | bot_24_7.py:107-121 | over any run, `restart_count` never exceeds 10 |
| Bot247.SimulateStops | bot_24_7.py:118-121 | only the last pass can give up, and a run that stops early gave up |
| Bot247.SimulateWindowStart | bot_24_7.py:95-97 | the window start is the initial time or the time of a pass that reset it |
| Bot247.BotRunner.constructor | bot_24_7.py:26-31 | no process, running, a count of 0, and the window starting at creation time |
| Bot247.BotRunner.IsBotRunning | bot_24_7.py:82-88 | agrees with `Running` on the runner's fields |
| Bot247.BotRunner.ShouldRestart | bot_24_7.py:90-99 | updates the fields and answers as `Window` says |
| Bot247.BotRunner.StartBot | bot_24_7.py:39-63 | updates the process and answers as `Start` says |
| Bot247.BotRunner.StopBot | bot_24_7.py:65-80 | the process handle is always None afterwards; the counters are untouched |
| Bot247.BotRunner.Run | bot_24_7.py:101-132 | the loop takes the steps of `Simulate`, waits 5/30/10 s after each as `Sleeps` says, and ends with `stop_bot`, leaving no process |
| BotSimples247.ReturnCode | bot_simples_24_7.py:17-48 | Ctrl+C in the child reads as 0, any other exception as 1, otherwise the child's status |
| BotSimples247.SuperviseCounts | bot_simples_24_7.py:58-82 | the count is the number of runs that ended with a nonzero status; the cap ends the loop exactly on a failed run, logged without an exception, that brought the count to 10 or more; unless logging raised, the count never exceeds 10 |
| BotSimples247.SuperviseStops | bot_simples_24_7.py:58-82 | the loop ends early only on a stopping pass; a normal end means the last run exited with 0 and logged without an exception; a user stop means Ctrl+C in the loop body |
| BotSimples247.SuperviseSleeps | bot_simples_24_7.py:58-82 | every pass that did not end the loop waited exactly once, in order: 5 s after a failed run logged calmly, 10 s after an exception in the loop body; the pass that ended the loop did not wait |
| BotSimples247.MainLoop | bot_simples_24_7.py:50-82 | the loop's count, passes used, waits and reason to stop are those of `Supervise` |
| RenderMain.CleanupForRender | render_main.py:65-99 | exactly these calls, with the server's answers: `delete_webhook` with the backlog, a 2 s wait, one batch of at most 50, one follow-up with offset `update_id + 1` per update, a 1 s wait; a failed delete ends it, a failed batch still waits; after a successful delete the webhook is gone; nothing raises, and each answered follow-up confirms its update |
| RenderMain.WaitsCount | render_main.py:121-161 | the number of waits is the number of failures, capped at `3 - 1 - start`: the failure that brings the count to 3 ends the loop without a wait |
| RenderMain.WaitsLinear | render_main.py:130-156 | after the k-th failure the wait is 5k or 10k seconds, with no cap |
| RenderMain.Pass | render_main.py:106-161 | each pass cleans up first, and a Conflict cleans up again before counting, with exactly those calls; a failure counts exactly one restart and waits its back-off only while the count stays below 3; a normal return counts nothing |
| RenderMain.PollLoop | render_main.py:105-161 | the count is the start plus the failures seen; the waits follow the back-off rule; there is one pass per poll with a second clean-up exactly after a Conflict, and the passes make exactly their clean-ups' calls; every poll that ran was started with fewer than 3 restarts counted; the count ends at most 3; the loop ends only when 3 restarts are counted or the input runs out |
| RenderMain.FreshBotBounds | render_main.py:105-161 | a bot starting from 0 waits at most twice, and exactly twice once 3 failures were counted |
| RenderMain.RenderBot.constructor | render_main.py:34-38 | not running and no restarts counted |
| RenderMain.RenderBot.StartBot | render_main.py:101-161 | sets `running`; the restart count grows by the failures seen, the waits follow the back-off rule, the client makes exactly the calls of one pass per poll, every poll that ran was started with fewer than 3 restarts counted, the count stays at most 3, and the loop ends only at 3 restarts or when the polls run out |
| RenderMain.RenderBot.StopBot | render_main.py:163-168 | `running` becomes false and nothing else changes |
| RunBot.AggressiveCleanup | run_bot.py:75-118 | exactly these calls, with the server's answers: `delete_webhook` with the backlog, and nothing more if it raises; otherwise a 3 s wait, at most 3 batch fetches of at most 100 that stop at an empty one, a 2 s wait after every attempt that was not empty, and a final 2 s wait; after a successful delete the webhook is gone; `total_cleaned` is the number of answered follow-ups, at most the number seen; every acknowledged update is confirmed; nothing raises |
| RunBot.PreventiveCleanup | run_bot.py:120-146 | exactly these calls, with the server's answers: `delete_webhook` with the backlog, one batch of at most 10, one follow-up per update, a 1 s wait; a failed delete or batch fetch ends it early with no follow-up; after a successful delete the webhook is gone; each answered follow-up confirms its update; nothing raises |
| RunBot.PreStartupCleanup | run_bot.py:30-73 | False without a token and with no call; otherwise exactly the calls of `PreTrace`, with the server's answers; True exactly when `get_me` answered, or it hit a Conflict and answered after the aggressive clean-up; a passing check whose preventive delete went through leaves no webhook |
| RunBot.PassesEndsWithPreventive | run_bot.py:65-69 | every path that returns True ends with the preventive clean-up |
| RunBot.StartBot | run_bot.py:148-168 | `main()` is a plain function, so `await main()` awaits the None it returns and raises TypeError, which the `except Exception` handler turns into False; the answer is True only when a KeyboardInterrupt escapes `main()` itself |
| RunBot.Run | run_bot.py:170-190 | the bot starts exactly when `pre_startup_cleanup` passed, after exactly its calls; the result is True exactly when it started and a KeyboardInterrupt escaped `main()` |
| Monitor.Health | monitor_bot.py:48-89 | a check that answers resets the counter and reports the bot active; a Conflict leaves the counter alone and reports the conflict; any other error adds exactly one and reports the new count |
| Monitor.Classify | monitor_bot.py:125-143 | active exactly when `bot_active`; conflict exactly when not active and `conflict_detected`; inactive otherwise |
| Monitor.Decide | monitor_bot.py:161-173 | resolve exactly on a reported conflict; warn exactly when there is no conflict and the reported count is at least 3 |
| Monitor.StreakCountsDownsSinceLastUp | monitor_bot.py:69-83 | the counter is the number of non-Conflict failures since the last check that answered, on top of the starting value when none answered |
| Monitor.PlanMeaning | monitor_bot.py:157-176 | a pass resolves exactly when its check hit a Conflict, and warns exactly when it failed otherwise with the counter at 3 or more; the two never come together |
| Monitor.DecideFollowsPlan | monitor_bot.py:157-176 | one pass's counter and decision are the next step of the plan |
| Monitor.ResolveConflict | monitor_bot.py:91-123 | exactly these calls, with the server's answers: `delete_webhook`, a 3 s wait, one batch of at most 100, one follow-up per update with its errors swallowed, a 2 s wait; False exactly when `delete_webhook` or the batch fetch raised; the webhook is off after a successful delete |
| Monitor.Initialize | monitor_bot.py:33-46 | False without a token and with no call; otherwise `get_me` is the one call, and the answer is True exactly when it answered |
| Monitor.BotMonitor.constructor | monitor_bot.py:25-31 | not running, no failures counted |
| Monitor.BotMonitor.CheckBotHealth | monitor_bot.py:48-89 | exactly three calls up to the first error, with the server's answers; the status and the new counter are those of `Health` for those answers |
| Monitor.BotMonitor.RunMonitor | monitor_bot.py:145-184 | nothing runs when `initialize` fails; otherwise after `initialize` the client makes exactly the calls of the passes: each pass's health check, `resolve_conflict` exactly on the passes whose action is to resolve, and the 30 s wait; each verdict is that of its pass's check; the counter follows the streak of non-Conflict failures, every pass resolves or warns exactly as the plan says, and `running` is false at the end |
| StartBot.CheckAndFixConflictsFacts | start_bot.py:22-59 | False without a token and with no call; otherwise exactly the calls of `CheckTrace`, with the server's answers: a first `get_me` that answers gives True with no other call; after a Conflict, one `delete_webhook`, a 2 s wait and one more `get_me`; True exactly on those two paths |
| StartBot.RepairDropsBacklog | start_bot.py:37-45 | a repair that went through leaves no webhook and no pending update before the second check |
| StartBot.StartBotSafely | start_bot.py:61-90 | the main bot runs only after a passing check; `await main()` then awaits the None that `main()` returns and raises TypeError, so a normal return gives False, as does an exception; a KeyboardInterrupt leaves the coroutine; the coroutine never answers True |
| StartBot.ExitCode | start_bot.py:92-110 | the exit status is 1 for a False answer and 0 otherwise, including Ctrl+C |
| StartBot.ExitCodeMeaning | start_bot.py:61-110 | the script exits with 0 exactly when the conflict check passed and a KeyboardInterrupt escaped `main()`; after a normal return of `main()` it exits with 1 |
| LimparUpdates.BatchOrdered | limpar_updates.py:27-32 | with the queue in id order, the last update of a batch has the largest id |
| LimparUpdates.ClearConfirms | limpar_updates.py:32-44 | a confirming fetch with offset last id + 1 that answers, followed by `close`, leaves every update up to the last id confirmed |
| LimparUpdates.LimparCalls | limpar_updates.py:15-44 | without a token, no call; otherwise exactly these calls, with the server's answers: one batch fetch of at most 100, exactly one more fetch after a non-empty batch and none otherwise, and `close` last on every path |
| LimparUpdates.LimparConfirms | limpar_updates.py:30-37 | a confirming fetch that answers confirms the last update and, with the queue in id order, every update of the batch |

## Left out

- Real I/O is not modelled:
  - Telegram HTTP calls are the abstract `Feed.Api`;
  - SQLite, `subprocess`, signal handlers and `asyncio` / `time.sleep` timing are not modelled;
  - a sleep is only a recorded duration.
- Printing, logging, Markdown and message wording are left out. The listing lines are modelled, because their order and content are the property.
- Fees are stored in a REAL column and printed with `:.2f`. The model uses `int`, because every fee is a whole number; `Money` appends ".00".
- `datetime.strptime(..., "%d/%m/%Y")` and `int()` are library parsers. Their verdicts are the parameters `validDate` and `asInt`.
- `datetime.now()` is the parameter `today`.
- `time.time()` is an integer field of each `Tick`.
- `init_database` is modelled only as the constructor of an empty table; re-opening an existing file is not modelled. The call at importar_rotas.py:38 is therefore not modelled.
- main.py, config.py, setup.py, verificar_banco.py and testar_espelho.py are not part of this model. They wire up the library, read the environment, or only print.
- The `/start` and `/help` commands only send fixed texts and are left out.
- Concurrency between the bot, the monitor and other instances is left out. A Conflict and any other server error are inputs of the API oracle.
- Call timeouts (`timeout=1`) are left out.
- Feed.InvokeFailed, Monitor.ResolveConflict: a call that raises is taken to have had no effect at the server. A request the server carried out before the client gave up (TimedOut, NetworkError) is not modelled. Such a `delete_webhook` or `get_updates` could already have removed the webhook, dropped the backlog or confirmed updates.
- Handlers.Espelho, Handlers.Hoje, Handlers.Todas: a database exception, caught at handlers.py:232, 259 and 289, is not modelled, because the table model does not raise.
- Handlers.Deletar: of the exceptions caught at handlers.py:317-318, only the OverflowError raised when binding an id outside signed 64 bits (db.py:147) is modelled. A failure to open or write the database file is not modelled.
- Handlers.Hoje: one date stands for both the query and the heading. The source reads the clock separately for each (db.py:101, handlers.py:240), so the two could differ across midnight.
- Bot247.BotRunner.Run: the loop runs over a finite list of passes, so "interrupted" means the list ran out. KeyboardInterrupt and other exceptions in the loop are not told apart; both end the loop and run `stop_bot`.
- Bot247.BotRunner.StopBot: `terminate`, `wait` and `kill` of the child are not modelled; only the handle is dropped.
- Bot247.Start: the child process is an oracle `Launch` (its pid, or a failure to start).
- BotSimples247.MainLoop: an exception in the loop body is one event per pass (`After.Failure`), wherever it comes from (the logging at bot_simples_24_7.py:63, 67, 70-71 or 73). Part of a 5 s pause already slept before it is not recorded. Ctrl+C during the 10 s pause at bot_simples_24_7.py:82 is outside the `try` and ends the process; the model covers it only as the input running out.
- BotSimples247.SuperviseCounts: the count can pass 10 when logging raises on a pass that reaches the cap. The `except Exception` at bot_simples_24_7.py:80-82 then skips the `break`. So the bound "never exceeds 10" is stated only for passes whose logging did not raise.
- BotSimples247.MainLoop: the counter is for the whole life of the runner, as the code has it. The comment at bot_simples_24_7.py:56 calls it a per-hour limit; it is not.
- RenderMain.RenderBot.StartBot: `setup_application` is not modelled.
- RenderMain.RenderBot.StopBot: `application.stop()` and `shutdown()` are not modelled.
- RenderMain.PollLoop: `running` stays set throughout the loop, because nothing in the loop clears it. Stopping from another coroutine is not modelled.
- Monitor.BotMonitor.RunMonitor: runs a given number of passes. The source loops until it is interrupted.
- Monitor.Health: the status keeps the webhook flag and the pending count, but not the username, URL, error text or timestamp.
- The restart policies are modelled as the code writes them:
  - in bot_24_7.py, a fixed window that resets only after more than 3600 s;
  - in bot_simples_24_7.py, a lifetime counter, although the comment at bot_simples_24_7.py:56 calls it a per-hour limit;
  - in render_main.py, an uncapped linear back-off.
- FixConflict.Menu: the model stops when the lines run out. In the source, `input()` at end of input raises EOFError, which the `except Exception` at fix_conflict.py:182-183 catches, so the loop asks again forever; only "3" or a KeyboardInterrupt (fix_conflict.py:179-181) leaves it.
- RunBot.StartBot, StartBot.StartBotSafely: `main()` of main.py is not part of this model. Its own handlers catch KeyboardInterrupt and every Exception from `run_polling`, so the outcome is normally `Returned`; `Interrupted` and `Crashed` stand for an exception that escapes `main()` itself.
