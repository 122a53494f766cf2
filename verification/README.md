# Email assistant dialog router and fixture store — a Dafny model

This project models the core of the email-assistant evaluation suite
(`evals/email_assistant/graph.py` and `evals/email_assistant/db.py`). It covers:

- **The dialog graph.** There are two personas. The main `assistant` may only search. The `write_assistant` may send emails and create calendar events.
  - Routing functions pick the next node from the tool calls of the last model message.
  - Two hand-off nodes (`enter_write_sequence`, `leave_write_sequence`) answer the delegation or hand-back call with a synthetic tool message. They push or pop the dialog stack.
  - Both tool nodes fall back to `handle_tool_error`, which answers every pending call with an error message.
  - The model writes the whole graph as one explicit transition function `Graph.Step` over (node, state). The language model and the tool executors are an oracle that the caller supplies.
- **The fixture store tools.** Both tables are sequences of records:
  - `search_emails` and `search_calendar_events` are filters. Their queries are tokenised as the code does it.
  - `send_email` assigns a new thread id as `COALESCE(MAX(thread_id), 0) + 1`.
  - `create_calendar_event` appends without validation.
- **`get_weekday`** and the seeded calendar events, with time as integers.

Modules, one per component:

| module | file | models |
|---|---|---|
| `Wrappers` | wrappers.dfy | `Option`, and `Result` for the program's exceptions |
| `Seqs` | seqs.dfy | `Filter`: a table scan with a WHERE predicate |
| `DialogStack` | dialog_stack.dfy | `update_dialog_stack`, `pick_starting_point` |
| `Messages` | messages.dfy | messages, tool calls, "answers every call" |
| `Router` | router.dfy | node names, `route_assistant`, `route_writer`, the hand-off nodes, `handle_tool_error`, a tool node that ran |
| `Graph` | graph.dfy | graph state, `Step`, `Run`, a turn from the conditional entry point, invariants |
| `Tokens` | tokens.dfy | `query.split('"')`, `exact.split()`, `tok.replace("*", "%")` |
| `Records` | records.dfy | the `emails` and `calendar_events` rows |
| `Search` | search.dfy | `search_emails`, `search_calendar_events` |
| `Actions` | actions.dfy | `send_email`, `create_calendar_event` |
| `Calendar` | calendar.dfy | integer time, `get_weekday` |
| `Seed` | seed.dfy | the calendar events of `insert_sample_data` |

Conventions:

- **Timestamps.** A timestamp counts microseconds since 0001-01-01 00:00 in the proleptic Gregorian calendar. That day is a Monday, so `datetime.weekday()` is the day number modulo 7.
- **LIKE.** `LIKE` is the caller's predicate `like(pattern, value)`. The pattern for token `t` is `"%" + t + "%"`.
- **Errors.** A Python exception becomes `Failure` (in `Search` and `Calendar`) or `None` (in `Graph.Step`).

Places where the code surprises a reader, or departs from its own annotations and docstrings; the model follows the code:

- **The pushed value.** `enter_write_sequence` pushes the string `"write_assistant"` (graph.py:402), not the `"writer"` named in the `Literal` type annotation of `update_dialog_stack` (graph.py:194). That string is a node name, so `pick_starting_point` still resumes at the writer (`Router.PersonasAreNodeNames`).
- **Leaving the writer.** The edges reach `leave_write_sequence` only when some call is named `CompleteOrEscalate`. So in the running graph, leaving always emits exactly one synthetic message (`Graph.LeaveAnswersHandBack`). The zero-message branch of `pop_dialog_state` cannot be reached through the edges.
- **Hand-offs answer one call.** Both hand-off nodes answer only `tool_calls[0]`. When the model issues several calls in that turn, the others get no response (`Router.HandOffAnswersOnlyFirstCall`). Only the tool nodes and the error fallback answer every call (`Graph.ToolNodesAnswerEveryCall`).
- **Quoted phrases.** The calendar search's docstring promises that a quoted query searches for "the exact phrase" (graph.py:90), but a quoted phrase is not matched as a whole. The segment between quotes is split on whitespace again, so `"team offsite"` yields the tokens `team` and `offsite`, OR'd (`Tokens.QuotedPhraseIsSplit`).
- **Calendar end bound.** The calendar search compares the end bound with `end_time`, not `start_time` (`Search.EventEndBoundIgnoresStart`).

## Model

| member | source | states |
|---|---|---|
| `DialogStack.UpdateDialogStack` | evals/email_assistant/graph.py:193-201 | `None` leaves the stack unchanged. `"pop"` removes exactly the last element, and an empty stack stays empty. Any other value is appended on top, and the rest is unchanged. |
| `DialogStack.PushThenPop` | evals/email_assistant/graph.py:193-201 | A push followed by a pop restores the original stack. |
| `DialogStack.PopThenPush` | evals/email_assistant/graph.py:193-201 | Popping a non-empty stack and pushing back its old top restores it. |
| `DialogStack.DepthChange` | evals/email_assistant/graph.py:193-201 | The depth stays the same on `None`, grows by one on a push, and shrinks by one on a pop unless the stack is empty. |
| `DialogStack.PickStartingPoint` | evals/email_assistant/graph.py:345-349 | Returns `"assistant"` when the stack is missing or empty, and the last element of the stack otherwise. |
| `DialogStack.EntryFollowsStack` | evals/email_assistant/graph.py:345-349 | After a push, the entry point is the pushed persona. After the matching pop, it is what it was before the push. |
| `Router.NodeNamed` | evals/email_assistant/graph.py:356-432 | A name resolves only to a registered node whose name it is, never to END. |
| `Router.NodeNamesRoundTrip` | evals/email_assistant/graph.py:356-432 | Every node except END is found again by its registered name. |
| `Router.PersonasAreNodeNames` | evals/email_assistant/graph.py:345-424 | `"assistant"` resolves to the assistant node. The pushed `"write_assistant"` resolves to the writer node. |
| `Router.AnyNamed` | evals/email_assistant/graph.py:440 | True exactly when some call in the list has the given name. |
| `Router.RouteAssistant` | evals/email_assistant/graph.py:365-372 | Routes to END exactly when there are no tool calls. Routes to `enter_write_sequence` exactly when the first call is `WriteAssistant`. Routes to `assistant_tools` exactly when there are calls and the first is not `WriteAssistant`. |
| `Router.LateDelegationGoesToTools` | evals/email_assistant/graph.py:369-372 | A `WriteAssistant` call that is not the first call still routes to `assistant_tools`. |
| `Router.RouteWriter` | evals/email_assistant/graph.py:435-443 | Routes to END exactly when there are no tool calls. Routes to `leave_write_sequence` exactly when any call is `CompleteOrEscalate`. Routes to `writer_sensitive_tools` otherwise. |
| `Router.EnterWriteSequenceNode` | evals/email_assistant/graph.py:389-403 | Emits exactly one tool message, correlated to the first call's id, and pushes `"write_assistant"`. |
| `Router.PopDialogStateNode` | evals/email_assistant/graph.py:406-419 | Always requests `"pop"`. Emits one tool message for the first call's id when the last message has tool calls, and none otherwise. |
| `Router.HandleToolError` | evals/email_assistant/graph.py:323-334 | One error message per pending call, in call order, each carrying that call's id and the error text. The stack is untouched. |
| `Router.ToolNodeRan` | evals/email_assistant/graph.py:337-338 | A tool node that ran answers every pending call in order, each with its own output. The stack is untouched. |
| `Router.HandOffAnswersOnlyFirstCall` | evals/email_assistant/graph.py:389-419 | With two or more pending calls, neither hand-off node answers all of them. |
| `Router.HandOffAnswersSingleCall` | evals/email_assistant/graph.py:389-419 | With exactly one pending call, both hand-off nodes answer it. |
| `Graph.Step` | evals/email_assistant/graph.py:353-456 | The edges of the graph. A step only appends messages. Only the hand-off nodes change the stack: entering pushes `"write_assistant"` and leads to the writer, leaving pops and leads to the assistant. Reaching END never changes the stack. Each persona's nodes lead only to that persona's nodes or to END. |
| `Graph.StepProgress` | evals/email_assistant/graph.py:365-456 | From any configuration the edges produce, an oracle choice of the right kind always gives a step, and the result is again such a configuration. |
| `Graph.ToolNodesAnswerEveryCall` | evals/email_assistant/graph.py:356-362 | Both tool nodes append exactly one correlated response per pending call, in call order, whether the tools ran or raised. |
| `Graph.LeaveAnswersHandBack` | evals/email_assistant/graph.py:406-443 | In the running graph, leaving the write sequence appends exactly the one resume message for the first call. |
| `Graph.StepKeepsAligned` | evals/email_assistant/graph.py:375-456 | The stack is the base while the assistant holds control. It is the base plus `"write_assistant"` while the writer holds control. Each step keeps this. |
| `Graph.RunKeepsAligned` | evals/email_assistant/graph.py:375-456 | Every run of any length keeps the stack aligned with the node. |
| `Graph.RunOnlyAppends` | evals/email_assistant/graph.py:204-206 | Every run only appends to the message list. |
| `Graph.DelegationRestoresStack` | evals/email_assistant/graph.py:389-456 | After entering the write sequence, the stack equals the pre-delegation stack whenever control is back at the assistant's nodes. |
| `Graph.ToolStep` | evals/email_assistant/graph.py:356-362 | A tool node, with `handle_tool_error` as its fallback, steps exactly when the last message is a model message and the tools either raised or returned one output per pending call. It then returns to the given node, leaves the stack untouched, and appends exactly one correlated response per pending call. A count of outputs that does not match is an impossible oracle choice, not a raise. |
| `Graph.Entry` | evals/email_assistant/graph.py:345-353 | An empty stack enters at the assistant. Otherwise the entry is the node the stack top names. A top that names no node makes the turn fail (`None`). |
| `Graph.Turn` | evals/email_assistant/graph.py:353 | A turn fails when the entry point names no node. A successful turn keeps the old messages followed by the user's message as a prefix. With no oracle choices it stops at the entry node with the user's message appended. |
| `Graph.Initial` | evals/email_assistant/graph.py:204-206 | A fresh conversation (no messages, empty stack) is aligned at END. |
| `Graph.TurnKeepsStackShallow` | evals/email_assistant/graph.py:345-353 | Between turns the stack is empty or holds only `"write_assistant"`. The entry point is always a real node, and it is the writer exactly when a delegation is in progress. A new turn keeps this. |
| `Tokens.SplitOn` | evals/email_assistant/graph.py:40 | The pieces contain no separator and join back to the input. |
| `Tokens.SplitOnUnique` | evals/email_assistant/graph.py:40 | Any separator-free pieces that join to the string are exactly the ones `SplitOn` gives. |
| `Tokens.SplitWords` | evals/email_assistant/graph.py:41 | Every word is non-empty and free of whitespace. Together the words hold exactly the non-whitespace characters, in order. |
| `Tokens.WordsAcrossSpace` | evals/email_assistant/graph.py:41 | Splitting distributes over a whitespace character. |
| `Tokens.WordsOfWord` | evals/email_assistant/graph.py:41 | A whitespace-free string extends the word being read. |
| `Tokens.SplitWordsFacts` | evals/email_assistant/graph.py:41 | A single word splits into itself, and a whitespace character separates words. |
| `Tokens.ReplaceStar` | evals/email_assistant/graph.py:42 | Same length, every `*` becomes `%`, and every other character is kept. |
| `Tokens.StarredWords` | evals/email_assistant/graph.py:41-42 | Every token of a quote-free piece is non-empty and free of quotes, whitespace and `*`. |
| `Tokens.PieceTokens` | evals/email_assistant/graph.py:40-42 | Every token of the quote-separated pieces is a proper token. |
| `Tokens.QueryTokens` | evals/email_assistant/graph.py:35-47 | Every token is non-empty and contains no `"`, no whitespace and no `*`. |
| `Tokens.QuotedPieces` | evals/email_assistant/graph.py:107 | A quoted phrase splits on the quote into an empty piece, the phrase and an empty piece. |
| `Tokens.TwoWords` | evals/email_assistant/graph.py:108 | Two words around one whitespace character split into exactly those two words. |
| `Tokens.QuotedQueryTokens` | evals/email_assistant/graph.py:102-112 | A query made of one quoted phrase yields the tokens of the phrase's words. |
| `Tokens.QuotedPhraseIsSplit` | evals/email_assistant/graph.py:87-112 | `"a b"` with its quotes yields the two separate tokens `a` and `b`. The phrase is not kept whole. |
| `Tokens.QueryBlank` | evals/email_assistant/graph.py:39-42 | One query string yields no token exactly when it consists only of whitespace and quotes. |
| `Tokens.NoTokensIffBlank` | evals/email_assistant/graph.py:35-47 | The queries yield no token exactly when every query is made only of whitespace and quotes. |
| `Search.SearchEmails` | evals/email_assistant/graph.py:11-75 | SQL error exactly when the queries are truthy but yield no token. Otherwise it returns every row satisfying the AND of the truthy filters, with the OR of the tokens, each with its multiplicity. `count` is the number of results. |
| `Search.AllEmailsWithoutFilter` | evals/email_assistant/graph.py:65-75 | Without a truthy filter, every row is returned and `count` is the table size. |
| `Search.EmailFiltersNarrow` | evals/email_assistant/graph.py:32-67 | Adding truthy filters never increases the result count. |
| `Search.ZeroThreadIdIsNoFilter` | evals/email_assistant/graph.py:61-63 | A `thread_id` of 0 gives the same result as no `thread_id`. |
| `Search.EmailDateBounds` | evals/email_assistant/graph.py:55-60 | `start_date` is inclusive and `end_date` exclusive for the email timestamp. |
| `Search.SearchCalendarEvents` | evals/email_assistant/graph.py:78-134 | SQL error exactly when the queries are truthy but yield no token. Otherwise it returns every event satisfying the AND of the truthy filters, with the OR of the tokens over title and description. `count` is the number of results. |
| `Search.AllEventsWithoutFilter` | evals/email_assistant/graph.py:121-134 | Without a truthy filter, every event is returned and `count` is the table size. |
| `Search.EventFiltersNarrow` | evals/email_assistant/graph.py:99-123 | Adding truthy filters never increases the result count. |
| `Search.EventDateBounds` | evals/email_assistant/graph.py:114-119 | An event starting at `start_date` passes the start bound. An event ending at `end_date` is excluded, and so is a well-formed event starting at `end_date`. |
| `Search.EventEndBoundIgnoresStart` | evals/email_assistant/graph.py:117-119 | The end bound tests `end_time` only: an inverted event ending before the bound passes even though it starts after it. |
| `Actions.MaxThreadId` | evals/email_assistant/graph.py:165 | 0 on an empty table. Otherwise it is a thread id that occurs in the table and is at least every thread id in it. |
| `Actions.NextThreadId` | evals/email_assistant/graph.py:163-166 | Greater than every existing thread id. 1 on an empty table, and otherwise one above an existing id. |
| `Actions.SendEmail` | evals/email_assistant/graph.py:154-173 | Appends exactly one row and leaves the existing rows unchanged. The sender is `user_id` and the other fields are as given. An explicit thread id (0 included) is stored as given. Without one, the new thread id is max+1, or 1 on an empty table. The confirmation text names the recipient and subject. |
| `Actions.SequentialSendsIncrease` | evals/email_assistant/graph.py:163-170 | Two sequential sends without a thread id get strictly increasing ids, the second directly above the first. |
| `Actions.FirstSendIsFound` | evals/email_assistant/graph.py:154-173 | On an empty store a send gets thread 1, and a search by the sender returns it with count 1. This holds for every user id: the empty one is a falsy filter and matches every row. |
| `Actions.CreateCalendarEvent` | evals/email_assistant/graph.py:137-151 | Appends exactly the given event and leaves the existing rows unchanged. Nothing requires start before end. |
| `Actions.CreatedEventIsFound` | evals/email_assistant/graph.py:137-151 | After a creation, the unfiltered calendar search returns one more row, and a search bounded below by the event's start finds it. |
| `Calendar.Midnight` | evals/email_assistant/db.py:56 | Truncating to midnight gives a multiple of a day, on the same day, at most the input and less than a day before it. |
| `Calendar.ShiftDays` | evals/email_assistant/db.py:55 | Adding `d` days moves the day number by `d`. |
| `Calendar.GetWeekday` | evals/email_assistant/db.py:48-56 | Raises `ValueError` with the code's message exactly when the weekday is outside 0..6. Otherwise the result is at midnight, its weekday is the requested one, and it lies `weekday + 7*from_now - today.weekday()` days from today. |
| `Calendar.NextWeekRange` | evals/email_assistant/db.py:53-54 | With `from_now = 1`, the target is 1 to 13 days after today. |
| `Calendar.GetWeekdayMonotone` | evals/email_assistant/db.py:52-56 | A later clock reading never gives an earlier target. |
| `Seed.NextWeek` | evals/email_assistant/db.py:317-321 | `get_weekday(w)` for a valid weekday is a midnight on that weekday. |
| `Seed.Decimal` | evals/email_assistant/db.py:372 | `str(n)` is a non-empty string of decimal digits. |
| `Seed.DecimalRoundTrip` | evals/email_assistant/db.py:372 | Reading back the digits of `str(n)` gives `n`. |
| `Seed.DecimalInjective` | evals/email_assistant/db.py:372 | Different numbers have different `str` forms. |
| `Seed.FixedEvents` | evals/email_assistant/db.py:317-368 | Seven hand-written events. Their layout is stated by `Seed.OffsiteLayout` and `Seed.FixedEventsStartBeforeEnd`. |
| `Seed.OffsiteLayout` | evals/email_assistant/db.py:317-355 | "Flight UA 123" ends 1h before the offsite starts. "Flight UA 456" starts 3h after it ends. The offsite runs from weekday 4 at 09:00 to weekday 6 at 15:00. |
| `Seed.FixedEventsStartBeforeEnd` | evals/email_assistant/db.py:317-367 | With clock readings in call order, every hand-written event starts before it ends. |
| `Seed.OffsiteOrdered` | evals/email_assistant/db.py:317-320 | The offsite's start (weekday 4 at 09:00) comes before its end (weekday 6 at 15:00), even when the two `get_weekday` calls read the clock at different moments, provided the second reading is not earlier. |
| `Seed.WeddingOrdered` | evals/email_assistant/db.py:357-362 | The same for the wedding flight, whose start and end come from two separate `get_weekday(4)` calls. |
| `Seed.GeneratedEventFacts` | evals/email_assistant/db.py:370-382 | Generated event `i` runs 09:00-10:00 on day `i` after now. It is the secret one exactly when `i == 24`. |
| `Seed.GenerateEvents` | evals/email_assistant/db.py:370-382 | The loop produces exactly 50 events, the `i`-th being generated event `i`, in iteration order. |
| `Seed.SeedCalendarEvents` | evals/email_assistant/db.py:317-387 | The inserted table is the seven hand-written events followed by the 50 generated ones, 57 rows in all. With clock readings in call order, every event starts before it ends. |
| `Seed.SeededTexts` | evals/email_assistant/db.py:370-377 | In the seeded table, row `k` from 7 on is titled `Event {k-6}`. It carries the secret description exactly when `k == 31`, that is, for loop index 24. |
| `Seed.SeededTimes` | evals/email_assistant/db.py:370-382 | In the seeded table, row `k` from 7 on starts at 09:00 on day `k-7` after now and ends one hour later. |
| `Seed.SeededStartBeforeEnd` | evals/email_assistant/db.py:317-382 | With clock readings in call order, every row of the seeded table starts before it ends. |
| `Seed.GeneratedTitlesDistinct` | evals/email_assistant/db.py:370-377 | The fifty generated titles are pairwise distinct. |

## Left out

- SQLite:
  - connections, SQL text assembly, and `cursor.description` key mapping;
  - the integer primary key `id`, which `search_emails` also returns. Row order in the sequence stands for insertion order;
  - the module-level deletion of the database file and the table creation (db.py:1-45, 392).
- Exact SQL `LIKE` semantics (ASCII case folding, `_` as a single-character wildcard) are left out. `like` is a parameter.
- Timestamps are integers. Comparing ISO strings in SQL, with the `T` separator of `isoformat()` against the space that bound dates use, is not modelled. Neither is `strftime` formatting of the generated event times.
- Year limits: datetime's year range 1..9999 and its `OverflowError` are not modelled.
- The language model, prompts, `bind_tools` and `.with_retry()` are left out. The model's reply is the oracle choice `Reply`.
- Tool dispatch inside `ToolNode` (lookup by name, unknown tools, argument validation, concurrent execution) is left out. A tool node either runs and yields one output per call (`ToolsRan`) or raises (`ToolsRaised`), which routes to `handle_tool_error` as `with_fallbacks` does.
- The framework's recursion limit is not modelled: langgraph stops a turn after 25 supersteps with `GraphRecursionError`, but `Graph.Run` accepts runs of any length. Every property proved about runs holds for each prefix of a run, so it also holds for the runs the limit allows.
- `add_messages` is modelled as plain append. Replacing a message by id is not modelled.
- The `AsyncSqliteSaver` checkpointer is left out. `ensure_config` and the user id are parameters.
- Clock readings are parameters:
  - `datetime.now()` in `get_weekday` is the `today` parameter;
  - `CURRENT_TIME` is `now`;
  - each `get_weekday` call of the seed is its own clock reading.
- Where the program would raise inside the graph (`.tool_calls` on a message that is not a model message, `tool_calls[0]` on an empty list), `Graph.Step` returns `None`. The exception itself is not modelled.
- Router.RouteAssistant: requires a non-empty message list. On an empty list the framework's `tools_condition` raises `ValueError`, which is not modelled.
- Router.RouteWriter: requires a non-empty message list, for the same reason.
- The sample emails and their float-second timestamp offsets (db.py:63-316) are left out. Only the calendar events are seeded.
- Concurrency is left out: the read-then-write race of `send_email`'s max+1 under concurrent callers, and concurrent tool dispatch.
- Actions.CreateCalendarEvent: the confirmation text prints timestamps with the caller's `render` function instead of `datetime.__str__`.
