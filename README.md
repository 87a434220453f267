# English-conversation chat bot: mode engine and daily quota

This project models the core of a LINE chat bot that tutors English through a chat-completion
service, and proves properties of that model. The bot runs as a webhook. Each incoming text
message is handled in five steps:

1. The per-user mode and usage record is read.
2. The mode engine decides the outcome: a canned reply, a prompt for the completion service, or
   a new mode.
3. One quota unit is charged before every completion request. A user may spend at most 6 units
   per usage day, and the usage day rolls over at 04:00 UTC+9.
4. The reply is sent with the quick-reply buttons of the resulting mode.
5. The request step stores the mode and appends one entry to the conversation log.

The modules follow the repository's files:

- `Common` (common.dfy): `Option`, `Outcome` (a Python call either returns or raises with a
  message), chat messages, and the prefix and substring tests.
- `DynamoDB` (dynamodb.dfy): the usage day, the user table as a `map`, the log as a `seq`, and
  the history window. The class `DynamoDbHandler` holds both tables as fields and updates them
  in place.
- `OpenAI` (openai.dfy):
  - the message list;
  - `str.strip`;
  - the completion gate `AiSpec`;
  - the class `OpenAiHandler`, which records every request it makes in `calls`.

  The completion endpoint is an oracle `(request index, messages) -> response`.
- `Line` (line.dfy):
  - the sentinel texts;
  - the keyword table;
  - the decision `Decide`;
  - the quick-reply table;
  - the abstract store `World` and the specification `ProcessSpec` of `process_user_message`;
  - the class `LineHandler`, whose methods are proved equal to that specification.
- `Lambda` (lambda.dfy):
  - the event classification;
  - the request step `RequestSpec` and the method `HandleUserMessage` proved against it;
  - the end-to-end quota lemmas: `DailyCap` over a day of chat messages of one user, and
    `DailyCallBound` over any day of invocations.

Every method is proved against a function on the old state. The function is specified as
follows:

- the properties below are proved about the specification functions (`ApplyUsage`,
  `SetMode`, `History`, `AiSpec`, `Decide`, `Perform`, `ProcessSpec`, `RequestSpec`);
- each method's `ensures` ties its result and new state to those functions.

The prompts and announcements are carried in a `Wording` value. The handler is built with the
source's texts (`SourceWording`). Every property holds for any wording, except the turn prompt
`ユーザー：{text}\nAI：`, which is fixed.

Notes on the code:

- The mode-select chain has 16 keywords (modes 1 to 16).
- The shortcut after a selection tests only that the new mode differs from the old one and lies
  in 0..4.
- The daily cap is 6 units.
- A completion reply with a status other than 200 raises. Nothing catches that exception, so
  the request ends there:
  - no reply is sent;
  - no mode is stored;
  - no log entry is written;
  - the quota unit stays charged.

## Model

| member | source | states |
|---|---|---|
| DynamoDB.UsageDay | dynamodb_handler.py:18-22 | The usage day of an epoch second: the UTC+9 date, or the previous date before 04:00. Its closed form and rollover are stated in `UsageDayShift` and `UsageDayRollsOverAtFour`. |
| DynamoDB.UsageDayShift | dynamodb_handler.py:18-22 | The usage day (the UTC+9 date, the previous one before 04:00) is the day count of a clock at UTC+5: `(t + 9h - 4h) div 86400`. |
| DynamoDB.UsageDayRollsOverAtFour | dynamodb_handler.py:18-22 | The 86400 seconds from a local 04:00 on all share one usage day, one more than the day of the second before 04:00. |
| DynamoDB.UsageDayMonotonic | dynamodb_handler.py:18-22 | A later instant never has an earlier usage day. |
| DynamoDB.ApplyUsage | dynamodb_handler.py:17-49 | The new user table after `update_user_usage`, or `None` where it raises. Either the record is reset for a new usage day, or the count accumulates within the same day. Its effect is stated in `ApplyUsageSpec`, and the quota invariant in `ApplyUsageKeepsQuota`. |
| DynamoDB.ApplyUsageSpec | dynamodb_handler.py:26-49 | The update succeeds exactly when today's spent units plus `api_count` are at most 6. Today's spent units are the stored count if it is dated today, and 0 otherwise. A success writes exactly (that sum, the mode, today) for the user and changes nothing else. |
| DynamoDB.ApplyUsageKeepsQuota | dynamodb_handler.py:26-49 | A successful update keeps every stored count at most 6. |
| DynamoDB.ZeroCostNeverRaises | dynamodb_handler.py:37-40 | A zero-unit update never raises when the stored count is at most 6. |
| DynamoDB.QuotaExamples | dynamodb_handler.py:26-49 | A new user can spend 6 units at once. A 7th unit the same day is refused. The next usage day starts again from the new unit. |
| DynamoDB.SetMode | dynamodb_handler.py:52-72 | An existing record changes only its mode. A new user gets (0, mode, the plain UTC+9 date). Every other record is unchanged and no other key is added. |
| DynamoDB.SetModeKeepsCounts | dynamodb_handler.py:52-72 | Storing a mode keeps the table within quota and leaves every user's spent units of every day unchanged. |
| DynamoDB.Window | dynamodb_handler.py:97-104 | The window is the last min(6, n) of the user's n entries, in the order they were saved. |
| DynamoDB.TurnsShape | dynamodb_handler.py:106-108 | The turns have length 2k. Entry i gives the user turn 2i with its message and the assistant turn 2i+1 with its response. |
| DynamoDB.HistoryShape | dynamodb_handler.py:96-110 | The history has 2·min(6, n) turns in strict user/assistant alternation, and the i-th pair carries the i-th entry of the window, oldest first. |
| DynamoDB.QueryRecentReversed | dynamodb_handler.py:97-104 | The query takes the user's entries newest first and keeps the first 6 (`ScanIndexForward=False`, `Limit=6`). Reversing its result gives exactly the window: the user's last min(6, n) entries, in the order they were saved. |
| DynamoDB.UserEntriesAppend | dynamodb_handler.py:84-93 | Saving an entry adds it to the history source of its own user only. |
| DynamoDB.DynamoDbHandler.constructor | dynamodb_handler.py:10-14 | The handler starts over the given tables. |
| DynamoDB.DynamoDbHandler.UpdateUserUsage | dynamodb_handler.py:17-49 | It raises the quota message exactly when `ApplyUsage` refuses, and then leaves the table unchanged. Otherwise the table becomes `ApplyUsage`'s result. The log is untouched. |
| DynamoDB.DynamoDbHandler.UpdateModeCode | dynamodb_handler.py:52-72 | The user table becomes `SetMode` of the old one, and the log is untouched. |
| DynamoDB.DynamoDbHandler.GetModeCode | dynamodb_handler.py:75-81 | It returns the stored mode, or 0 for an unknown user. |
| DynamoDB.DynamoDbHandler.SaveLog | dynamodb_handler.py:84-93 | It appends exactly one entry (user, message, response, mode, UTC+9 time) and leaves the user table unchanged. |
| DynamoDB.DynamoDbHandler.GetConversationHistory | dynamodb_handler.py:96-110 | The loop over the reversed query yields exactly `History`, the shape `HistoryShape` proves. |
| OpenAI.BuildMessages | openai_handler.py:19-23 | The message list has length of the history plus 2: the system preamble first, the history unchanged in order, the user prompt last. |
| OpenAI.Strip | openai_handler.py:39 | Python's `str.strip()` with the `str.isspace` character set. It is characterised by `StripSpec` and is idempotent by `StripIdempotent`. |
| OpenAI.StripSpec | openai_handler.py:39 | `strip()` returns a contiguous part of its input. Everything around that part is whitespace, and the part neither starts nor ends with whitespace. |
| OpenAI.StripIdempotent | openai_handler.py:39 | Stripping twice is stripping once. |
| OpenAI.AiSpec | openai_handler.py:13-39 | What `get_ai_response` returns, and what it does to the user table and the request trace. It charges one unit and returns the quota text if that raises. Otherwise it makes one request and then raises or returns the stripped answer. The gate is stated in `AiSpecGate` and the answer in `AiSpecAnswer`. |
| OpenAI.AiSpecGate | openai_handler.py:14-31 | A request is made exactly when one more unit fits in today's quota. It is then exactly one request, charged to the user today, with the assembled message list, and the unit is counted. Otherwise the quota text is returned and nothing changes. |
| OpenAI.AiSpecAnswer | openai_handler.py:34-39 | When a request is made, the result is returned exactly when the status is 200, and is then the stripped first choice. Any other status raises with the response text. |
| OpenAI.OpenAiHandler.constructor | openai_handler.py:7-10 | The handler is bound to the usage store and the endpoint and has made no request. |
| OpenAI.OpenAiHandler.GetAiResponse | openai_handler.py:13-39 | The result, the new user table and the request trace are those of `AiSpec`, and the log is untouched. |
| Line.ModeMessage | line_handler.py:18-24 | `mode_messages`: the announcement of modes 0..4. The announce path, stated in `AnnounceSpec`, replies with it. |
| Line.PromptText | line_handler.py:61-416 | The text sent for each prompt: the two feedback requests, the "another question" request, the three mode openings, the one lecture template around the topic noun, and the chat turn. Rendering the chat turn is stated in `TurnPromptText`. |
| Line.ModePrompt | line_handler.py:118-416 | The prompt of a newly selected mode: the opening of modes 1..3 and the lecture on keyword m for modes 5..16. Its use is stated in `SelectKeyword` and `ModeSelectSpec`. |
| Line.SelectMode | line_handler.py:117-416 | A selected mode lies in 1..16. |
| Line.FirstKeywordIff | line_handler.py:118-416 | From any starting point, the scan finds mode m exactly when the text contains m's keyword and none of the keywords tried before it. It finds nothing exactly when the text contains none of them. |
| Line.SelectModeIff | line_handler.py:118-416 | Mode m is selected exactly when the text contains keyword m and none of keywords 1..m-1. No mode is selected exactly when the text contains no keyword. |
| Line.SelectModeUnrolled | line_handler.py:118-416 | The selection is the literal elif chain フリートーク, 英文添削, … 会議 giving modes 1..16. |
| Line.Decide | line_handler.py:44-446 | The decision is coherent: an announcement is of a mode 0..4 and is stored by the zero-cost call or explicitly, and a decision without the zero-cost call keeps the stored mode. The decided mode is in 0..16 when the stored one was. |
| Line.SelectDecision | line_handler.py:117-441 | The same two facts for the mode-select branch. |
| Line.QuickReplyItems | line_handler.py:457-498 | The table is total over all integers and never empty, with at most 12 buttons. |
| Line.MarkerSelects | line_handler.py:117-416 | The marker `【モード:<keyword m>】` starts with the prefix and selects exactly mode m. |
| Line.MarkerIsNoSentinel | line_handler.py:51-115 | No marker equals any sentinel text. |
| Line.MarkerButtonRoundTrip | line_handler.py:472-497 | In any stored mode, a marker button's payload takes the mode-select path with its own mode, and the decided mode is that mode. |
| Line.TopicMenuItems | line_handler.py:472-486 | Mode 4 shows exactly the 12 topic buttons, modes 5..16 in order. |
| Line.TopicMenuRoundTrip | line_handler.py:472-486 | The i-th of the 12 topic buttons selects mode 5+i. |
| Line.TopMenuItems | line_handler.py:491-497 | Every mode outside 1..16 shows exactly the 4 top-level buttons. |
| Line.TopMenuRoundTrip | line_handler.py:491-497 | The i-th of those 4 buttons selects mode 1+i. |
| Line.FinishButtonsEndMode | line_handler.py:457-490 | In modes 1..3 and 5..16 the first button is 完了 and leads to mode 0. Modes 1 and 3 have exactly a second button, 分からない, which asks again and keeps the mode. The other modes have one button. |
| Line.NoButtonIsChat | line_handler.py:457-498 | No button of any mode sends a text that falls to the default chat path. |
| Line.ProcessSpec | line_handler.py:44-453 | `process_user_message` on the abstract store: decide, then carry the decision out. Its per-path behaviour is stated in `CannedFinishSpec`, `FeedbackFinishSpec`, `DontKnowSpec`, `ModeSelectSpec`, `ChatSpec` and `ChatGate`, and its accounting in `ProcessStoresMode` and `ProcessUsageAccounting`. |
| Line.Perform | line_handler.py:51-453 | Carrying out a decision. It makes the zero-cost usage call when the decision has one, raising the quota text if that is refused. Then it either replies with the announcement, storing the mode where the branch does, or goes on to `Answer`. Its cases are stated in `AnnounceSpec` and `CompleteSpec`. |
| Line.Answer | line_handler.py:448-453 | The completion tail: fetch the history, call `get_ai_response`, and reply with its answer unless it raised. Its accounting is stated in `AnswerAccounting`. |
| Line.AnnounceSpec | line_handler.py:436-441 | An announcing decision makes no completion call and no log entry. It fails only when its zero-cost call is refused, and then changes nothing. Otherwise it replies once with the mode's `mode_messages` text, returns no prompt, and leaves that mode stored. |
| Line.CompleteSpec | line_handler.py:448-453 | A completion decision writes no log entry. A refused zero-cost call changes nothing. With the quota used up, it replies with the quota text and makes no request. Otherwise it makes exactly one request, which carries the prompt after the preamble and history, and then: status 200 gives one reply with the stripped answer; any other status raises with no reply. |
| Line.PerformStoresMode | line_handler.py:44-453 | A returned result carries the decided mode, which the user table then holds. |
| Line.AnswerAccounting | line_handler.py:448-453 | The completion tail keeps the table within quota and adds to the user's units today exactly the requests it made (0 or 1, appended to the trace). Other users' units are unchanged, and at most one reply is sent. |
| Line.PerformUsageAccounting | line_handler.py:44-453 | The same accounting for every decision. |
| Line.PerformChargesCaller | line_handler.py:44-453 | Every completion request a decision makes is charged to the requesting user and the usage day of the request. |
| Line.ProcessChargesCaller | line_handler.py:44-453 | The same for every processed message. |
| Line.SentinelsAreNoMarkers | line_handler.py:51-117 | No sentinel text starts with the mode-select prefix. |
| Line.ProcessStoresMode | line_handler.py:44-453 | `process_user_message` returns the decided mode. The table then holds it, and it is in 0..16 when the stored mode was. |
| Line.ProcessUsageAccounting | line_handler.py:44-453 | `process_user_message` keeps the table within quota and charges the user today exactly the requests it made. Other users' units are unchanged, and at most one reply is sent. |
| Line.CannedFinishSpec | line_handler.py:51-56 | The correction and lecture finish texts make no request and no log entry. They succeed exactly when the zero-cost call with mode 0 is accepted, and then reply `mode_messages[0]` once, return no prompt, and leave mode 0 stored. |
| Line.FeedbackFinishSpec | line_handler.py:58-112 | The free-talk and presentation finish texts return mode 0, which is stored, with their own feedback prompt. They make exactly that one request when quota remains, and none otherwise. |
| Line.DontKnowSpec | line_handler.py:84-115 | The two "don't know" texts keep the stored mode and ask for another question. With quota left they make exactly that request. With the quota used up they reply with the quota text and leave the table unchanged, so no zero-cost call is made. |
| Line.ModeSelectSpec | line_handler.py:117-441 | A marker text takes the mode-select path with the first-match keyword. The lecture menu, or a new mode in 0..4, replies with the announcement and makes no request. Otherwise the text goes to the gate with the mode's prompt, or with no prompt and the mode kept when no keyword matched. |
| Line.ChatDecision | line_handler.py:444-446 | Any text matching no earlier branch is a chat turn in the stored mode with the zero-cost call. |
| Line.TurnPromptText | line_handler.py:445 | The chat prompt is exactly `ユーザー：{text}\nAI：`. |
| Line.ChatSpec | line_handler.py:444-453 | A chat turn returns the prompt `ユーザー：{text}\nAI：` and the unchanged mode, which stays stored. |
| Line.ChatGate | line_handler.py:444-453 | Below the cap, a chat turn makes exactly one request and returns exactly on status 200. At the cap it answers the quota text with no request. Above the cap its zero-cost call raises and nothing changes. |
| Line.SelectKeyword | line_handler.py:117-416 | The imperative elif chain selects `SelectMode`'s mode and that mode's prompt (none for mode 4). |
| Line.LineHandler.constructor | line_handler.py:12-24 | The handler is bound to the two other handlers and the source's texts, and has sent no reply. |
| Line.LineHandler.ReplyMessage | line_handler.py:27-39 | It emits exactly one reply: the text with the quick replies of the mode. |
| Line.LineHandler.ProcessUserMessage | line_handler.py:44-453 | Its result and the new tables, request trace and replies are exactly `ProcessSpec` of the old state. |
| Line.LineHandler.SelectBranch | line_handler.py:117-441 | The mode-select branch carries out `SelectDecision`. |
| Line.LineHandler.AnswerPrompt | line_handler.py:448-453 | The history fetch, the gate and the reply carry out `Answer`. |
| Lambda.ClassifyEvent | lambda_function.py:27-34 | There is no error exactly for a text message event. |
| Lambda.ClassifyEventErrors | lambda_function.py:27-34 | A non-message event gives the event-type error. A non-text message gives the message-type error. Every error text is non-empty. |
| Lambda.RequestSpec | lambda_function.py:43-62 | `handle_user_message` on the abstract store. A truthy error is replied under mode 0. Otherwise the message is processed; an exception ends the request, and a returned result has its mode stored and one log entry appended. It is stated in `RejectedEventSpec`, `RequestLogsOnce` and `RequestUsageAccounting`. |
| Lambda.HandleUserMessage | lambda_function.py:43-62 | Its result and the new tables, request trace and replies are exactly `RequestSpec` of the old state. |
| Lambda.RejectedEventSpec | lambda_function.py:46-48 | A non-text event is answered with its error text under mode 0 and its quick replies. The tables and the request trace are untouched. |
| Lambda.RequestLogsOnce | lambda_function.py:54-62 | A processed text message appends exactly one log entry: (user, text, the replied text, the returned mode, UTC+9 time). That mode is the one then stored. A raised one logs nothing. |
| Lambda.RequestUsageAccounting | lambda_function.py:43-62 | A request keeps the table within quota and charges the user today exactly the requests it made, appended to the trace. Other users' units are unchanged. |
| Lambda.RequestChargesCaller | lambda_function.py:43-62 | Every completion request a webhook request makes is charged to its user and its usage day. |
| Lambda.ChatRequestStep | lambda_function.py:54-62 | Against a service that always answers 200, a chat turn ends normally and is charged one unit exactly when one remained. It makes one request exactly then, and logs its text, with the quota text as the answer when no unit remained. |
| Lambda.DailyCallsWith | lambda_function.py:54-62 | For a day of turns, each accounted like that: the first 6 - c turns make one request each, charged to the user that day (c = units already spent), and the total reaches c plus those requests. |
| Lambda.DailyLogWith | lambda_function.py:54-62 | For the same turns, every turn is logged, and every turn after the first 6 - c holds the quota text as its answer. |
| Lambda.DailyCap | lambda_function.py:54-62 | For chat messages of one user in one usage day against a healthy service: all end normally and every message is logged. Exactly min(n, 6 - c) requests are made, all charged to that user and day. Every later message is answered with the quota text. |
| Lambda.Serve | lambda_function.py:43-62 | Independent invocations handled one after the other, each on the store the previous one left, whether it ended normally or raised. Its bound is stated in `DailyCallBound`. |
| Lambda.ChargedCount | openai_handler.py:15-31 | The number of requests in the trace charged to a user in a usage day is at most the length of the trace. |
| Lambda.DeliverCharges | lambda_function.py:43-62 | One invocation in day d adds to the requests charged to user v in d exactly the requests it made, when it is v's own request, and none otherwise. v's units of d grow by the same number, and the table stays within quota. |
| Lambda.DailyCallBound | lambda_function.py:43-62 | Take any invocations in one usage day, from any users, with any texts and error texts, whatever the service answers. The requests charged to u that day grow by exactly the units u spent that day, so by at most 6 less the units already spent, and the table stays within quota. |

## Left out

- The messaging platform SDK: a reply is recorded as emitted. The network call and the swallowed
  delivery exception in `reply_message` are not modelled.
- The table service: the user table is a map and the log an append-only sequence; the
  non-atomic read-then-write of `update_user_usage` across concurrent invocations is not
  modelled, nor are log-key collisions of two entries with the same user and second.
- The HTTP call and JSON decoding: the endpoint is an oracle giving status, body text and first
  choice; the generation parameters are inert and not kept.
- `lambda_handler`: the JSON body, the environment variables and the HTTP 200 response are not
  modelled. As written, its error path passes the unbound `user_message` at line 37, so an error
  reply cannot be reached through it; `HandleUserMessage` takes the error text as a direct input.
- The quick-reply list computed and discarded at the end of `handle_user_message` has no effect
  and is not modelled.
- Clock reads: each request takes one epoch-second value `now`, used by every store call of
  that request (the source reads the clock at each call). Calendar dates are day numbers, and
  the log timestamp is the UTC+9 second rather than a formatted string.
- The indentation and blank lines inside the source's multi-line prompt literals are not kept in
  `SourceWording`; no property depends on the wording.
- `process_user_message` makes the zero-cost usage call inside each keyword branch; `SelectBranch`
  makes it once after the keyword chain, with the same mode and effect.
- The log is read in the order its entries were saved. The log table orders a user's entries by
  the `created_at` timestamp, and the two orders agree only when the handled instants never go
  backwards; `now` is a free parameter of each request, and neither `HistoryShape` nor `DailyCap`
  requires the instants to increase.
- GetConversationHistory: its postcondition states only equality with `History`; the window and
  alternation are stated once, in `HistoryShape`.
- DailyLogWith: states which entries hold the quota text; the per-entry text and user of each
  logged turn are stated per request in `RequestLogsOnce` and `ChatRequestStep`.
