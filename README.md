# Slack to OpenAI Assistants relay: a Dafny model

The relay is a Slack bot (`app.py`). Two Slack event handlers decide which events to answer:
- `app_mention` answers mentions of the bot.
- `message` answers plain messages in channels, groups and direct messages.

For each admitted event, `process_with_assistant` does the following:
1. Posts a "Thinking..." placeholder.
2. Finds or creates the OpenAI Assistants thread that belongs to the Slack thread. The mapping lives in an in-process dictionary.
3. Adds the prompt to that thread and starts a run.
4. Polls the run every `POLLING_INTERVAL_S` seconds until it leaves the statuses queued, in_progress and cancelling. If more than `RUN_TIMEOUT_S` seconds pass first, it cancels the run.
5. Turns the final state, or the exception raised on the way, into a reply. The reply edits the placeholder when there is one; otherwise it is posted with `say`. A request makes at most two reply calls, and none after a SlackApiError in the try block.

The model splits this into modules:

- `Text`: `str.strip()`, `lstrip()`, `rstrip()`, `startswith` and `"\n".join`, with one whitespace predicate for both `strip()` and the `\s` of the mention pattern.
- `Mention`: `clean_mention`.
- `Remote`: the exceptions the collaborators raise, their answers (`Reply`), and the external calls one request makes (`Call`). A request is judged by the sequence of calls it makes. A reply call carries `Words`: one of the relay's fixed apologies, the OpenAI-error apology around the exception's detail, or a text passed on unchanged. `Spelled` gives its characters.
- `Assembly`: building the reply text from the newest-first message list of a completed run.
- `Runs`: run statuses, the two timing constants, and the polling loop. The loop appears twice:
  - as a function (`Poll`, `WaitForRun`);
  - as an imperative `while` loop (`PollRun`), proved equal to the function.
- `Threads`: the Slack-thread to OpenAI-thread map. `Resolve` is find-or-create as a function. `ThreadStore` is a class whose method `FindOrCreate` updates the map in place and counts create calls.
- `Relay`: `process_with_assistant`.
  - `Expected` is what it does for every combination of collaborator answers (a `Script`).
  - `Attempt` (the try block) and `Process` (the whole function) are the step-by-step methods against a `ThreadStore`, proved to do exactly what `Expected` says.
  - The lemmas state the reply, cancel and mapping guarantees.
- `Router`: the admission logic of `handle_mention_assistant` and `handle_message_events`.
- `Scenario`: one request traced end to end, from "<@BOT> hello" to the edited placeholder.

The remote services and the clock are oracles:
- `retrieve(k)` is what the k-th `runs.retrieve` returns.
- `elapsed(k)` is `time.time() - start_time` at the timeout check made after k sleeps. The only assumption about it is that after k sleeps at least k × `POLLING_INTERVAL_S` seconds have passed (`ClockAdvances`).
- The bot user id is a parameter (`Option<string>`; `None` when `auth_test` failed).
- Whether the OpenAI client and assistant id are configured is a boolean.

Behaviour worth knowing:
- On timeout, the "took too long" reply comes only when the cancel call succeeds. If the cancel raises, its exception is handled in its place (`Relay.TimeoutReported`).
- The thread map has no lock, so nothing about concurrent requests is claimed.
- Text blocks are joined with `"\n"` whether or not they come from the same message.
- Some failures produce no reply:
  - a Slack error anywhere in the try block (`Relay.SlackErrorInSession`), and a Slack error raised by the first reply is not followed by another reply (`Relay.SlackErrorOnReply`);
  - a failing reply inside the OpenAI-error or timeout handler, whose exception then leaves `process_with_assistant` (`Relay.Escapes`).
- When the first final reply raises something other than a Slack error, the except clause replies a second time. There can be two reply calls (`Relay.SingleReply`).

## Model

| member | source | states |
|---|---|---|
| Text.Trim | app.py:60-61 | `strip()` leaves a string that neither starts nor ends with whitespace and is no longer than its input |
| Text.TrimStart | app.py:59-60 | the anchored `^\s*` removes exactly the leading whitespace: the result is a suffix, everything dropped is whitespace, and the result does not start with whitespace |
| Text.TrimEnd | app.py:60 | `rstrip()` keeps a prefix, drops only whitespace, and leaves no trailing whitespace |
| Text.TrimUnique | app.py:60-61 | stripping whitespace + core + whitespace, where the core is already stripped, yields exactly the core |
| Text.TrimSplits | app.py:60-61 | every string is its stripped core with whitespace on both sides (the converse of TrimUnique) |
| Text.TrimIdempotent | app.py:60-61 | stripping twice is stripping once |
| Text.TrimKeepsPrefix | app.py:249 | stripping keeps a leading token that begins and ends with non-whitespace |
| Text.TrimStartSkipsSpace | app.py:59 | leading whitespace does not change what the anchored `\s*` leaves |
| Text.TrimEndSkipsSpace | app.py:60 | trailing whitespace does not change what `rstrip()` leaves |
| Text.Join | app.py:143-148 | joining a single part gives that part |
| Text.JoinAppend | app.py:143-148 | `sep.join(a + b)` is `sep.join(a) + sep + sep.join(b)` for non-empty a and b |
| Mention.MentionToken | app.py:58 | the mention token is `<@`, then exactly the id, then `>` |
| Mention.CleanMention | app.py:55-61 | the cleaned prompt is stripped and never longer than the raw text |
| Mention.CleanUnknown | app.py:57-61 | with a falsy bot id the text is only stripped |
| Mention.CleanLeadingMention | app.py:57-60 | whitespace + `<@ID>` + rest cleans to `rest.strip()` |
| Mention.CleanOtherText | app.py:57-60 | text that does not open with the mention (after whitespace) is only stripped |
| Mention.MentionRemovedOnce | app.py:59-60 | of two leading mentions only the first goes; the cleaned prompt still starts with the second |
| Mention.InnerMentionKept | app.py:59-60 | a mention after a word is kept: the text is only stripped |
| Assembly.OfRun | app.py:137 | a message is kept exactly when it belongs to this run and was written by the assistant (the order is kept too, as `Assembly.OfRunAppend` states) |
| Assembly.Reversed | app.py:145 | `reversed` puts the i-th element last-but-i |
| Assembly.BlockTexts | app.py:144-147 | there are never more text values than content blocks |
| Assembly.Assemble | app.py:137-148 | with no message from this run, the reply is the fixed fallback; otherwise it is stripped |
| Assembly.OfRunAppend | app.py:137 | filtering distributes over concatenation |
| Assembly.ReversedAppend | app.py:145 | reversing a concatenation swaps and reverses the parts |
| Assembly.TextsAppend | app.py:143-147 | the text values of a concatenation are the concatenated text values |
| Assembly.BlockTextsAppend | app.py:144-147 | the text blocks of concatenated contents are the concatenated text blocks |
| Assembly.AssembleIgnoresOthers | app.py:137 | a message from another run, or not by the assistant, anywhere in the list does not change the reply |
| Assembly.NonTextIgnored | app.py:147 | a non-text block anywhere in a message contributes nothing |
| Assembly.OlderTextFirst | app.py:143-146 | the text of the run's older messages precedes that of its newer ones, although the list arrives newest first |
| Assembly.TwoMessagesJoined | app.py:137-148 | two single-text messages, newest first, give `(older + "\n" + newer).strip()` |
| Assembly.NoTextBlocks | app.py:144-147 | messages with only non-text blocks give no text values |
| Assembly.NoBlockTexts | app.py:147 | content with only non-text blocks gives no text values |
| Assembly.AnsweredWithoutText | app.py:139-148 | when the run answered but only with non-text blocks, the reply is the empty string, not the fallback |
| Assembly.NothingFromRun | app.py:139-141 | with no assistant message of this run, the filter is empty and the reply is the fallback |
| Runs.Poll | app.py:119-127 | the loop ends within `RUN_TIMEOUT_S / POLLING_INTERVAL_S + 1` retrieves; it ends normally only on a non-pending status; it times out only on a pending status with elapsed time strictly over `RUN_TIMEOUT_S`; every earlier check was within the timeout |
| Runs.Retrievals | app.py:127 | n retrieve calls, all for the same thread and run |
| Runs.WaitForRun | app.py:119-124 | waiting makes only retrieve and cancel calls |
| Runs.PollRun | app.py:118-127 | the `while` loop returns the same final state or exception, and makes the same calls, as `WaitForRun` (polling, then one cancel on timeout) |
| Runs.WaitProperties | app.py:119-127 | waiting ends normally only on a non-pending status; it makes at most `MaxRetrieves` + 1 calls, all retrieves or cancels; it cancels exactly once if the timeout fired and never otherwise; a successful cancel raises TimeoutError |
| Runs.SettledRunNotPolled | app.py:120 | a run created with a non-pending status is never retrieved |
| Runs.StuckRunUsesWholeBudget | app.py:121 | the timeout test is strict: with a clock of exactly 2 s per sleep and a run that stays pending, all 61 retrieves happen before the timeout fires |
| Runs.EndedText | app.py:163-166 | with a last error the details start "Run failed: " and end with the error's message; without one they start "Assistant Run " and end with the status |
| Threads.Resolve | app.py:92-100 | a mapped key returns its id and leaves the map alone; an unmapped key calls create once, stores a successful result under that key only, and never overwrites an entry; a failed create leaves the map unchanged |
| Threads.ResolveIdempotent | app.py:92-93 | once a key is mapped, find-or-create returns the same id and changes nothing, whatever a new create would return |
| Threads.ThreadStore.constructor | app.py:41 | the map starts empty with no create calls |
| Threads.ThreadStore.FindOrCreate | app.py:92-100 | the in-place update agrees with `Resolve`, counts one create exactly when the key was absent, and keeps the map no larger than the number of creates |
| Remote.Spelled | app.py:70-189 | every text the relay writes itself opens with "Sorry, "; the OpenAI-error apology ends with the exception's detail; an answer or a run's details are sent unchanged |
| Relay.Render | app.py:152-155 | an outcome is one `chat_update` of the placeholder when a ts was captured, else one `say` in the thread, carrying the outcome's text; a Slack error renders nothing |
| Relay.Escapes | app.py:66-195 | only an exception of the reply call itself can leave `process_with_assistant`; a failing reply of the OpenAI-error or timeout clause always escapes; the not-configured and unexpected-error replies swallow exactly a SlackApiError; the SlackApiError clause makes no reply and lets nothing escape |
| Relay.Conclude | app.py:131-171 | completed makes exactly one `messages.list` call (every other status makes none) and answers with `Assemble` of the list for this run, or raises the list call's exception; requires_action gives the fixed apology; every other status gives `RunEnded(EndedText(run))`; no other call is made |
| Relay.RunSession | app.py:90-171 | the try block, up to its final reply (including the status handling through `Conclude`), makes no Slack reply, and leaves the map as find-or-create does |
| Relay.Finish | app.py:152-195 | at most two replies, each addressed to the placeholder or the thread; an accepted first reply is the only one, shows the try block's outcome, and nothing escapes; an exception of the try block decides the outcome through its except clause, which replies once and lets that reply's exception escape as `Escapes` says; a SlackApiError of the try block means no reply and nothing escaping; a first reply that raises is followed by the except clause's reply for that exception, whose own exception escapes as `Escapes` says; a SlackApiError of the first reply means no second reply; a second is tried only after the first raised a non-Slack error; the last reply shows the final outcome |
| Relay.ExceptClauses | app.py:152-195 | an exception of the try block is answered once, by the reply of its own except clause, whose exception escapes as `Escapes` says; an exception of the first reply is answered after it by the clause for that exception, whose reply's exception escapes as `Escapes` says |
| Relay.Attempt | app.py:90-171 | the try block, step by step on the shared map, makes the calls and leaves the result and map that `RunSession` describes |
| Relay.Caught | app.py:174-195 | each exception kind lands in its own except clause, and exactly a SlackApiError leaves the user without a reply text |
| Relay.PlaceholderTs | app.py:76-84 | the placeholder's ts is captured when the post came back `ok`; otherwise (a failed or raising post) it is the falsy empty ts |
| Relay.Expected | app.py:64-195 | a configured request posts the placeholder first; the final map is the one find-or-create leaves (unchanged when not configured); only an exception of a reply call escapes |
| Relay.Process | app.py:64-195 | `process_with_assistant`, step by step, makes exactly the calls, map update, outcome and escaping exception that `Expected` describes, with one create call exactly when a configured request meets an unmapped Slack thread |
| Relay.SessionStopsAtFailure | app.py:90-127 | the try block stops at its first exception, which is its result: a failing create is its only call, a failing `messages.create` is followed by no `runs.create`, a failing `runs.create` by no polling, and a failing retrieve ends the block with that retrieve's exception |
| Relay.SessionForwardsPrompt | app.py:92-115 | once the OpenAI thread is found or made and `messages.create` succeeds, the try block's calls open with any create call, then the prompt added to that thread, then `runs.create` on that same thread |
| Relay.SlackErrorInSession | app.py:90-186 | a SlackApiError raised in the try block leaves the request with no reply, the SlackFailure outcome and nothing escaping |
| Relay.SlackErrorOnReply | app.py:152-186 | a SlackApiError raised by the first reply is followed by no other reply, and nothing escapes |
| Relay.SingleReply | app.py:66-195 | every reply of a request goes to the placeholder (when captured) or to the thread, never a mix; there are at most two; an accepted first reply is the only one and shows the outcome; the last reply always shows the final outcome |
| Relay.SessionCancels | app.py:119-124 | the try block cancels once exactly when polling timed out; it then raises TimeoutError, or the cancel's own exception |
| Relay.SessionCancelCount | app.py:119-127 | the try block makes one cancel call after a timeout and none otherwise |
| Relay.CancelOnlyOnTimeout | app.py:121-124 | a whole request cancels its run once if polling timed out and never otherwise |
| Relay.TimeoutReported | app.py:179-183 | after a timeout and a successful cancel the outcome is the "took too long" reply; a failing cancel's exception decides it instead |
| Relay.MappingOutlivesFailures | app.py:95-100 | the new mapping is stored as soon as create succeeds, whatever fails later; existing entries never change |
| Relay.ExistingThreadReused | app.py:92-108 | a mapped Slack thread makes no create call, and the prompt goes to its stored OpenAI thread right after the placeholder |
| Relay.SessionReusesThread | app.py:92-108 | the try block for a mapped Slack thread starts by adding the prompt to the stored thread and never creates one |
| Relay.NotConfiguredSaysOnce | app.py:66-73 | without a client or assistant id: exactly one `say` of the configuration apology, no placeholder, no OpenAI call, map unchanged |
| Relay.CompletedRunAnswered | app.py:131-155 | when `messages.list` and the reply succeed, a completed run is answered with the assembled text in exactly one reply, an edit of the placeholder when there is one |
| Relay.SettledRunReported | app.py:131-171 | the outcome of a settled run: completed gives the assembled text (or the list call's exception), requires_action gives the apology, any other status gives the last error or the id and status |
| Router.OnMention | app.py:200-226 | a handed-on mention has a known bot id and its prompt is the non-empty cleaned text |
| Router.OnMessage | app.py:229-277 | a handed-on message carries the raw non-empty text as its prompt, from a truthy user, without a bot id |
| Router.MentionAdmission | app.py:200-221 | a mention is handed on exactly when the bot id is known and the cleaned text is non-empty; the prompt is that cleaned, stripped text; the thread key is `thread_ts`, else `ts` |
| Router.BareMentionDropped | app.py:214-218 | a mention with nothing but whitespace around it is dropped |
| Router.MentionHello | app.py:207-221 | "<@BOT> hello" is handed on as "hello" |
| Router.MentionTestsAgree | app.py:249 | the message handler's mention test on the stripped text agrees with the mention pattern after leading whitespace |
| Router.NoDoubleHandling | app.py:248-251 | for a known bot, a message opening with its mention is left to the mention handler; a message the message handler keeps would not have a mention removed |
| Router.OwnMessagesIgnored | app.py:243-246 | messages from the bot user, or carrying a bot id, are never handed on |
| Router.MessageAdmitted | app.py:230-271 | a handed-on message passed every filter: the subtype is none or thread_broadcast; the user is truthy and not the bot; there is no bot id; it does not open with the mention; the channel type is supported; the text is non-empty and forwarded unstripped |
| Router.PlainMessageForwarded | app.py:230-271 | conversely, a message meeting every filter is handed on with its raw text and thread key |
| Router.EditsIgnored | app.py:238-241 | a `message_changed` event is dropped |
| Router.UnknownBot | app.py:203-244 | with no bot id, every mention is dropped, and so is every message without a user (the two missing values compare equal) |
| Scenario.HelloPolls | app.py:119-128 | queued, then in_progress, then completed: two retrieves, no cancel |
| Scenario.HelloAssembled | app.py:137-148 | one assistant message "hi there" assembles to "hi there" |
| Scenario.HelloSession | app.py:90-155 | the try block of the example creates and maps one thread and answers "hi there" |
| Scenario.HelloProcessed | app.py:64-155 | the example request posts the placeholder, runs the try block, and updates the placeholder with "hi there" |
| Scenario.HelloEndToEnd | app.py:200-221 | "<@BOT> hello" in a new thread ends with the placeholder updated to "hi there" |

## Left out

- Slack and OpenAI client calls are oracles: each call's answer, or the exception it raises, is an input. Their content is not modelled beyond what the relay reads. The placeholder's text, `role="user"` and the assistant id passed to `runs.create` are not recorded in the calls.
- Exception messages are opaque details. The OpenAI-error reply is the fixed prefix followed by the exception's detail.
- Wall-clock time and `time.sleep` are the abstract `elapsed` oracle. The only assumption is that after k sleeps at least k × `POLLING_INTERVAL_S` seconds have passed.
- `runs.retrieve` is assumed to return the same run id. Only the status and last error of a retrieved run are modelled.
- Environment loading, logging, the OpenAI client set-up, `get_bot_user_id` and the start-up block are configuration and I/O. The model takes the bot id and a configured flag as inputs.
- Concurrency between event handlers is not modelled: the code has no lock, and the model has a single sequential caller.
- Regular expressions in general are not modelled. The bot id is assumed to hold no metacharacters, so the pattern is a literal prefix after whitespace. Whitespace is the six ASCII whitespace characters, not all of Unicode's.
- Only the first page of `messages.list` is read by the code, and the model takes that page as given.
- `user_id` is a parameter of `process_with_assistant` that its body never uses, so it is not part of `Request`. `channel` and `ts` are taken as present strings. A placeholder reply that is `ok` but lacks a ts is modelled as the empty (falsy) ts.
- Assembly.Assemble: the stripped-result guarantee is stated only when some message passes the filter. The fallback is a fixed literal and is not shown to be stripped.
