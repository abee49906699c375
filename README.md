# FollowUpAutomation in Dafny

A Dafny model of the Telegram follow-up pipeline of FollowUpAutomation, with proofs about that model. The pipeline:

- normalises a partner's Telegram identifier (web-client URL, `t.me` link, numeric id or `@handle`);
- looks for our last outgoing message in the chat;
- refuses to send when that message is younger than a minimum interval;
- runs batches of partners through the send, counting outcomes;
- records follow-up dates in the partner repository.

Besides the pipeline, the model covers:

- the command-line `send` command: dispatch, confirmation, send, then mark every contact;
- the whitespace word utilities;
- the browser framework's singleton cache and debugger address.

Python semantics are modelled explicitly where the code relies on them. These are:

- `str.strip()` and `split()` with CPython's whitespace set;
- `str.replace` as a leftmost, non-overlapping scan;
- `lstrip('@')` and `split('?')[0]`;
- `int()` on ASCII digits, including its sign and underscore rules, and the `ValueError` it raises;
- slicing with negative bounds;
- `str(None) == "None"`.

Exceptions that escape a function are `Err` results. Time is whole seconds since the epoch, in UTC. A date is a day number.

The Telegram side is always an input: whether `connect` succeeds, the chat history, the clock and whether each send goes through. The same holds for the repository, the console answer and the configuration constants.

Modules, one concept each:

| file | module | models |
|---|---|---|
| wrappers.dfy | `Wrappers` | `Option`, `Result` |
| pystr.dfy | `PyStr` | the `str` builtins the code uses |
| partners.dfy | `Partners` | the partner row, `{name}` template rendering |
| data_util.dfy | `DataUtil` | `count_words`, `get_first_n_words` |
| telegram_identifier.dfy | `TelegramIdentifier` | `parse_telegram_identifier` |
| telegram_bot.dfy | `TelegramBot` | history scan, send gate, two-counter batch, `send_messages` |
| auto.dfy | `Auto` | four-counter batch, follow-up date coercion, `Auto.main` |
| commands.dfy | `Commands` | `CommandFactory.create`, `SendMessagesCommand.execute` |
| browser.dfy | `Browser` | `Singleton`, `DriverWebSocket` address, `RunBrowser` browser check |

## Model

| member | source | states |
|---|---|---|
| DataUtil.CountWords | framework_inject/utils/data_util.py:22-26 | None counts 0; otherwise the count of `split()` words equals the number of maximal non-whitespace runs (`RunsFrom`: positions holding a non-space that starts the text or follows a space) |
| DataUtil.GetFirstNWords | framework_inject/utils/data_util.py:29-33 | None exactly for None; the joined result has no leading, trailing or doubled whitespace |
| DataUtil.CountOfFirstNWords | framework_inject/utils/data_util.py:29-33 | for n ≥ 0, counting the words of the first n words gives min(n, word count) |
| DataUtil.CountOfFirstNWordsNegative | framework_inject/utils/data_util.py:32-33 | for n < 0 (Python slice from the end), the count is max(word count + n, 0) |
| DataUtil.FirstNWordsContent | framework_inject/utils/data_util.py:29-33 | for n ≥ 0, re-splitting the result gives exactly the first min(n, word count) words of the text, in order |
| DataUtil.FirstNWordsKeepsAllWords | framework_inject/utils/data_util.py:32-33 | taking at least as many words as there are keeps every word: re-splitting gives the original word list |
| PyStr.SplitOfJoin | framework_inject/utils/data_util.py:32-33 | splitting words joined by single spaces gives the words back |
| PyStr.StripLeadingShape | telegram/telegram_bot.py:26 | removing leading whitespace leaves a suffix of the text that is empty or starts with a non-space, and every removed character is whitespace |
| PyStr.StripTrailingShape | telegram/telegram_bot.py:26 | removing trailing whitespace leaves a prefix of the text that is empty or ends with a non-space, and every removed character is whitespace |
| PyStr.StripEnds | telegram/telegram_bot.py:26 | a stripped text is empty or starts and ends with a non-whitespace character |
| PyStr.StripIdempotent | telegram/telegram_bot.py:26 | stripping twice is stripping once |
| PyStr.Split | framework_inject/utils/data_util.py:25 | every word `split()` returns is a non-empty run of non-whitespace characters |
| PyStr.SplitOfSpaces | framework_inject/utils/data_util.py:25 | whitespace alone splits into no words |
| PyStr.SplitOfWord | framework_inject/utils/data_util.py:25 | a non-empty run of non-whitespace splits into itself |
| PyStr.SplitConcat | framework_inject/utils/data_util.py:25 | two texts that meet at whitespace split into the words of the first followed by the words of the second |
| PyStr.LowerIsLowerCase | commands/commands.py:100 | `lower()` leaves no upper-case ASCII letter: each one becomes its lower-case letter, every other character is kept, and lowering twice is lowering once |
| PyStr.IntLiteralOfIntToString | telegram/telegram_bot.py:41 | `int(str(n)) == n` for every integer, negative ones included |
| Partners.RenderFillsEveryPlaceholder | telegram/telegram_bot.py:132 | a template of literal parts (literal parts without `{`) around `{name}` renders with every placeholder replaced by the name |
| Partners.RenderWithoutPlaceholder | telegram/telegram_bot.py:132 | a template without `{` is sent unchanged |
| TelegramIdentifier.ParseTelegramIdentifier | telegram/telegram_bot.py:25-43 | with digits read as ASCII digits, only an identifier whose stripped text starts with `-` can raise, and the error is `int()`'s ValueError; a username never starts with `@` |
| TelegramIdentifier.ParseRaises | telegram/telegram_bot.py:25-43 | the parse raises exactly when the stripped text starts with `-` and what follows the sign is not digit groups (ASCII digits with single underscores between them) |
| TelegramIdentifier.RulesFrom | telegram/telegram_bot.py:26-43 | the rules in the code's order, from a given one on (strip, web-client URL, `t.me` link, number, handle): only a text starting with `-` can raise, and the error is `int()`'s ValueError; a username never starts with `@` |
| TelegramIdentifier.ParseNumericId | telegram/telegram_bot.py:40-41 | `str(n)` parses to chat id n, negative or not |
| TelegramIdentifier.ParseDigits | telegram/telegram_bot.py:40-41 | a text of ASCII digits parses to the chat id with that decimal value |
| TelegramIdentifier.ParseNegative | telegram/telegram_bot.py:40-41 | `-` followed by w (not ending in whitespace) raises exactly when w is not digit groups, and otherwise parses to minus the value of w's digits |
| TelegramIdentifier.ParseWebClientUrl | telegram/telegram_bot.py:28-31 | a web-client URL whose first `#` follows a `#`-free path and is followed by `str(n)` yields n, signed or not, whatever comes after the number as long as it does not continue the digits and does not end in whitespace (trailing whitespace is stripped first, which gives the same URL with a shorter tail) |
| TelegramIdentifier.ParseWebClientUrlWithoutId | telegram/telegram_bot.py:28-43 | a web-client URL in which `#(-?\d+)` finds no match (no `#`, or none followed by an optionally signed digit, as in `…/#abc` or `…/#-x`) and which does not end in whitespace falls through every rule and is returned whole as a username |
| TelegramIdentifier.ParseTmeLink | telegram/telegram_bot.py:33-38 | `t.me/` and `https://t.me/` links, with or without `@` and with or without a `?query`, yield the bare handle |
| TelegramIdentifier.ParseHandle | telegram/telegram_bot.py:43 | `@handle` yields the handle; a bare handle that is not all digits yields itself |
| TelegramBot.FirstOutgoingDate | telegram/telegram_bot.py:201-205 | None iff no message is outgoing; otherwise the date of the first outgoing message |
| TelegramBot.FirstOutgoingUnique | telegram/telegram_bot.py:201-203 | the scan returns the date of whichever message is the first outgoing one |
| TelegramBot.LastOutgoing | telegram/telegram_bot.py:190-208 | raises exactly when connected and the identifier is malformed; None when not connected or the fetch fails; a date only from the first outgoing message among the newest 50; None means none of the newest 50 is outgoing |
| TelegramBot.GetLastOutgoingMessageTime | telegram/telegram_bot.py:190-208 | the scan with early return computes `LastOutgoing` |
| TelegramBot.HistoryTimeAt | telegram/telegram_bot.py:199-205 | when message i of the newest 50 is outgoing and none before it is, the lookup yields message i's date |
| TelegramBot.GateDecision | telegram/telegram_bot.py:301-321 | after the lookup: `too_soon` exactly when there is a last time younger than `min_seconds`, with its record and no send; otherwise one send to the identifier with the text, `sent` being its outcome and `last_msg_time` the time after a successful send; `sent` iff the reason is `sent` |
| TelegramBot.SendWithTimeCheck | telegram/telegram_bot.py:294-321 | connect failure gives `connection_failed` with no lookup and no send; it raises only on a malformed identifier; `too_soon` carries the seconds since the last message, the minimum and the last time, and sends nothing; a send is issued exactly for `sent`/`send_failed`, to the parsed identifier with the given text; `sent` is the send outcome; `last_msg_time` is the local time after the send on success, else None |
| TelegramBot.GateTooSoon | telegram/telegram_bot.py:299-313 | a first outgoing message in the newest 50 that is younger than `min_seconds` yields exactly the `too_soon` record and no send |
| TelegramBot.GateTooSoonAt | telegram/telegram_bot.py:301-313 | connected, with a parsable identifier and a last outgoing time younger than `min_seconds`, the answer is exactly the `too_soon` record with no send |
| TelegramBot.GateSends | telegram/telegram_bot.py:315-321 | with no outgoing message, or one at least `min_seconds` old, exactly one send is issued and its outcome is reported |
| TelegramBot.GateBoundary | telegram/telegram_bot.py:305 | the comparison is strict: a message exactly `min_seconds` old lets the send through, one a second younger does not |
| TelegramBot.ResendIsTooSoon | telegram/telegram_bot.py:299-321 | after a successful send, a second gate call whose history starts with that message, within the interval, is `too_soon` and sends nothing |
| TelegramBot.SendMessageToPartners | telegram/telegram_bot.py:110-148 | no client gives `{0, 0}` and no sends; otherwise the loop computes `BatchRun`: counters, sends and sleeps, or the ValueError of an identifier that aborts the loop |
| TelegramBot.RaisedSticks | telegram/telegram_bot.py:123-142 | once the exception escapes, the later partners change nothing |
| TelegramBot.BatchAccounting | telegram/telegram_bot.py:123-142 | `success + failed == len(partners)`; one send per tagged partner; the successes are the tagged partners whose send goes through; a sleep per send exactly when `delay_seconds > 0` |
| TelegramBot.BatchStepOutcomes | telegram/telegram_bot.py:124-142 | per partner: an untagged one counts failed with no send and no sleep; a tagged one is sent the template with its name (default `Unknown`) filled in and counts by outcome; a malformed tag raises |
| TelegramBot.UntaggedBatch | telegram/telegram_bot.py:127-130 | a batch of untagged partners fails each of them and sends nothing |
| TelegramBot.SendMessages | telegram/telegram_bot.py:213-235 | a failed connect reports `{success: 0, failed: len(partners)}` and sends nothing; otherwise it is the connected batch |
| Auto.FollowupDate | auto.py:21-30 | None for None; a datetime becomes its UTC day (the day containing that second); a date passes unchanged |
| Auto.FollowupDateIdempotent | auto.py:23-27 | coercing an already coerced date changes nothing |
| Auto.SendMessagesToFilteredPartners | auto.py:52-94 | the loop over the filtered partners computes `AutoRun`: counters, gate calls, follow-up updates and sleeps, or the exception that aborts the loop |
| Auto.Visit | auto.py:59-92 | one pass of the loop body computes `AutoStep` on the gate's answer for that partner |
| Auto.AutoRaisedSticks | auto.py:59-92 | once an exception escapes the gate, the later partners change nothing |
| Auto.AutoAccounting | auto.py:52-94 | whatever the gate answers, the loop ends `Accounted`: one follow-up update per `sent`; unless an exception ends the loop, the four counters sum to the number of partners, the unlinked partners are exactly the `skipped_no_telegram` ones and cost no gate call, and there is a sleep per gate call exactly when the delay is positive |
| Auto.AutoStepAccounting | auto.py:59-92 | one partner, whatever the gate answers, keeps `Accounted`, counting that partner and its link |
| Auto.AutoStepOutcomes | auto.py:59-92 | per partner: no link means only `skipped_no_telegram`; otherwise one gate call with the rendered message (or `Hello <name>!`); `sent` counts and records the date of `last_msg_time`; `too_soon` only counts `skipped_too_soon`; other results only count `failed`; a gate exception aborts |
| Auto.SecondRunSkipsAll | auto.py:52-94 | running twice: if the first run sends to every linked partner, a second run within the interval issues the same gate calls, sends nothing, skips every linked partner as `too_soon` and records no follow-up |
| Auto.ResendAnswer | auto.py:63-85 | a linked partner let through on the first channel is refused as `too_soon` on a second channel whose history starts with that send, within the interval |
| Auto.SentThenTooSoon | auto.py:52-94 | whatever the answers, if they let every linked partner through the first time and refuse each as `too_soon` the second time, the first run sends one per linked partner and the second sends nothing, skips each as `too_soon` and records no follow-up, with the same gate calls |
| Auto.AutoAsWrittenStopsAtFirstSent | auto.py:76-82 | with the update call as written (it raises TypeError), the loop records no follow-up; it agrees with the intended loop until the first sent message and then ends in the TypeError, after one sent message and a prefix of the intended gate calls |
| Auto.MessageSingleUser | auto.py:112-140 | the preview and the gate raise exactly when one of them connects and the identifier is malformed; otherwise the result is the gate's |
| Auto.ProcessTelegramEntry | auto.py:156-165 | always records a follow-up for the partner: no date (today) when sent, the date of the previous message when too soon, no date on failure |
| Auto.SelectedPartners | auto.py:150-152 | every partner kept has a link other than `""` |
| Auto.SelectedPartnersMembers | auto.py:150-152 | a partner is kept exactly when it is in the list and its link is not `""` |
| Auto.SelectedPartnersConcat | auto.py:150-152 | the kept partners keep the list's order: keeping from two lists in turn is keeping from their concatenation |
| Auto.MainAccounting | auto.py:148-154 | `main` processes exactly the partners whose link is not `""`, in order, with one follow-up per processed partner, for that partner |
| Auto.MainAsWrittenStopsAtFirstEntry | auto.py:156-165 | with the update call as written, `main` finishes no entry and records no follow-up; it raises exactly when some partner's link is not `""`, and when the intended run raises nothing the exception is the update's TypeError |
| Auto.Auto.constructor | auto.py:143-146 | `tg` starts at 0 and the interval is the configured month |
| Auto.Auto.RunMain | auto.py:148-154 | `tg` grows by the number of entries processed; the updates are `MainRun`'s |
| Auto.MainRaisedSticks | auto.py:148-154 | once an exception escapes an entry, the later partners change nothing |
| Commands.Create | commands/commands.py:112-128 | the lookup in the `commands` table: `list`, `list-telegram` and `send` give their commands and nothing else gives one; `send` carries `message`, `tag` and `delay` (default 2) |
| Commands.ConfirmAnswers | commands/commands.py:99-100 | exactly the ten capitalisations of `yes` and `y` confirm |
| Commands.UpdateContacts | commands/commands.py:107-109 | one update per partner id, in order |
| Commands.Execute | commands/commands.py:60-92 | the partners are the by-tag rows for a truthy tag and otherwise every row with a Telegram tag; no partners: nothing sent or updated; declined: nothing sent or updated; connect failure: everyone failed, then every id updated; an escaping exception exits with nothing updated; otherwise the batch's counters, then every id updated in order regardless of outcomes |
| Browser.Singleton.Call | framework_inject/browser.py:190-193 | a stored instance is returned without constructing; otherwise the constructor runs and its instance is stored and returned; a raising constructor stores nothing |
| Browser.Singleton.Clear | framework_inject/browser.py:195-197 | removes this class's entry only; absent classes are a no-op |
| Browser.CallTwice | framework_inject/browser.py:190-193 | two calls construct once and both return the first instance |
| Browser.ClearThenCall | framework_inject/browser.py:190-197 | after `clear` the next call constructs afresh, and another class's instance survives |
| Browser.DebuggerAddress | framework_inject/browser.py:27-33 | `host:` prefix and `/json/version` suffix |
| Browser.DebuggerAddressPort | framework_inject/browser.py:28-33 | the text between the colon and the path reads back as the port, the default one when none is given |
| Browser.DebuggerAddressInjective | framework_inject/browser.py:28-33 | different effective ports give different addresses |
| Browser.DriverWebSocket.constructor | framework_inject/browser.py:27-33 | the stored `debugger_address` is the formatted address |
| Browser.BrowserIndex | framework_inject/browser.py:231-235 | raises `No Such Browser` exactly when the setting is unset or not listed; otherwise the first index of the setting |

## Left out

- Telethon I/O (`connect`, sign-in and 2FA prompts, `disconnect`, `get_entity`, `send_message`, `asyncio.run`): the channel is an input (`TelegramBot.Channel`), and only the decisions are modelled.
- Clock and floats: `datetime.now` and `total_seconds()` become integer seconds given as inputs (`checkedAt`, `sentAt`). Sleeps are counted, not performed.
- `PartnerFilter`: `database/__init__.py` does not export it and no module shown here defines it, so it is not part of this model. Batches take the already filtered partner list.
- Database layer and SQL: the repository is a query-to-rows function in `Commands.Execute`. Updates are recorded as `(id, date?)` calls. A database error returning `[]` or `False` is not modelled.
- `update_last_contacted` signature mismatch: `update_last_contacted` in database/database.py:77 takes only the partner id, but auto.py:30 passes `set_date=`. As written, every `update_partner_followup_date` call raises TypeError after the message has gone out (see Findings). The batch and `main` members below describe the intended call, an update that receives the date; `AutoAsWrittenStopsAtFirstSent` and `MainAsWrittenStopsAtFirstEntry` state what the code as written does.
- Auto.SendMessagesToFilteredPartners: describes the intended update call; as written, the TypeError of the update aborts the loop at its first `sent` result.
- Auto.Visit: describes the intended update call; as written, a `sent` result raises TypeError from the update.
- Auto.AutoStepOutcomes: describes the intended update call; as written, the `sent` branch raises TypeError instead of recording the follow-up.
- Auto.AutoAccounting: describes the intended update call; as written, no follow-up is recorded and the loop stops at its first `sent` result, so the accounting holds for runs without one.
- Auto.SecondRunSkipsAll: describes the intended update call; as written, the first run stops with TypeError at its first sent message.
- Auto.SentThenTooSoon: describes the intended update call; as written, the first run stops with TypeError at its first sent message.
- Auto.ProcessTelegramEntry: describes the intended update call; as written, both of its branches raise TypeError from the update.
- Auto.MainAccounting: describes the intended update call; as written, `main` stops with TypeError at its first selected partner.
- Auto.Auto.RunMain: describes the intended update call; as written, `main` stops with TypeError at its first selected partner and `tg` stays unchanged.
- `config/constants.py` and `framework_inject/constants.py` are not part of this model. `DEFAULT_MESSAGE_TEMPLATE`, `MONTH`, `BROWSERS` and `DEFAULT_BROWSER_DEBUGGER_PORT` are parameters.
- Console output and logging: `print`, `logger`, `_display_results`, `PartnerPrinter`, and the listing commands `PartnerListCommand` and `PartnerListTelegramCommand`.
- `input()` raising (EOF, Ctrl-C) and `sys.exit`: `Commands.Execute` returns `Exited` where the code exits with status 1.
- `send_to_high_priority_needing_followup` (auto.py:96-110): it only calls the filtered batch with a fixed template and delay 3, and the filter it relies on is not modelled.
- `check_user_exists`, `get_chat_messages`, `send_single_message` and their `asyncio.run` bridges: Telethon I/O only. In `MessageSingleUser`, the message preview matters only through its connect and its exception.
- `DataUtil.generate_uuid` (randomness), `DataUtil.parse_number` (floats) and `check_for_required_fields` (environment and `exit`); time_util, json_util and http_service are library wrappers and clock calls.
- `_confirm_sending` prints every partner as `partner['name']` and `partner['telegram_tag']`. A row missing either key raises `KeyError`, which `execute` turns into exit status 1. The model assumes both keys are present.
- Browser and page automation, meaning everything in framework_inject/browser.py beyond the three modelled pieces.
- PyStr.IsDigit: `isdigit()`, `\d` and `int()` accept only ASCII digits here. In Python, `isdigit()` is also true for other Unicode digits, including ones that are not decimal such as `²`, for which `int()` raises ValueError; `int()` and `\d` also accept other Unicode decimal digits such as `٣`. So the code raises on `"²"` and parses `"٣"` to 3, while the model returns the usernames `²` and `٣`.
- PyStr.IntLiteral: recent Python versions refuse to convert a decimal text of more than 4300 digits (the default of `sys.set_int_max_str_digits`) and raise ValueError; the model has no such limit.
- PyStr.IntLiteralOfIntToString: holds without the 4300-digit limit of Python's int and str conversion.
- TelegramIdentifier.ParseNumericId: holds without the 4300-digit limit; in Python, ids of more than 4300 digits raise.
- TelegramIdentifier.ParseDigits: holds without the 4300-digit limit.
- TelegramIdentifier.ParseNegative: holds without the 4300-digit limit.
- TelegramIdentifier.ParseRaises: holds without the 4300-digit limit; in Python, digit groups of more than 4300 digits after the sign also raise.
- TelegramIdentifier.ParseWebClientUrl: holds without the 4300-digit limit.
- PyStr.Lower: lowercases ASCII letters only. For `_confirm_sending` this is exact: no other character lowercases to `y`, `e` or `s`.
- Partners.NameOf: a `name` key that holds None is not modelled. A missing name is `Unknown`. In the code, a present None name would make `replace` raise `TypeError`.
- Browser.DebuggerAddress: the port is modelled as an integer. Other Python values formatted into the address are not modelled.
- Auto.FollowupDate: only the values the code passes are modelled, and those are None, UTC datetimes or dates.

## Findings

| source | as written | input that shows it | evidently intended | confidence | as-written member | corrected member |
|---|---|---|---|---|---|---|
| auto.py:30 | `update_partner_followup_date` calls `update_last_contacted(partner_id, set_date=...)`, whose only parameter is the id (database/database.py:77), so it always raises TypeError; `send_messages_to_filtered_partners` aborts at its first `sent` result (auto.py:76-82) with no follow-up recorded | one filtered partner with a link whose send goes through | the update records the follow-up date of the sent message, and the loop goes on | not executed | Auto.AutoAsWrittenStopsAtFirstSent | Auto.AutoAccounting |
| auto.py:30 | `process_telegram_entry` calls the same update in both branches (auto.py:160, 164), so `main` aborts at its first partner whose link is not `""`, before `tg` is counted | one partner with a link, whatever the send does | one follow-up per processed partner, and the loop goes on | not executed | Auto.MainAsWrittenStopsAtFirstEntry | Auto.MainAccounting |

## Where the code and its description differ

The model follows the code, except for the update call in the Findings above:

- `too_soon` in the auto batch records no follow-up date (auto.py:83-85). Only `sent` does.
- On success, `last_msg_time` is the local `datetime.now` (telegram/telegram_bot.py:320), not a time reported by Telegram.
- `parse_telegram_identifier` runs outside every `try` (telegram/telegram_bot.py:95, 195). A malformed `-…` identifier raises `ValueError` through the gate. Neither batch loop isolates it, so it aborts `send_message_to_partners`, `send_messages_to_filtered_partners` and `Auto.main`. In `SendMessagesCommand.execute` it ends in `sys.exit(1)` before any contact is updated.
- `Auto.main` processes every partner whose link is not `""` (auto.py:152). This includes a missing link, which is sent to the username `None`.
- `process_telegram_entry` records a follow-up even when nothing was sent (auto.py:162-165). After a failure it records no date, meaning today.
