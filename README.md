# SelenaZoo bot handlers in Dafny

This project models two handler files of a Telegram bot for the game Build a Zoo.

**The administrator's broadcast** (handlers/admin.py):
- The admin gate `is_admin`.
- The broadcast session. This is the FSM context the handlers are given: a state name plus the keys `broadcast_admin_id`, `broadcast_start_time`, `broadcast_message_id`, `broadcast_chat_id` and `broadcast_message_info`.
- The handlers that drive the session: the admin-panel button, `/broadcast`, `/cancel`, the message capture in `waiting_for_message`, and the confirm/cancel callback.
- The fan-out of a confirmed broadcast. Each attempt either succeeds or fails, failures are classified by their error text, and the report lists the first five failures plus a remainder count.
- The first-ten listing of `show_user_list`.

**The mutation calculator** (handlers/group_commands.py):
- `format_number`.
- The `!<digits>` command.
- `get_user_language`.
- The mutation keyboard and its `mut_{emoji}_{number}_{lang}` callback data, and the decoding of that data.
- The `calc_another_{lang}` button.
- The four-tier table of `calculate_mutations`.

Files and modules:
- `text.dfy` holds `Common` (an `Option` type) and `Text`. `Text` holds the Python string primitives the handlers rely on: `str(int)`, `int(str)`, `str.split`, the `in` substring test, and `replace(c, "")`.
- `format.dfy` holds `NumberFormat`.
- `boost.dfy` holds `Boost`, the tier arithmetic.
- `calculator.dfy` holds `Calculator`, the rest of group_commands.py.
- `admin.dfy` holds `Admin`. Its `Session` class holds the session fields, and its methods are the handlers.

How the model represents the outside world:
- The database's user list and stored user records are inputs.
- Telegram's `copy_message` is a function `deliver` given to the confirmation handler. It answers each attempt (numbered in list order) with success or an error text, so any sequence of per-attempt outcomes can be represented, correlated failures included.
- Whether a message could be sent is a boolean input.
- Percentages are exact, in hundredths of a percent (16.67% is 1667).

## Model

| member | source | states |
|---|---|---|
| Admin.IsAdmin | handlers/admin.py:19-23 | exactly the one configured id, 1835558263, is an administrator |
| Admin.CountSubscribed | handlers/admin.py:429 | counts the subscribed users; never more than the list length, and equal to it exactly when every user is subscribed |
| Admin.PreviewSource | handlers/admin.py:284-285 | `text or caption or ""`: the text when it is non-empty, otherwise the caption when it is non-empty; empty exactly when neither is |
| Admin.Preview | handlers/admin.py:285 | the preview is at most 103 characters; a body of at most 100 characters is kept as it is; a longer body keeps its first 100 characters followed by `...` |
| Admin.Info | handlers/admin.py:282-286 | the stored info keeps the content type; `has_text` holds exactly when text or caption is non-empty; the preview is that of `text or caption or ""` |
| Admin.Classify | handlers/admin.py:359-364 | tested in the source's order: blocked exactly when the error mentions `Forbidden` or `bot was blocked`; chat-not-found exactly when it is not blocked and mentions `chat not found`; otherwise the excerpt is the error's first min(30, length) characters |
| Admin.EntryNamesUser | handlers/admin.py:354-364 | every failure entry starts with `ID: `, and the token after it up to the first space parses back to the user's id; right after the id comes ` (@<username>)` when the user has a username, and otherwise directly the reason; the entry always ends with ` (<reason>)`, the reason its error text is classified as |
| Admin.EntriesNameUsers | handlers/admin.py:354-365 | each `failed_list` entry names its failed attempt's user by id and ends with the reason that attempt's error is classified as |
| Admin.AttemptsAccounted | handlers/admin.py:338-365 | every attempt is counted exactly once: successes plus failed attempts equal the number of attempts |
| Admin.FailedAttemptsExact | handlers/admin.py:338-365 | the failed attempts are exactly the users whose attempt failed, each with its own error text |
| Admin.FanOut | handlers/admin.py:334-365 | the copy loop attempts every user once in list order and never stops on a failure; the success count and failure list are those of the attempts' outcomes; `success + failed == total` and `failed == len(failed_list)` |
| Admin.ErrorLines | handlers/admin.py:375-381 | the report lists the first min(5, n) entries numbered from 1, in order; a remainder count exists exactly when there are more than 5, and it is n - 5; listed plus remainder equals n |
| Admin.NumberedLine | handlers/admin.py:377 | each report line begins with its 1-based position, which parses back up to the first `.` |
| Admin.LinkFor | handlers/admin.py:418-421 | a profile link by username exactly when the user has a non-empty username, otherwise a link by id |
| Admin.ListUsers | handlers/admin.py:402-430 | an empty base gives the "no users" answer; otherwise the first min(10, n) users as rows numbered from 1, in order, with link and status; a remainder exactly when n > 10, with shown plus remainder equal to n; the active count is the number of subscribed users |
| Admin.WaitingIsBroadcastState | handlers/admin.py:26-27 | the stored name of `waiting_for_message` contains `BroadcastStates`, so `/cancel` recognises it |
| Admin.Session.Clear | handlers/admin.py:248 | `state.clear()`: no state and none of the broadcast keys |
| Admin.Session.StartFromButton | handlers/admin.py:201-232 | a non-administrator is refused and nothing changes; an empty base is refused and nothing changes; otherwise the caller becomes the initiator, the start time is recorded, the session waits for the message, the other keys are kept, and the prompt carries the recipient and active counts |
| Admin.Session.StartFromCommand | handlers/admin.py:525-543 | a non-administrator is refused and nothing changes; otherwise, even with an empty base, the caller becomes the initiator and the session waits for the message; the start time and the other keys are kept |
| Admin.Session.Cancel | handlers/admin.py:234-251 | a non-administrator is refused; with no state nothing changes; a state whose name contains `BroadcastStates` is cleared; any other state is left untouched |
| Admin.Session.CaptureMessage | handlers/admin.py:253-302 | in `waiting_for_message`: a non-administrator, or anyone other than the recorded initiator, clears the whole session; the initiator's message id, chat id and info replace any earlier capture, and the state and initiator stay |
| Admin.Session.Confirm | handlers/admin.py:304-389 | a non-administrator is refused and nothing changes; `broadcast_cancel` clears the session whoever presses it; `broadcast_confirm` from anyone but the recorded initiator (also when none is recorded) sends nothing and changes nothing; a confirmed run reports the total, the success count and the failures of the fan-out of the captured message, with `success + failed == total`, and clears the session; the session invariant is kept throughout |
| Text.IntToStringRoundTrip | handlers/group_commands.py:212 | `int(str(n)) == n` for every integer, and the printed form is a sign or digit followed by digits |
| NumberFormat.GroupRemove | handlers/group_commands.py:19-21 | removing the spaces from a grouped digit string gives back the digits |
| NumberFormat.GroupSpaces | handlers/group_commands.py:19-21 | in a grouped digit string a character is a space exactly when it stands a multiple of four places from the end, so every group after the first has three digits and the first has one to three |
| NumberFormat.FormatNumberShape | handlers/group_commands.py:19-21 | for n >= 0, `format_number(n)` without its spaces is the decimal form of n, grouped in threes from the right |
| NumberFormat.FormatNumberShort | handlers/group_commands.py:19-21 | for n >= 0 the result has a space exactly when n >= 1000, and below 1000 it is the plain decimal form |
| NumberFormat.FormatNumberDigits | handlers/group_commands.py:19-21 | for every integer, negative ones included, removing the spaces gives `str(n)` |
| Boost.TierValueFloor | handlers/group_commands.py:252-256 | for n >= 0 the tier value is the floor of the exact value n + n·p/100 |
| Boost.TierValueMonotone | handlers/group_commands.py:252-256 | for n >= 0 a boost never lowers the number, and a larger boost never gives a smaller value |
| Calculator.MutationsIncreasing | handlers/group_commands.py:112-183 | every mutation has four positive, strictly increasing percentages |
| Calculator.MutationsDistinct | handlers/group_commands.py:112-183 | the ten emojis are distinct and none contains the callback separator `_` |
| Calculator.MutationCount | handlers/group_commands.py:112-183 | the table has ten entries |
| Calculator.Lookup | handlers/group_commands.py:238-241 | `emoji in MUTATIONS` holds exactly when some entry has that emoji, and then the entry found is that entry |
| Calculator.LookupEntry | handlers/group_commands.py:351-356 | looking up a table entry's own emoji finds that very entry |
| Calculator.UserLanguage | handlers/group_commands.py:194-199 | the result is always `ru` or `en`; it is `ru` exactly when the stored user exists and has language `RUS`, so a missing user gets `en` |
| Calculator.ParseExclamation | handlers/group_commands.py:266-279 | a command is recognised only for text starting with `!` followed by a digit |
| Calculator.ExclamationRoundTrip | handlers/group_commands.py:266-279 | `!` followed by the decimal form of n, with or without one final newline, yields n |
| Calculator.ExclamationRejects | handlers/group_commands.py:266-279 | text with any non-digit after the `!`, other than one final newline, is not a command |
| Calculator.ExclamationDigits | handlers/group_commands.py:266-279 | `!` followed by any non-empty digit string, leading zeros included, with or without one final newline, yields the digits' value |
| Calculator.MutationButtonsDecode | handlers/group_commands.py:207-214 | in a known language, the i-th button's data decodes back to the i-th table entry, the number and the language, and its label is the entry's emoji and its name in that language |
| Calculator.ArrangeInPairs | handlers/group_commands.py:203-223 | the append-then-reset loop puts items two per row in order, and keeps a final half row when the count is odd |
| Calculator.BuildKeyboard | handlers/group_commands.py:202-233 | five rows hold the ten mutation buttons two per row in table order; exactly one more row, the `calc_another` button, appears exactly in private chats |
| Calculator.ParseSelection | handlers/group_commands.py:341-356 | checks in the source's order: a data error exactly when there are not four `_`-separated parts; then a non-integer third part; then "not found" exactly when the emoji is not in the table; a selection carries the table entry of the second part, the third part's integer and the fourth part as language |
| Calculator.MutationDataParts | handlers/group_commands.py:212 | splitting a button's data on `_` gives exactly `mut`, the emoji, the number and the language |
| Calculator.SelectionRoundTrip | handlers/group_commands.py:341-356 | decoding the data of a table entry's button recovers that entry, the number and the language |
| Calculator.SelectionPartCount | handlers/group_commands.py:341-345 | data with other than three `_` separators is rejected as a data error, whatever it holds |
| Calculator.CalcAnotherRoundTrip | handlers/group_commands.py:387-398 | the `calc_another_{lang}` data decodes back to the language it was built with, and pressing the button prompts in that language |
| Calculator.HandleCalcAnother | handlers/group_commands.py:387-398 | a prompt always comes in a known language; data with other than two separators falls back to `ru`; with exactly three parts the prompt is in the third part's language when it is known, and `TEXTS[lang]` raises exactly when it is not |
| Calculator.WhiteTiers | handlers/group_commands.py:112-118 | the white circle's four tiers are exactly 2n, 3n, 4n and 5n, for every integer n |
| Calculator.TierValuesIncrease | handlers/group_commands.py:252-256 | for n >= 0 and increasing boosts, the first tier is at least n and the tiers never decrease |
| Calculator.CalculateMutations | handlers/group_commands.py:236-262 | an unknown emoji falls back to the white circle; the number is shown formatted; exactly four tiers follow in level order, each with its level name, its truncated value, the formatted value and the percentage; for n >= 0 they are at least n and non-decreasing |
| Calculator.HandleMutationSelection | handlers/group_commands.py:336-361 | a wrong part count is a data error; an unknown emoji is "not found"; a result is produced exactly for a well-formed selection in a known language, for that mutation and number, with the number's `format_number` header, the mutation's name in that language and every tier line as `calculate_mutations` computes it; a non-integer number or an unknown language raises |
| Calculator.HandleExclamation | handlers/group_commands.py:266-328 | text that is not `!<digits>` is ignored; otherwise the prompt carries the number and a language that is always `ru` outside private chats and the sender's language in them; when the prompt cannot be sent, the white-circle table is sent instead, with the number's `format_number` header, its name and every tier line in that language; when that cannot be sent either, nothing is sent |

## Left out

- Telegram message texts, HTML markup, keyboard objects, `callback.answer` alerts and logging are left out. Replies are datatypes that carry the values the messages show.
- `asyncio.sleep(0.05)` between copies is left out. Its delay is timing only; its other effect, letting other updates run between copies, is the interleaving described under `Admin.Session.Confirm` below.
- The database, `locale_manager` and `Config` are foreign code. User lists and stored records are inputs, so the model cannot state that a refused handler does not read the database. It states only that such a handler returns before changing the session.
- `show_stats`, the admin panel, help texts and the "in development" buttons are left out. So are the float percentages of `show_stats` and `show_user_list`.
- The session's keys set by other parts of the bot are left out, and so is the router's dispatch between handlers. The state filter of `process_broadcast_message` is its precondition, and the two confirmation buttons are a `Choice`.
- `waiting_for_confirmation` is declared but never set, so it is not modelled.
- Python's `int()` is modelled as an optional sign followed by ASCII digits. It also accepts surrounding whitespace, underscores between digits and non-ASCII digits; none of these can occur in data the keyboard builds. The `\d` of the `!` filter is likewise taken as ASCII digits.
- Floating-point rounding in `calculate_mutations` is left out. Tier values use the exact percentage, truncated toward zero as `int()` truncates.
- Telegram's 64-byte limit on callback data is not modelled. A prompt whose button data is too long fails to send, which `HandleExclamation` takes as its `promptSent` input being false.
- The float arithmetic of `calculate_mutations` raises `OverflowError` once the number is beyond the float range (about 309 digits); `handle_exclamation_command` then catches it and sends nothing. The model does not compute that threshold: `HandleExclamation`'s `fallbackSent` input being false stands for it as for a failed send. Callback data cannot carry such a number, so `HandleMutationSelection` is not affected.
- Calculator.BuildKeyboard: requires a known language in private chats, where `TEXTS[lang]` would raise otherwise. Its only caller passes `ru` or the result of `get_user_language`.
- Calculator.CalculateMutations: requires a known language, where `TEXTS[lang]` would raise otherwise. `HandleMutationSelection` models that raise as `Raised`.
- Calculator.HandleMutationSelection: a `Result` is what is computed and shown. How it is shown is left out: the source edits the keyboard message, sends the result as a new message when that edit fails, and shows only an error alert when that fails too (handlers/group_commands.py:364-382).
- Calculator.HandleExclamation: states the keyboard's row count, not its buttons. The buttons are stated by `BuildKeyboard`.
- Admin.Session.StartFromButton, Admin.Session.StartFromCommand, Admin.Session.CaptureMessage, Admin.Session.Confirm: the handlers' own replies (`answer`, `edit_text`) are taken to succeed. In the source several of them come before the state change that follows (handlers/admin.py:214 before 225-231, 534 before 542-543, 257 before 258, 266 before 267, 312 before 313, 331 before the copy loop, 387 before 388), so a failing reply ends the handler and leaves the session as it was; the model does not capture that case.
- Admin.Session.Confirm: every handler is taken as one atomic step. In the source the confirmation awaits `copy_message` and `asyncio.sleep` for each user (handlers/admin.py:341, 349), so other updates can run in between unless the dispatcher isolates events. A button start, a captured message or a `/broadcast` the admin makes during the run is then wiped by the final `state.clear()` (handlers/admin.py:388), and a `broadcast_cancel` pressed during the run clears the session while the loop keeps sending. The model cannot show either effect.
- Admin.Session.Confirm: states the report through the fan-out's specification functions, not the report's wording.
