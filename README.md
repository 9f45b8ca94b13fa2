# Channel-admin bot: verified model

This project models the core of a Telegram bot that administers one channel. It has two parts:

- **The admin panel** (`admin.py`): a per-user wizard. Its flows are channel linking, the `/start` text, the welcome content, the goodbye content, promoting an admin, and a three-step post composer with "back". There is also an auto-approve toggle and a post-confirmation button. Each step either rejects its input and stays put, or writes a fixed set of columns of the single `settings` row (or the `users` table) and clears or advances the user's session.
- **The membership reactors** (`main.py`): the `/start` reply, and the reactions to a member joining, a member leaving, and a join request. Each one reads the settings row and picks at most one outbound call.

Files:

- `strings.dfy` (module `Strings`): the Python string behaviour the bot relies on. This is `startswith`, `isdigit` on ASCII digits, `int()` of a digit string with its decimal rendering, and `str.replace` of the `{user}` placeholder.
- `records.dfy` (module `Records`): the settings row (the columns the handlers use, each nullable one as an `Option`), the `users` table as `map<int, bool>`, incoming messages (`Text(s)` or `Photo(fileId, caption)`), outbound actions, and Python truthiness of nullable columns.
- `validators.dfy` (module `Validators`): the channel-id, admin-id and URL checks, and the split of a message into (text, photo).
- `reactors.dfy` (module `Reactors`): the handlers of `main.py`, as pure functions from (users, settings, event) to an action.
- `admin.dfy` (module `Admin`): class `AdminPanel`, with fields `settings: Option<Settings>`, `users` and `sessions: map<int, Session>`. Each handler is a method. A session is a step tag plus the FSM data dictionary. `Valid()` states which draft keys the later composer steps may read. The file ends with lemmas about what stored content means for the reactors, and scenario methods that chain several handlers.

Modelling conventions:

- `UPDATE settings ... WHERE rowid = 1` does nothing when there is no row.
- `state.set_state` keeps the data dictionary; `state.clear()` empties it.
- A handler that would raise (for example `message.text.startswith` on a photo, which has no text) changes nothing.
- Outbound calls are returned as `Action` values. A failed delivery changes no state.
- A Python integer bound to an SQLite statement must lie in the 64-bit INTEGER range (`FitsInteger`); outside it the bind raises before the statement runs.
- The database connection is in autocommit mode (connection.py:11), so a statement that succeeded stays written when a later one in the same handler fails.

In these points the model follows the code:

- The entry handlers ("Настроить канал", "Добавить админа", "Создать пост" and the others) do not check the admin flag. Only the main-menu reply and the auto-approve toggle do.
- `"55"` is accepted as an admin id, because it is all digits.
- No handler creates the settings row. Every settings write is therefore a no-op until the row exists, and the toggle then reports a new status (`1 - 0`) that it never stored.
- Back navigation keeps the whole draft. It does not discard the button text.

## Model

| member | source | states |
|---|---|---|
| Strings.DecimalRoundTrip | admin.py:110 | `int()` of a digit string with no leading zero renders back to that exact string |
| Strings.SubstituteWithoutPlaceholder | main.py:84 | a template that does not contain `{user}` is returned unchanged by the substitution |
| Strings.SubstituteFirstOccurrence | main.py:148 | `a + "{user}" + b`, with no placeholder in `a`, becomes `a + name + (b with its placeholders replaced)`; with the lemma above, every occurrence is replaced left to right |
| Strings.SubstituteGreetsAnn | main.py:84 | "Hi {user}!" with the name "Ann" gives "Hi Ann!" |
| Strings.SubstituteUser | main.py:84 | Python's `replace` of `{user}`: scans left to right and replaces each non-overlapping occurrence by the name (its meaning is pinned down by the three lemmas above) |
| Validators.BarePrefixIsChannelId | admin.py:107 | "-100" by itself is accepted as a channel id and parses to -100 |
| Validators.IsChannelIdText | admin.py:107 | `startswith("-100") and text[1:].isdigit()` holds iff the text is "-100" followed by nothing but ASCII digits (possibly none) |
| Validators.ParseChannelId | admin.py:110 | `int(text)` of an accepted channel id is a number of at most -100 |
| Validators.ChannelIdRoundTrip | admin.py:107-110 | the decimal rendering of an accepted channel id's number, after a "-", is exactly the text sent |
| Validators.ChannelIdTextsInjective | admin.py:107-110 | two accepted channel-id texts that give the same stored id are the same text |
| Validators.AdminIdLeadingZeros | admin.py:274-279 | leading zeros are accepted and ignored: "0" + an accepted id is accepted and names the same user |
| Validators.IsAdminIdText | admin.py:274 | `text.isdigit()`: a non-empty text of ASCII digits only |
| Validators.ParseAdminId | admin.py:279 | `int(text)` of an all-digit text, leading zeros allowed |
| Validators.AdminIdRoundTrip | admin.py:274-279 | an admin id with no leading zero is stored as the number it spells |
| Validators.IsButtonUrl | admin.py:485 | the link starts with "http://" or "https://" |
| Validators.SplitContent | admin.py:221-222 | a photo message gives (its caption, its file id) and a text message (its text, no photo); the goodbye and post steps split the same way (admin.py:397-398, admin.py:461-462) |
| Reactors.StartCommand | main.py:29-59 | `/start` replies to the chat with the admin-panel greeting for admins; otherwise with the default greeting when there is no row, the stored start message when there is one, and the error reply when that message is NULL; the users table is only read |
| Reactors.Render | main.py:84 | `(template or "").replace("{user}", name)` is "" for a NULL or empty template and the template itself when it has no placeholder |
| Reactors.OnUserJoin | main.py:61-93 | a welcome is sent iff the member went from LEFT or KICKED to MEMBER (the filter at main.py:61), the chat is the linked channel, and a photo is set or the substituted text is non-empty; it goes to the joining user, as a photo with the substituted caption when a photo is set, else as text |
| Reactors.OnUserJoinManual | main.py:119-126 | the second join handler never sends anything |
| Reactors.OnJoinRequest | main.py:96-117 | a join request is approved iff there is a row, auto-approve is non-zero and the request's chat is the linked channel; the approval targets (request chat, requester) |
| Reactors.OnUserLeave | main.py:129-162 | a goodbye is sent iff the member went from MEMBER to LEFT or KICKED (the filter at main.py:129), the chat is the linked channel, and a photo is set or the substituted text is non-empty; it goes to the member who left, photo first, else text, and never when neither goodbye column is truthy |
| Reactors.LeaveMirrorsJoin | main.py:129-156 | for a leave event the leave reactor makes exactly the join reactor's photo/text choice on the goodbye content, for the same member rejoining; its "nothing configured" guard never changes the outcome; for any other event it sends nothing |
| Reactors.JoinAndLeaveExclusive | main.py:61-129 | no event gets both a welcome and a goodbye, and a change between two present statuses (a promotion, a demotion, a restriction) gets neither |
| Reactors.ForeignChatIgnored | main.py:76-77 | the join, leave and join-request reactors send nothing for a chat other than the linked channel, whatever content is configured |
| Reactors.WelcomeGreetsAnn | main.py:79-90 | with welcome text "Hi {user}!" and no photo, "Ann" joining the linked channel is sent "Hi Ann!" |
| Admin.NavigationTextsAreNotInput | admin.py:485 | the cancel and back button texts are not URLs, and the cancel text is not a channel id |
| Admin.ChannelIdOf | admin.py:107-112 | the message links a channel iff it is an accepted channel-id text whose number fits an SQLite INTEGER; that id is at most -100 and renders back to the text sent |
| Admin.AdminIdOf | admin.py:274-285 | a message names a user to promote iff it is an all-digit text whose number fits an SQLite INTEGER; without a leading zero that user id renders back to exactly the text sent |
| Admin.PromotionOutcomes | admin.py:285-291 | whatever becomes of the INSERT OR IGNORE and the UPDATE, only the named user's row can change; it is an admin afterwards iff both went through or it already was one; with autocommit a failed UPDATE keeps the new row without the flag |
| Admin.AdminPanel.SetupChannel | admin.py:71-89 | enters `waiting_for_channel_id` iff no channel is linked (no row, or a NULL or 0 id); otherwise changes nothing |
| Admin.AdminPanel.AskForChannelId | admin.py:98-102 | the "change channel: yes" button (and the identical redirect button at admin.py:241-245) enters `waiting_for_channel_id` and keeps the draft data |
| Admin.AdminPanel.SetupStartMessage | admin.py:121-127 | enters `waiting_for_text`; no table changes |
| Admin.AdminPanel.SetupWelcome | admin.py:159-205 | enters the welcome step iff a channel is linked; otherwise the session is unchanged |
| Admin.AdminPanel.StartAddAdmin | admin.py:251-258 | enters `waiting_for_id`; no table changes |
| Admin.AdminPanel.SetupGoodbye | admin.py:350-384 | enters the goodbye step iff a row exists with a linked channel; otherwise the session is unchanged |
| Admin.AdminPanel.StartPostCreation | admin.py:417-424 | enters `waiting_for_content` and keeps the data dictionary |
| Admin.AdminPanel.ProcessChannelId | admin.py:105-116 | stores iff the message is a text starting with "-100" whose characters after the first are all digits and whose number fits an SQLite INTEGER; then `channel_id` becomes `int(text)` and the session is cleared; otherwise (a photo, a malformed text, or a number whose bind raises at admin.py:112) the settings and every session are unchanged |
| Admin.AdminPanel.ProcessStartMessageText | admin.py:141-155 | `start_message` becomes the message text (NULL for a photo) and the session is cleared |
| Admin.AdminPanel.ProcessWelcomeContent | admin.py:219-238 | both welcome columns are overwritten with the message's (text, photo), so a text message clears a stored photo; the session is cleared |
| Admin.AdminPanel.ProcessAdminId | admin.py:272-305 | text that is not all digits (including "") changes nothing and keeps `waiting_for_id`; an all-digit text always clears the session (the `finally`), and the users table ends as the two statements' outcome leaves it: promoted when both succeed, unchanged when the INSERT fails or the id is beyond the INTEGER range, and with a new non-admin row when only the UPDATE fails |
| Admin.AdminPanel.ToggleAutoApprove | admin.py:309-346 | a non-admin changes nothing; for an admin the flag becomes `1 - old`, with `old` read as 0 without a row, and that value is reported |
| Admin.AdminPanel.ProcessGoodbyeContent | admin.py:395-413 | both goodbye columns are overwritten with the message's (text, photo); the session is cleared |
| Admin.AdminPanel.ProcessPostContent | admin.py:459-469 | a photo or a non-empty text (the photo-or-text filter at admin.py:459) stores the photo and text in the draft and advances to `waiting_for_button_text`; an empty text is taken by no handler and leaves the session as it was; settings are unchanged |
| Admin.AdminPanel.ProcessButtonText | admin.py:473-479 | any message's text (the cancel text included) becomes the button text; advances to `waiting_for_button_url` |
| Admin.AdminPanel.ProcessButtonUrl | admin.py:483-532 | a text not starting with http:// or https:// leaves the draft, the settings and the session unchanged; otherwise the four post columns are exactly the collected photo, text, button text and URL; the session is then cleared, except with no button label, where the preview button raises (admin.py:514-516) before the `clear()` and the user stays on the URL step with the link in the draft |
| Admin.AdminPanel.BackStep | admin.py:434-446 | moves `waiting_for_button_url` to `waiting_for_button_text` and `waiting_for_button_text` to `waiting_for_content`; the draft and the tables are untouched |
| Admin.AdminPanel.CancelWizard | admin.py:131-137 | in the start-text, welcome, add-admin, goodbye and post-content states (the handlers at admin.py:209-215, 262-268, 386-391 and 426-431 do the same) the session is cleared and nothing is written |
| Admin.AdminPanel.HandleMessage | admin.py:426-483 | routes a message to the handler of its sender's state, with cancel and back ahead of the step: in Idle nothing changes; the cancel text clears the five cancellable states without writes, is taken as the button label on the button-text step, and is rejected on the channel-id and URL steps; back steps back and keeps the draft; any other message has, on each of the eight steps, exactly the effect on the session, the settings and the users stated for that step's handler (so an empty text on the content step changes nothing); other users' sessions are untouched |
| Admin.AdminPanel.ConfirmPostSend | admin.py:542-574 | with no row or no linked channel nothing is sent, and neither is anything with a NULL stored button label, whose button raises outside the `try` (admin.py:558-560); otherwise the stored post goes to `channel_id`, as a photo iff a post photo is stored, with the stored text and button |
| Admin.TextWelcomeClearsPhoto | admin.py:221-229 | after a text welcome, the join reactor sends the substituted text or nothing, never an earlier photo |
| Admin.PhotoWelcomeIsSent | admin.py:221-229 | after a photo welcome, a joining member receives that photo captioned with the substituted caption |
| Admin.GoodbyeIsSentLikeWelcome | admin.py:397-405 | for a leave event, goodbye content reaches the leaving member exactly as the same welcome content would reach that member rejoining; any other event gets no goodbye |
| Admin.ChannelLinkScenario | admin.py:71-116 | with no linked channel, "Настроить канал" followed by an accepted id that fits an SQLite INTEGER stores a channel id of at most -100 that renders back to the text sent, and the wizard is cleared |
| Admin.AddAdminScenario | admin.py:251-305 | a refused id keeps the wizard waiting; an accepted one within the INTEGER range, with both statements succeeding, then makes that user an admin, leaves every other user row as it was, and clears the wizard |
| Admin.PromoteTwiceScenario | admin.py:285-291 | promoting the same id twice leaves the users table as promoting it once |
| Admin.ToggleTwiceScenario | admin.py:327-333 | toggling auto-approve twice restores the settings |
| Admin.PostScenario | admin.py:459-568 | a photo post run, with one back from the URL step, followed by a confirmation, sends the channel exactly the collected photo, caption, label and URL |
| Admin.PhotoLabelScenario | admin.py:473-532 | a photo sent as the button label leaves the label NULL: the link is still saved with the post, but the wizard stays on the URL step |

## Left out

- Routing order of the framework. The main-menu text handlers have no state filter (for example admin.py:71), so they also fire in the middle of a wizard. The second "Создать пост" handler (admin.py:449-455) is unreachable behind the first. `HandleMessage` models only "the handler of the current state", with cancel and back first.
- The filter of the second join handler (main.py:120) is built from `...` rather than a status transition. Whether the dispatcher then skips it, fails on it, or lets it shadow the leave handler registered after it depends on the framework and is not modelled: `OnUserLeave` is modelled as reached for every leave event.
- Handlers with no effect on the model's state: the main-menu reply (admin.py:47-67), the "change channel: no" button (admin.py:92-95) and the "cancel send" button (admin.py:536-539). They only answer or edit a message.
- The previews: the current welcome or goodbye shown on entry (admin.py:179-197, admin.py:366-378), and the post preview and confirmation keyboard (admin.py:508-530). They are outbound display to the admin and are not modelled as actions. A preview button without a label, which raises before `state.clear()`, is modelled in `ProcessButtonUrl`.
- Reply texts and keyboards of the handlers. The `/start` reply and the reactors' messages are modelled; the rest are display only.
- Failures of outbound calls (main.py:92-93, main.py:116-117, admin.py:571-572) and Telegram's own rejection of an empty message text. A failed delivery is logged and swallowed, so it changes no state.
- Failed replies and previews inside the wizard steps. Each step sends its reply or preview outside any `try` and before its `set_state` or `clear()` (for example admin.py:115 before admin.py:116, admin.py:476 before admin.py:479, admin.py:509-523 before admin.py:532). A send that fails, through the network or because Telegram refuses a button link such as "http://" that passed the check at admin.py:485, raises there: the columns already written stay, but the session is neither cleared nor advanced. The model assumes these sends succeed.
- Admin.AdminPanel.ConfirmPostSend: a button with a NULL URL is accepted by the library and refused by Telegram inside the `try`, like any failed delivery, so the model returns the post with that field as stored.
- Storage failures other than those of the two statements that `process_admin_id` catches, and other than an integer outside the INTEGER range. They raise out of the handler, and the model treats them as not happening.
- Asynchrony, the polling loop and bootstrap (main.py:165-171), logging, and connection handling (connection.py).
- The DDL in creat_db.py. Its columns do not match the ones the handlers use, it never inserts a row, and the model's settings record follows the handlers.
- Python's Unicode `isdigit`. Only ASCII digits are modelled.
- `Photo(fileId, caption)`: carries the id of the last (largest) photo size, so the choice among sizes is not modelled.
- Admin.AdminPanel.SetupGoodbye: with no settings row, the source raises at admin.py:359 and enters no state. The model gives the same "no state entered" outcome without modelling the crash.
