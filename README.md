# Login continuation state machine of mautrix-telegram

This project models the login commands of the mautrix-telegram bridge
(`mautrix_telegram/commands/telegram/auth.py`) in Dafny and proves
properties of the model.

A bridge user logs in to Telegram through chat commands. Each user has a
single continuation slot, `command_status`. The slot names the handler that
receives the user's next free-form message: `enter_phone_or_token`,
`enter_code` or `enter_password`. The password step may also carry a
`login_as` entry, the account an admin is logging in on behalf of.

- `login` installs the phone step.
- `_request_code` installs the code step, or clears the slot.
- `_sign_in` installs the password step when Telegram demands two-factor
  authentication.
- `login_qr` does the same from inside its QR polling loop.
- `_finish_sign_in` clears the slot after a successful login.

`_finish_sign_in` also logs out any other bridge user bound to the same
Telegram account. `logout` tears the binding down.

Files:

- `types.dfy` holds the shared values. These are the provider's possible
  answers, one reply constructor per distinct reply text, and the abstract
  actions a handler performs (replies, QR sends, edits and redactions,
  sign-in attempts, log-outs of other users, the scheduled post-login task).
- `identifier.dfy` holds Python's `str.find` for one character and the
  bot-token test of `enter_phone_or_token`.
- `qr_poll.dfy` holds the `while retries > 0 … else` loop of `login_qr` as
  the method `PollQr`. It is proved equal to a closed-form run, `PollSpec`,
  and lemmas state what that run does.
- `auth.dfy` holds the classes `User` (with `tgid` and `commandStatus`),
  `Registry` (the `by_tgid` binding table, whose invariant is that every
  bound user's `tgid` is its key) and `CommandEvent` (sender, arguments,
  configuration and the trace of actions). It has one method per handler.
  Each handler may change only the sender's `commandStatus` and, through
  `log_out`, the `tgid` of the user it evicts, or, in `logout`, the
  sender's own `tgid`; every other field is kept.
  Every handler preserves the well-formedness of the slot: a `login_as`
  entry appears only on the password step and never names the slot's own
  user. Every handler also preserves the registry invariant.
- `scenarios.dfy` holds client methods that drive the handlers through
  concrete flows. One runs `login`, the phone number, the code (which hits
  two-factor) and the password on the same user, one command after the
  other. Another is a QR run with four timeouts. Another evicts an earlier
  binding and keeps the evicted user's slot. Each flow's outcome is checked
  from the handlers' contracts alone.

The Telegram provider is an oracle. `_request_code` receives a
`RequestCodeOutcome`. `_sign_in` receives a `SignInOutcome`. The QR loop
receives `wait: nat -> WaitOutcome`, where `wait(k)` is the outcome of the
k-th call. The user that `get_by_mxid` / `get_and_start_by_mxid` returns, the
result of `Client.parse_user_id`, the availability of the QR libraries, the
id the homeserver assigns to the first QR message and the boolean `log_out()`
returns are all inputs.

The model follows the code as written, including these behaviours:

- An expired or invalid code, or an incorrect password, leaves the slot
  unchanged. The same step can therefore be retried; the user is not sent
  back to the start.
- In the QR loop the redaction of the QR message runs after each timeout. A
  scan leaves the loop through `break` and skips it.
- `_finish_sign_in` clears the sender's slot, not that of `login_as`.
- `_sign_in` calls `_finish_sign_in(evt, user)` without `login_as`. A
  password entered for another user therefore finishes the sign-in for the
  sender.
- `login` compares the original user ID string with the new sender object.
  The two never compare equal, so the "Admin override" notice is sent on
  every override.
- Each continuation target checks for a missing argument before it checks
  whether Matrix login is allowed.
- An identifier whose first ':' is at index 0 counts as a phone number.
- `AccessTokenInvalid` and `AccessTokenExpired` get their own replies only
  in `enter_password`, which never sends a bot token. `enter_phone_or_token`,
  which does send tokens, answers both with its generic reply.

## Model

| member | source | states |
|---|---|---|
| Identifier.Find | mautrix_telegram/commands/telegram/auth.py:279 | `str.find` for one character: -1 exactly when the character is absent; otherwise the index of its first occurrence |
| Identifier.IsBotToken | mautrix_telegram/commands/telegram/auth.py:278-288 | the argument is a bot token exactly when it contains ':' and does not start with one; anything else, including a leading ':', is a phone number |
| QrPoll.CallsFrom | mautrix_telegram/commands/telegram/auth.py:136-145 | from call i on, the loop makes between i + 1 and four calls; all but the last timed out; fewer than four calls means the last one did not time out |
| QrPoll.CallsFromPrefix | mautrix_telegram/commands/telegram/auth.py:136-145 | the number of calls is determined by the first outcome that is not a timeout, or by the exhausted budget |
| QrPoll.UploadQr | mautrix_telegram/commands/telegram/auth.py:114-134 | the first upload replies to the command and records the new message's id; every later upload edits that recorded message |
| QrPoll.PollQr | mautrix_telegram/commands/telegram/auth.py:136-161 | the loop as written (upload, wait, `break` or `return` or retry and redact, `else` branch) produces exactly the closed-form run `PollSpec` |
| QrPoll.ExitAfter | mautrix_telegram/commands/telegram/auth.py:136-161 | a run that stops after its n-th call has n calls, ends as that call's outcome says, and keeps `retries` at 0 when exhausted or at 4 - (n - 1) otherwise |
| QrPoll.PollSpecEnding | mautrix_telegram/commands/telegram/auth.py:136-161 | `wait` is called one to four times; the run is exhausted exactly when four calls all time out; otherwise it ends as the last outcome says; `retries` drops by exactly one per timeout |
| QrPoll.PollSpecMessages | mautrix_telegram/commands/telegram/auth.py:129-161 | the first action is the single QR send, in reply to the command; every later action edits or redacts that message or edits in the timeout notice; only an exhausted run edits in the timeout notice |
| QrPoll.PollSpecCounts | mautrix_telegram/commands/telegram/auth.py:136-157 | redactions equal timeouts; exactly one send and one edit per further call; a scanned run's last action is its upload, so no redaction follows a scan |
| QrPoll.RedactionsFollowTimeouts | mautrix_telegram/commands/telegram/auth.py:136-157 | over the first n iterations: one redaction per timeout, one send, and n - 1 edits |
| QrPoll.CountsStep | mautrix_telegram/commands/telegram/auth.py:137-157 | one iteration adds one upload (the send on the first, an edit later) and a redaction exactly when its wait timed out |
| QrPoll.PublishedOnce | mautrix_telegram/commands/telegram/auth.py:129-157 | within the iterations, the first action sends the QR message and every later one edits or redacts that same message |
| QrPoll.AllButLastTimedOut | mautrix_telegram/commands/telegram/auth.py:140-145 | when all calls but the last timed out, the timeouts number n - 1, plus one if the last also timed out |
| Auth.HumanTgId | mautrix_telegram/commands/telegram/auth.py:372 | the name starts with '@' and continues with the username when the username is non-empty; otherwise it starts with '+' and continues with the phone number |
| Auth.Registry.LogOut | mautrix_telegram/commands/telegram/auth.py:365 | the user is bound to no Telegram id afterwards, its slot is kept, every other binding is kept, and the registry invariant holds; nothing but the user's `tgid` and the table changes |
| Auth.FinishSignIn | mautrix_telegram/commands/telegram/auth.py:361-380 | a different user bound to the Telegram id is logged out and named before the post-login task is scheduled, and keeps its slot; the sender's slot is cleared, a `login_as` user's slot is kept; the success message names `login_as` only when it is not the sender; no `tgid` changes but the evicted user's; afterwards the id is bound to nobody but the acting user |
| Auth.SignIn | mautrix_telegram/commands/telegram/auth.py:339-358 | success finishes the sign-in for the sender; two-factor installs the password step with no `login_as`; expired/invalid code and wrong password reply with the reason and keep the slot; other errors reach the caller; on every path but success the sender's slot (except two-factor), `tgid` and the bindings are unchanged |
| Auth.RequestCodeReply | mautrix_telegram/commands/telegram/auth.py:237-263 | the "code sent" reply is given exactly when the provider sent a code; a flood wait reports its seconds; any other exception gets the generic reply |
| Auth.RequestCodeRepliesDistinct | mautrix_telegram/commands/telegram/auth.py:237-263 | no two outcomes of the code request, and no two flood-wait durations, get the same reply |
| Auth.RequestCode | mautrix_telegram/commands/telegram/auth.py:229-265 | afterwards the slot is `next_status` exactly when the code request went through, and empty after every error |
| Auth.EnterPhoneOrToken | mautrix_telegram/commands/telegram/auth.py:268-289 | no argument or disabled Matrix login: one reply, slot, `tgid` and bindings unchanged (usage first); a bot token is signed in directly; anything else requests a code with the code step next, leaving `tgid` and the bindings alone |
| Auth.EnterCode | mautrix_telegram/commands/telegram/auth.py:292-308 | guards as above; then the `_sign_in` effect, or the generic reply with slot, `tgid` and bindings unchanged for an error `_sign_in` does not catch |
| Auth.EnterPassword | mautrix_telegram/commands/telegram/auth.py:311-336 | guards as above; then the password message is redacted and the sign-in runs against the slot's `login_as`; no slot gives the generic reply; token errors get their own replies; every path but success keeps `tgid` and the bindings |
| Auth.LoginInstructions | mautrix_telegram/commands/telegram/auth.py:201-226 | each of the six replies is given exactly under its own combination of public login, Matrix login and override: a link plus an invitation to send a phone number, the invitation alone, a plain link, a link for the target, an override refusal, or a login refusal; the phone invitation appears exactly when Matrix login is allowed and there was no override |
| Auth.Login | mautrix_telegram/commands/telegram/auth.py:172-226 | an override needs an admin and a non-empty argument; an invalid ID only gets the usage; an override switches the sender and always sends the notice; the phone step is installed only when Matrix login is allowed, nobody is logged in and there was no override; no `tgid` changes |
| Auth.LoginQr | mautrix_telegram/commands/telegram/auth.py:101-163 | a missing QR capability is reported before any change; a non-admin's argument is ignored; a logged-in target gets one reply; otherwise the run of `PollSpec` is published, then a scan finishes the login for `login_as`, two-factor installs the password step with `login_as` only when it is not the sender, and exhaustion or an error touches no slot; only a scan's eviction changes a `tgid` |
| Auth.Logout | mautrix_telegram/commands/telegram/auth.py:383-389 | a sender without a (non-zero) Telegram id is told so and nothing changes; otherwise the binding is removed and the reply follows the result of `log_out()` |

## Left out

- `ping` and `ping_bot` report status only and change no state.
- QR image generation and upload are left out: `qrcode.make`, the PNG bytes and `upload_media`. An upload is recorded as one abstract send or edit action.
- `qr_login.recreate()` and `ensure_started` are calls into the Telegram client. An exception from them, or from an upload, is modelled as a `wait` outcome that fails, after the iteration's upload is recorded.
- Message wording, `fmt_duration`, `public_website.make_token` and logging are left out. Replies are constructors of one datatype, one per distinct text, carrying the values the text interpolates, except the two named next.
- `AlreadyLoggedIn` does not carry `human_tg_id` (lines 108 and 192) and `OtherUserLoggedOut` does not carry `displayname` (line 367): both are properties of `User` defined in `user.py`, which is not part of this model.
- The post-login task runs in the background and is not awaited. It is recorded only as a scheduled action.
- QrPoll.UploadQr: reads `if qr_event_id:` as "an id was recorded" (`Some`), assuming the homeserver never returns an empty event id; with an empty id the source would send a new QR reply on every upload instead of editing.
- Concurrency is left out, including races between concurrent commands on one user's slot or on one Telegram id.
- `is_logged_in()` is read as "bound to a Telegram id", because its implementation in `user.py` is not part of this model.
- `User.log_out` and `User.get_by_tgid` are modelled as the binding table. `log_out` removes the binding and resets `tgid`, and its boolean result is an input. The session teardown inside `log_out` is not part of this model.
- Configuration defaults are not modelled: `login` reads `bridge.allow_matrix_login` directly, while the continuation targets read it with a default of true. The model takes both flags as given values.
- Exceptions raised by `evt.reply`, by `evt.redact` or inside `_finish_sign_in` are not modelled. Every send is assumed to succeed.
- The redaction of the QR message after a timeout, and its swallowed failure, are recorded as one attempted redaction.
- The slot is a datatype, not a dictionary holding a Python callable. Its `next` entry is a `Step` tag and its `login_as` entry a user reference.
