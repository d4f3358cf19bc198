/** Values shared by the login handlers: identifiers, what the Telegram
    provider can answer, the replies the bridge sends and the abstract
    messaging events it produces. */
module Types {

  datatype Option<+T> = None | Some(value: T)

  /** A Matrix user ID such as "@alice:example.org". */
  type UserId = string
  /** A Matrix event ID, as returned when a message is sent. */
  type EventId = string
  /** A Telegram account's numeric id. */
  type TelegramId = int

  /** The signed-in Telegram account the provider returns (telethon's User):
      its id, its optional username and its phone number. */
  datatype TgUser = TgUser(id: TelegramId, username: Option<string>, phone: string)

  /** Which handler receives the next free-form message of a user: the
      `next` entry of `command_status`. */
  datatype Step = EnterPhoneOrToken | EnterCode | EnterPassword

  /** How `ensure_started` followed by `client.sign_in(phone)` ends in
      `_request_code`: the code was sent, or one of the errors it catches.
      RequestFailed stands for any other exception. */
  datatype RequestCodeOutcome =
    | CodeRequested
    | AppSignupForbidden
    | PhoneNumberFlood
    | FloodWait(seconds: nat)
    | PhoneNumberBanned
    | PhoneNumberUnoccupied
    | PhoneNumberInvalid
    | RequestFailed

  /** How `ensure_started` followed by `client.sign_in(...)` ends in
      `_sign_in`: a signed-in account, or the error raised. SignInFailed
      stands for any exception not named here. */
  datatype SignInOutcome =
    | SignedIn(user: TgUser)
    | PhoneCodeExpired
    | PhoneCodeInvalid
    | PasswordHashInvalid
    | SessionPasswordNeeded
    | AccessTokenInvalid
    | AccessTokenExpired
    | SignInFailed

  /** How one iteration of the QR loop ends: `qr_login.wait()` returns an
      account, raises asyncio.TimeoutError, raises SessionPasswordNeededError,
      or (QrFailed) anything in the iteration raises another exception. */
  datatype WaitOutcome = QrScanned(user: TgUser) | QrTimeout | QrPasswordNeeded | QrFailed

  /** Every reply the login handlers send, one constructor per distinct text. */
  datatype Reply =
    // login_qr
    | QrUnsupported
    | AlreadyLoggedIn
    | TwoFactorRequired
    // login
    | LoginUsage(invalidId: string)
    | AdminOverride(target: UserId, original: UserId)
    | LoginLinkAs(target: UserId)
    | LoginLinkOrSendPhone
    | LoginLink
    | OverrideNotPossible
    | SendPhoneOrToken
    | LoginNotAllowed
    // _request_code
    | CodeSent(phone: string)
    | SignupForbidden
    | NumberFloodBlocked
    | FloodWaitBlocked(seconds: nat)
    | NumberBanned
    | NumberUnregistered
    | NumberInvalid
    | RequestCodeCrashed
    // enter_phone_or_token, enter_code, enter_password
    | Usage(step: Step)
    | InMatrixLoginDisabled
    | AuthTokenCrashed
    | CodeCrashed
    | PasswordCrashed
    | BotTokenInvalid
    | BotTokenExpired
    // _sign_in
    | CodeExpired
    | CodeInvalid
    | PasswordIncorrect
    // _finish_sign_in
    | OtherUserLoggedOut(mxid: UserId)
    | LoggedIn(name: string, onBehalfOf: Option<UserId>)
    // logout
    | NotLoggedIn
    | LoggedOut
    | LogoutFailed

  /** What a handler does to the outside world, in order: messages sent,
      edited or redacted, the sign-in calls of `_sign_in` (the code request
      of `_request_code` and the QR waits are not recorded as calls),
      log-outs of other users and the scheduling of the post-login task. */
  datatype Action =
    | Replied(reply: Reply)
    | SentQr(replyTo: EventId)
    | EditedQr(target: EventId)
    | RedactedQr(target: EventId)
    | EditedTimedOut(target: EventId)
    | RedactedCommand(target: EventId)
    | SignInAttempted(account: UserId)
    | LoggedOutUser(mxid: UserId)
    | ScheduledPostLogin(mxid: UserId, user: TgUser)
}
