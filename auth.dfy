/** The login commands of the bridge: `login`, `login-qr`, the continuation
    targets `enter-phone-or-token`, `enter-code` and `enter-password`, the
    shared steps `_request_code`, `_sign_in` and `_finish_sign_in`, and
    `logout`. Each user has one continuation slot (`command_status`) naming
    the handler that receives their next free-form message; the handlers
    install, overwrite and clear it. The Telegram provider is an oracle
    parameter, and everything a handler sends, edits, redacts or schedules
    is appended to its command event's trace. */
module Auth {
  import opened Types
  import Identifier
  import QrPoll

  /** A bridge user: a Matrix account that may be bound to a Telegram
      account, with its continuation slot. */
  class User {
    const mxid: UserId
    const isAdmin: bool
    /** The Telegram account this user is logged in as, if any. */
    var tgid: Option<TelegramId>
    /** `command_status`: the pending continuation, if any. */
    var commandStatus: Option<CommandStatus>

    constructor (mxid: UserId, isAdmin: bool)
      ensures this.mxid == mxid && this.isAdmin == isAdmin
      ensures tgid == None && commandStatus == None
    {
      this.mxid := mxid;
      this.isAdmin := isAdmin;
      tgid := None;
      commandStatus := None;
    }

    /** `is_logged_in()`, read as "bound to a Telegram account". */
    predicate IsLoggedIn()
      reads this
    {
      tgid.Some?
    }
  }

  /** The contents of a continuation slot: the handler for the next message,
      the action label, and the `login_as` entry (the account an admin is
      logging in on behalf of). */
  datatype CommandStatus = CommandStatus(next: Step, action: string, loginAs: Option<User>)

  /** The slot `login` installs. */
  function PhoneStep(): CommandStatus
  {
    CommandStatus(Step.EnterPhoneOrToken, "Login", None)
  }

  /** The slot `enter_phone_or_token` hands to `_request_code`. */
  function CodeStep(): CommandStatus
  {
    CommandStatus(Step.EnterCode, "Login", None)
  }

  /** The slot installed when the account turns out to have a password. */
  function PasswordStep(loginAs: Option<User>): CommandStatus
  {
    CommandStatus(Step.EnterPassword, "Login (password entry)", loginAs)
  }

  /** A `login_as` entry appears only on the password step, and never names
      the slot's own user. */
  predicate SlotWellFormed(u: User)
    reads u
  {
    match u.commandStatus
    case None => true
    case Some(s) => s.loginAs.Some? ==> s.next == Step.EnterPassword && s.loginAs.value != u
  }

  /** Every binding minus those to u. */
  function Unbound(m: map<TelegramId, User>, u: User): (r: map<TelegramId, User>)
  {
    map id | id in m && m[id] != u :: m[id]
  }

  /** The users by Telegram id (`User.by_tgid`): the binding of Telegram
      accounts to bridge users. A Telegram id is bound to at most one user,
      and that user's `tgid` is that id. */
  class Registry {
    var byTgid: map<TelegramId, User>

    ghost predicate Valid()
      reads this, byTgid.Values
    {
      forall id | id in byTgid :: byTgid[id].tgid == Some(id)
    }

    constructor ()
      ensures Valid() && byTgid == map[]
    {
      byTgid := map[];
    }

    /** The binding teardown of `User.log_out`: the user is no longer bound
        to any Telegram account. */
    method LogOut(u: User)
      requires Valid()
      modifies this, u`tgid
      ensures Valid()
      ensures u.tgid == None && u.commandStatus == old(u.commandStatus)
      ensures byTgid == Unbound(old(byTgid), u)
      ensures u !in byTgid.Values
    {
      byTgid := Unbound(byTgid, u);
      u.tgid := None;
    }
  }

  /** The configuration the handlers read: `bridge.allow_matrix_login` and
      `appservice.public.enabled`. */
  datatype Config = Config(allowMatrixLogin: bool, publicEnabled: bool)

  /** One command invocation (`CommandEvent`): who sent it, its arguments,
      its own event id, the configuration, and what has been done so far. */
  class CommandEvent {
    var sender: User
    const args: seq<string>
    const eventId: EventId
    const config: Config
    var trace: seq<Action>

    constructor (sender: User, args: seq<string>, eventId: EventId, config: Config)
      ensures this.sender == sender && this.args == args
      ensures this.eventId == eventId && this.config == config
      ensures trace == []
    {
      this.sender := sender;
      this.args := args;
      this.eventId := eventId;
      this.config := config;
      trace := [];
    }

    /** `evt.reply(...)`. */
    method SendReply(r: Reply)
      modifies this
      ensures sender == old(sender)
      ensures trace == old(trace) + [Replied(r)]
    {
      trace := trace + [Replied(r)];
    }

    /** Records an action other than a reply. */
    method Record(a: Action)
      modifies this
      ensures sender == old(sender)
      ensures trace == old(trace) + [a]
    {
      trace := trace + [a];
    }
  }

  // ---------------------------------------------------------------------
  // _finish_sign_in

  /** `f"@{username}" if username else f"+{phone}"`: the account's username
      after an '@' when it has a non-empty one, its phone number after a '+'
      otherwise. */
  function HumanTgId(u: TgUser): (name: string)
    ensures |name| > 0
    ensures name[0] == if u.username.Some? && u.username.value != "" then '@' else '+'
    ensures name[1..] == if name[0] == '@' then u.username.value else u.phone
  {
    if u.username.Some? && u.username.value != "" then "@" + u.username.value else "+" + u.phone
  }

  /** `login_as or evt.sender`. */
  function Acting(loginAs: Option<User>, sender: User): User
  {
    if loginAs.Some? then loginAs.value else sender
  }

  /** The user `_finish_sign_in` logs out: the one bound to the Telegram id,
      when there is one and it is not the user being logged in. */
  function Evicted(byTgid: map<TelegramId, User>, id: TelegramId, acting: User): Option<User>
  {
    if id in byTgid && byTgid[id] != acting then Some(byTgid[id]) else None
  }

  /** The frame of an optional evicted user: that user, or nothing. */
  function Footprint(u: Option<User>): set<User>
  {
    if u.Some? then {u.value} else {}
  }

  /** What `_finish_sign_in` sends and schedules: the log-out of the evicted
      user and its notice, then the post-login task for the acting user, then
      the success message, which names the acting user only when it is not
      the sender. */
  function FinishTrace(evicted: Option<User>, acting: User, sender: User, u: TgUser): seq<Action>
  {
    (if evicted.Some? then [LoggedOutUser(evicted.value.mxid), Replied(OtherUserLoggedOut(evicted.value.mxid))] else [])
    + [ScheduledPostLogin(acting.mxid, u),
       Replied(LoggedIn(HumanTgId(u), if acting != sender then Some(acting.mxid) else None))]
  }

  /** The state `_finish_sign_in` leaves behind, relative to the state before
      it and to the trace `before` it started from. */
  twostate predicate SignInFinished(
    evt: CommandEvent, reg: Registry, sender: User, u: TgUser, acting: User,
    evicted: Option<User>, before: seq<Action>)
    reads evt, sender, acting, reg, Footprint(evicted)
  {
    && evicted == Evicted(old(reg.byTgid), u.id, acting)
    && evt.sender == sender
    && sender.commandStatus == None
    && (evicted != Some(sender) ==> sender.tgid == old(sender.tgid))
    && acting.tgid == old(acting.tgid)
    && (acting != sender ==> acting.commandStatus == old(acting.commandStatus))
    && (evicted.Some? && evicted.value != sender ==>
          evicted.value.commandStatus == old(evicted.value.commandStatus))
    && reg.byTgid == (if evicted.Some? then Unbound(old(reg.byTgid), evicted.value) else old(reg.byTgid))
    && (evicted.Some? ==> evicted.value.tgid == None)
    && evt.trace == before + FinishTrace(evicted, acting, sender, u)
  }

  /** `_finish_sign_in`: evicts another user bound to the same Telegram
      account, schedules the post-login task, clears the SENDER's slot (not
      that of `login_as`) and reports success. Afterwards the Telegram id is
      bound to nobody but the acting user. */
  method FinishSignIn(evt: CommandEvent, reg: Registry, u: TgUser, loginAs: Option<User>)
    requires reg.Valid()
    modifies evt, evt.sender`commandStatus, reg,
      Footprint(Evicted(reg.byTgid, u.id, Acting(loginAs, evt.sender)))`tgid
    ensures reg.Valid()
    ensures SignInFinished(evt, reg, old(evt.sender), u, Acting(loginAs, old(evt.sender)),
                           Evicted(old(reg.byTgid), u.id, Acting(loginAs, old(evt.sender))), old(evt.trace))
    ensures u.id in reg.byTgid ==> reg.byTgid[u.id] == Acting(loginAs, old(evt.sender))
  {
    var acting := Acting(loginAs, evt.sender);
    var evicted := Evicted(reg.byTgid, u.id, acting);
    ghost var before := evt.trace;
    if evicted.Some? {
      var existing := evicted.value;
      reg.LogOut(existing);
      evt.Record(LoggedOutUser(existing.mxid));
      evt.SendReply(OtherUserLoggedOut(existing.mxid));
    }
    assert evt.trace == before + (if evicted.Some? then [LoggedOutUser(evicted.value.mxid),
                                                         Replied(OtherUserLoggedOut(evicted.value.mxid))] else []);
    evt.Record(ScheduledPostLogin(acting.mxid, u));
    evt.sender.commandStatus := None;
    evt.SendReply(LoggedIn(HumanTgId(u), if acting != evt.sender then Some(acting.mxid) else None));
  }

  // ---------------------------------------------------------------------
  // _sign_in

  /** The errors `_sign_in` does not catch: they reach the calling handler. */
  predicate Escapes(o: SignInOutcome)
  {
    o.AccessTokenInvalid? || o.AccessTokenExpired? || o.SignInFailed?
  }

  /** The credential errors `_sign_in` answers itself, leaving the slot as it
      was so that the same step can be tried again. */
  predicate Retryable(o: SignInOutcome)
  {
    o.PhoneCodeExpired? || o.PhoneCodeInvalid? || o.PasswordHashInvalid?
  }

  function RetryReply(o: SignInOutcome): Reply
    requires Retryable(o)
  {
    if o.PhoneCodeExpired? then CodeExpired
    else if o.PhoneCodeInvalid? then CodeInvalid
    else PasswordIncorrect
  }

  /** The user a successful sign-in would evict. */
  function SignInEvicted(byTgid: map<TelegramId, User>, o: SignInOutcome, sender: User): Option<User>
  {
    if o.SignedIn? then Evicted(byTgid, o.user.id, sender) else None
  }

  /** The state `_sign_in` leaves behind when the provider answered `o`. */
  twostate predicate SignInEffect(
    evt: CommandEvent, reg: Registry, sender: User, o: SignInOutcome,
    evicted: Option<User>, before: seq<Action>)
    reads evt, sender, reg, Footprint(evicted)
  {
    if o.SignedIn? then
      SignInFinished(evt, reg, sender, o.user, sender, evicted, before)
    else
      && evicted == None
      && evt.sender == sender
      && sender.tgid == old(sender.tgid)
      && reg.byTgid == old(reg.byTgid)
      && (if o.SessionPasswordNeeded? then
            && sender.commandStatus == Some(PasswordStep(None))
            && evt.trace == before + [Replied(TwoFactorRequired)]
          else
            && sender.commandStatus == old(sender.commandStatus)
            && evt.trace == before + (if Retryable(o) then [Replied(RetryReply(o))] else []))
  }

  /** `_sign_in`: signs `login_as or evt.sender` in with the provider's
      answer `o`. On success it calls `_finish_sign_in(evt, user)` WITHOUT
      passing `login_as`, so the sender is the one finished. A two-factor
      demand installs the password step with no `login_as` entry; expired or
      invalid codes and an incorrect password leave the slot unchanged. */
  method SignIn(evt: CommandEvent, reg: Registry, loginAs: Option<User>, o: SignInOutcome)
    requires reg.Valid()
    modifies evt, evt.sender`commandStatus, reg, Footprint(SignInEvicted(reg.byTgid, o, evt.sender))`tgid
    ensures reg.Valid()
    ensures SignInEffect(evt, reg, old(evt.sender), o, SignInEvicted(old(reg.byTgid), o, old(evt.sender)),
                         old(evt.trace) + [SignInAttempted(Acting(loginAs, old(evt.sender)).mxid)])
  {
    var acting := Acting(loginAs, evt.sender);
    // login_as.ensure_started(); login_as.client.sign_in(...)
    evt.Record(SignInAttempted(acting.mxid));
    match o {
      case SignedIn(u) =>
        FinishSignIn(evt, reg, u, None);
      case PhoneCodeExpired =>
        evt.SendReply(CodeExpired);
      case PhoneCodeInvalid =>
        evt.SendReply(CodeInvalid);
      case PasswordHashInvalid =>
        evt.SendReply(PasswordIncorrect);
      case SessionPasswordNeeded =>
        evt.sender.commandStatus := Some(PasswordStep(None));
        evt.SendReply(TwoFactorRequired);
      case _ =>
        // AccessTokenInvalid, AccessTokenExpired and anything else propagate
    }
  }

  // ---------------------------------------------------------------------
  // _request_code

  /** The reply of `_request_code`: the user is told to send the code
      exactly when the provider sent one; each error has its own reply. */
  function RequestCodeReply(phone: string, o: RequestCodeOutcome): (r: Reply)
    ensures r == CodeSent(phone) <==> o.CodeRequested?
    ensures o.FloodWait? ==> r == FloodWaitBlocked(o.seconds)
    ensures o.RequestFailed? ==> r == RequestCodeCrashed
  {
    match o
    case CodeRequested => CodeSent(phone)
    case AppSignupForbidden => SignupForbidden
    case PhoneNumberFlood => NumberFloodBlocked
    case FloodWait(s) => FloodWaitBlocked(s)
    case PhoneNumberBanned => NumberBanned
    case PhoneNumberUnoccupied => NumberUnregistered
    case PhoneNumberInvalid => NumberInvalid
    case RequestFailed => RequestCodeCrashed
  }

  /** Each outcome of the code request has its own reply: no two outcomes,
      and no two flood-wait durations, are answered alike. */
  lemma RequestCodeRepliesDistinct(phone: string, o1: RequestCodeOutcome, o2: RequestCodeOutcome)
    ensures RequestCodeReply(phone, o1) == RequestCodeReply(phone, o2) <==> o1 == o2
  {
  }

  /** `_request_code`: asks the provider to send a login code. Its `finally`
      leaves the sender's slot equal to `next` exactly when the request went
      through, and empty whichever error was caught. */
  method RequestCode(evt: CommandEvent, phone: string, next: CommandStatus, o: RequestCodeOutcome)
    modifies evt, evt.sender`commandStatus
    ensures evt.sender == old(evt.sender)
    ensures evt.sender.commandStatus == (if o.CodeRequested? then Some(next) else None)
    ensures evt.trace == old(evt.trace) + [Replied(RequestCodeReply(phone, o))]
  {
    var ok := o.CodeRequested?;
    evt.SendReply(RequestCodeReply(phone, o));
    // finally:
    evt.sender.commandStatus := if ok then Some(next) else None;
  }

  // ---------------------------------------------------------------------
  // enter_phone_or_token, enter_code, enter_password

  /** The guard the three continuation targets share: the usage message
      when there is no argument, checked before the configuration. */
  function GuardReply(evt: CommandEvent, step: Step): Option<Reply>
    reads evt
  {
    if |evt.args| == 0 then Some(Usage(step))
    else if !evt.config.allowMatrixLogin then Some(InMatrixLoginDisabled)
    else None
  }

  /** `enter_phone_or_token`: after the guards, an argument whose first ':'
      is past index 0 is a bot token and is signed in directly; anything else
      is a phone number, for which a code is requested with `enter_code` as
      the next step. */
  method EnterPhoneOrToken(evt: CommandEvent, reg: Registry, request: RequestCodeOutcome, signIn: SignInOutcome)
    requires reg.Valid()
    modifies evt, evt.sender`commandStatus, reg, Footprint(SignInEvicted(reg.byTgid, signIn, evt.sender))`tgid
    ensures reg.Valid()
    ensures evt.sender == old(evt.sender)
    ensures GuardReply(evt, Step.EnterPhoneOrToken).Some? ==>
      && evt.sender.commandStatus == old(evt.sender.commandStatus)
      && evt.sender.tgid == old(evt.sender.tgid)
      && reg.byTgid == old(reg.byTgid)
      && evt.trace == old(evt.trace) + [Replied(GuardReply(evt, Step.EnterPhoneOrToken).value)]
    ensures GuardReply(evt, Step.EnterPhoneOrToken).None? && Identifier.IsBotToken(evt.args[0]) ==>
      var before := old(evt.trace) + [SignInAttempted(old(evt.sender).mxid)];
      if Escapes(signIn) then
        && evt.sender.commandStatus == old(evt.sender.commandStatus)
        && evt.sender.tgid == old(evt.sender.tgid)
        && reg.byTgid == old(reg.byTgid)
        && evt.trace == before + [Replied(AuthTokenCrashed)]
      else
        SignInEffect(evt, reg, old(evt.sender), signIn, SignInEvicted(old(reg.byTgid), signIn, old(evt.sender)), before)
    ensures GuardReply(evt, Step.EnterPhoneOrToken).None? && !Identifier.IsBotToken(evt.args[0]) ==>
      && evt.sender.commandStatus == (if request.CodeRequested? then Some(CodeStep()) else None)
      && evt.sender.tgid == old(evt.sender.tgid)
      && reg.byTgid == old(reg.byTgid)
      && evt.trace == old(evt.trace) + [Replied(RequestCodeReply(evt.args[0], request))]
    ensures old(SlotWellFormed(evt.sender)) ==> SlotWellFormed(evt.sender)
  {
    var guard := GuardReply(evt, Step.EnterPhoneOrToken);
    if guard.Some? {
      evt.SendReply(guard.value);
      return;
    }
    if Identifier.IsBotToken(evt.args[0]) {
      SignIn(evt, reg, None, signIn);
      if Escapes(signIn) {
        evt.SendReply(AuthTokenCrashed);
      }
    } else {
      RequestCode(evt, evt.args[0], CodeStep(), request);
    }
  }

  /** `enter_code`: after the guards, signs in with the code; an error
      `_sign_in` does not catch gets the generic reply. */
  method EnterCode(evt: CommandEvent, reg: Registry, signIn: SignInOutcome)
    requires reg.Valid()
    modifies evt, evt.sender`commandStatus, reg, Footprint(SignInEvicted(reg.byTgid, signIn, evt.sender))`tgid
    ensures reg.Valid()
    ensures evt.sender == old(evt.sender)
    ensures GuardReply(evt, Step.EnterCode).Some? ==>
      && evt.sender.commandStatus == old(evt.sender.commandStatus)
      && evt.sender.tgid == old(evt.sender.tgid)
      && reg.byTgid == old(reg.byTgid)
      && evt.trace == old(evt.trace) + [Replied(GuardReply(evt, Step.EnterCode).value)]
    ensures GuardReply(evt, Step.EnterCode).None? ==>
      var before := old(evt.trace) + [SignInAttempted(old(evt.sender).mxid)];
      if Escapes(signIn) then
        && evt.sender.commandStatus == old(evt.sender.commandStatus)
        && evt.sender.tgid == old(evt.sender.tgid)
        && reg.byTgid == old(reg.byTgid)
        && evt.trace == before + [Replied(CodeCrashed)]
      else
        SignInEffect(evt, reg, old(evt.sender), signIn, SignInEvicted(old(reg.byTgid), signIn, old(evt.sender)), before)
    ensures old(SlotWellFormed(evt.sender)) ==> SlotWellFormed(evt.sender)
  {
    var guard := GuardReply(evt, Step.EnterCode);
    if guard.Some? {
      evt.SendReply(guard.value);
      return;
    }
    SignIn(evt, reg, None, signIn);
    if Escapes(signIn) {
      evt.SendReply(CodeCrashed);
    }
  }

  /** The reply `enter_password` gives to an error that escapes `_sign_in`. */
  function PasswordEscapeReply(o: SignInOutcome): Reply
  {
    if o.AccessTokenInvalid? then BotTokenInvalid
    else if o.AccessTokenExpired? then BotTokenExpired
    else PasswordCrashed
  }

  /** `enter_password`: after the guards, redacts the message holding the
      password, then signs in against the slot's `login_as` entry (the
      sender when there is none). With no slot at all, reading `login_as`
      fails and the generic reply is sent. */
  method EnterPassword(evt: CommandEvent, reg: Registry, signIn: SignInOutcome)
    requires reg.Valid()
    modifies evt, evt.sender`commandStatus, reg, Footprint(SignInEvicted(reg.byTgid, signIn, evt.sender))`tgid
    ensures reg.Valid()
    ensures evt.sender == old(evt.sender)
    ensures GuardReply(evt, Step.EnterPassword).Some? ==>
      && evt.sender.commandStatus == old(evt.sender.commandStatus)
      && evt.sender.tgid == old(evt.sender.tgid)
      && reg.byTgid == old(reg.byTgid)
      && evt.trace == old(evt.trace) + [Replied(GuardReply(evt, Step.EnterPassword).value)]
    ensures GuardReply(evt, Step.EnterPassword).None? && old(evt.sender.commandStatus).None? ==>
      && evt.sender.commandStatus == None
      && evt.sender.tgid == old(evt.sender.tgid)
      && reg.byTgid == old(reg.byTgid)
      && evt.trace == old(evt.trace) + [RedactedCommand(evt.eventId), Replied(PasswordCrashed)]
    ensures GuardReply(evt, Step.EnterPassword).None? && old(evt.sender.commandStatus).Some? ==>
      var loginAs := old(evt.sender.commandStatus).value.loginAs;
      var before := old(evt.trace) + [RedactedCommand(evt.eventId), SignInAttempted(Acting(loginAs, old(evt.sender)).mxid)];
      if Escapes(signIn) then
        && evt.sender.commandStatus == old(evt.sender.commandStatus)
        && evt.sender.tgid == old(evt.sender.tgid)
        && reg.byTgid == old(reg.byTgid)
        && evt.trace == before + [Replied(PasswordEscapeReply(signIn))]
      else
        SignInEffect(evt, reg, old(evt.sender), signIn, SignInEvicted(old(reg.byTgid), signIn, old(evt.sender)), before)
    ensures old(SlotWellFormed(evt.sender)) ==> SlotWellFormed(evt.sender)
  {
    var guard := GuardReply(evt, Step.EnterPassword);
    if guard.Some? {
      evt.SendReply(guard.value);
      return;
    }
    evt.Record(RedactedCommand(evt.eventId));
    if evt.sender.commandStatus.None? {
      // command_status.get on None raises inside the try
      evt.SendReply(PasswordCrashed);
      return;
    }
    SignIn(evt, reg, evt.sender.commandStatus.value.loginAs, signIn);
    if Escapes(signIn) {
      evt.SendReply(PasswordEscapeReply(signIn));
    }
  }

  // ---------------------------------------------------------------------
  // login

  /** The instructions `login` replies with. They invite the user to send a
      phone number or token exactly when the phone-entry continuation was
      installed (Matrix login allowed and no admin override); an override
      gets a login link for the target only on a public website. */
  function LoginInstructions(config: Config, overridden: bool, target: UserId): (r: Reply)
    ensures (r == SendPhoneOrToken || r == LoginLinkOrSendPhone) <==> config.allowMatrixLogin && !overridden
    ensures r == LoginLinkAs(target) <==> config.publicEnabled && overridden
    ensures r == LoginNotAllowed <==> !config.publicEnabled && !config.allowMatrixLogin
    ensures r == LoginLinkOrSendPhone <==> config.publicEnabled && config.allowMatrixLogin && !overridden
    ensures r == SendPhoneOrToken <==> !config.publicEnabled && config.allowMatrixLogin && !overridden
    ensures r == LoginLink <==> config.publicEnabled && !config.allowMatrixLogin && !overridden
    ensures r == OverrideNotPossible <==> !config.publicEnabled && config.allowMatrixLogin && overridden
  {
    if config.publicEnabled then
      if overridden then LoginLinkAs(target)
      else if config.allowMatrixLogin then LoginLinkOrSendPhone
      else LoginLink
    else if config.allowMatrixLogin then
      if overridden then OverrideNotPossible else SendPhoneOrToken
    else LoginNotAllowed
  }

  /** Whether `login` honours an override: an admin sender with a non-empty
      first argument. */
  predicate OverrideRequested(evt: CommandEvent)
    reads evt, evt.sender
  {
    |evt.args| > 0 && evt.sender.isAdmin && evt.args[0] != ""
  }

  /** `login`. `target` is the user `get_and_start_by_mxid(args[0])` yields
      and `validUserId` whether `Client.parse_user_id(args[0])` accepts the
      argument. After an override the target becomes the sender; the
      "Admin override" notice is sent on every override, because the source
      compares a user ID string with a user object, which never match. The
      phone-entry slot is installed only when Matrix login is allowed and
      there was no override. */
  method Login(evt: CommandEvent, target: User, validUserId: bool)
    modifies evt, evt.sender`commandStatus
    ensures old(evt.sender).tgid == old(evt.sender.tgid) && target.tgid == old(target.tgid)
    ensures old(OverrideRequested(evt)) && !validUserId ==>
      && evt.sender == old(evt.sender)
      && evt.sender.commandStatus == old(evt.sender.commandStatus)
      && evt.trace == old(evt.trace) + [Replied(LoginUsage(evt.args[0]))]
    ensures old(OverrideRequested(evt)) && validUserId ==>
      && evt.sender == target
      && old(evt.sender).commandStatus == old(evt.sender.commandStatus)
      && target.commandStatus == old(target.commandStatus)
      && evt.trace == old(evt.trace) + [Replied(AdminOverride(target.mxid, old(evt.sender).mxid))]
                      + [Replied(if old(target.IsLoggedIn()) then AlreadyLoggedIn
                                 else LoginInstructions(evt.config, true, target.mxid))]
    ensures !old(OverrideRequested(evt)) ==>
      && evt.sender == old(evt.sender)
      && evt.sender.commandStatus ==
           (if !old(evt.sender.IsLoggedIn()) && evt.config.allowMatrixLogin then Some(PhoneStep())
            else old(evt.sender.commandStatus))
      && evt.trace == old(evt.trace)
                      + [Replied(if old(evt.sender.IsLoggedIn()) then AlreadyLoggedIn
                                 else LoginInstructions(evt.config, false, evt.sender.mxid))]
    ensures old(SlotWellFormed(evt.sender)) ==> SlotWellFormed(old(evt.sender))
  {
    var overridden := false;
    if OverrideRequested(evt) {
      if !validUserId {
        evt.SendReply(LoginUsage(evt.args[0]));
        return;
      }
      var orig := evt.sender.mxid;
      evt.sender := target;
      overridden := true;
      evt.SendReply(AdminOverride(evt.sender.mxid, orig));
    }
    if evt.sender.IsLoggedIn() {
      evt.SendReply(AlreadyLoggedIn);
      return;
    }
    if evt.config.allowMatrixLogin && !overridden {
      evt.sender.commandStatus := Some(PhoneStep());
    }
    evt.SendReply(LoginInstructions(evt.config, overridden, evt.sender.mxid));
  }

  // ---------------------------------------------------------------------
  // login_qr

  /** The account `login_qr` logs in: the user named by the first argument
      when the sender is an admin (even an empty argument), else the sender. */
  function QrLoginAs(args: seq<string>, sender: User, target: User): User
  {
    if |args| > 0 && sender.isAdmin then target else sender
  }

  /** The user a QR login would evict. */
  function QrEvicted(byTgid: map<TelegramId, User>, run: QrPoll.QrRun, loginAs: User): Option<User>
  {
    if run.ending.Scanned? then Evicted(byTgid, run.ending.user.id, loginAs) else None
  }

  /** `login_qr`. `target` is what `get_by_mxid(args[0])` yields,
      `qrAvailable` whether the QR libraries could be imported, `wait` the
      provider's answers to `qr_login.wait()` and `sentId` the id of the
      first QR message. A missing QR capability is reported before any state
      change. A scan finishes the login for `login_as`; a two-factor demand
      installs the password step, with a `login_as` entry only when it is not
      the sender; an exhausted budget or an error leaves every slot alone. */
  method LoginQr(evt: CommandEvent, reg: Registry, target: User, qrAvailable: bool,
                 wait: nat -> WaitOutcome, sentId: EventId)
    requires reg.Valid()
    modifies evt, evt.sender`commandStatus, reg,
      Footprint(QrEvicted(reg.byTgid, QrPoll.PollSpec(wait, evt.eventId, sentId),
                          QrLoginAs(evt.args, evt.sender, target)))`tgid
    ensures reg.Valid()
    ensures evt.sender == old(evt.sender)
    ensures !qrAvailable ==>
      && evt.sender.commandStatus == old(evt.sender.commandStatus)
      && evt.sender.tgid == old(evt.sender.tgid)
      && reg.byTgid == old(reg.byTgid)
      && evt.trace == old(evt.trace) + [Replied(QrUnsupported)]
    ensures var loginAs := QrLoginAs(evt.args, evt.sender, target);
      qrAvailable && old(loginAs.IsLoggedIn()) ==>
      && evt.sender.commandStatus == old(evt.sender.commandStatus)
      && evt.sender.tgid == old(evt.sender.tgid)
      && reg.byTgid == old(reg.byTgid)
      && evt.trace == old(evt.trace) + [Replied(AlreadyLoggedIn)]
    ensures var loginAs := QrLoginAs(evt.args, evt.sender, target);
      var run := QrPoll.PollSpec(wait, evt.eventId, sentId);
      qrAvailable && !old(loginAs.IsLoggedIn()) ==>
      match run.ending
      case Scanned(u) =>
        SignInFinished(evt, reg, evt.sender, u, loginAs, QrEvicted(old(reg.byTgid), run, loginAs),
                       old(evt.trace) + run.actions)
      case PasswordNeeded =>
        && evt.sender.commandStatus == Some(PasswordStep(if loginAs != evt.sender then Some(loginAs) else None))
        && evt.sender.tgid == old(evt.sender.tgid) && loginAs.tgid == old(loginAs.tgid)
        && reg.byTgid == old(reg.byTgid)
        && evt.trace == old(evt.trace) + run.actions + [Replied(TwoFactorRequired)]
      case _ =>
        && evt.sender.commandStatus == old(evt.sender.commandStatus)
        && evt.sender.tgid == old(evt.sender.tgid) && loginAs.tgid == old(loginAs.tgid)
        && reg.byTgid == old(reg.byTgid)
        && evt.trace == old(evt.trace) + run.actions
    ensures old(SlotWellFormed(evt.sender)) ==> SlotWellFormed(evt.sender)
  {
    var loginAs := QrLoginAs(evt.args, evt.sender, target);
    if !qrAvailable {
      evt.SendReply(QrUnsupported);
      return;
    }
    if loginAs.IsLoggedIn() {
      evt.SendReply(AlreadyLoggedIn);
      return;
    }
    // login_as.ensure_started(); QRLogin(...)
    var run := QrPoll.PollQr(wait, evt.eventId, sentId);
    evt.trace := evt.trace + run.actions;
    match run.ending {
      case Scanned(u) =>
        FinishSignIn(evt, reg, u, Some(loginAs));
      case PasswordNeeded =>
        evt.sender.commandStatus := Some(PasswordStep(if loginAs != evt.sender then Some(loginAs) else None));
        evt.SendReply(TwoFactorRequired);
      case _ =>
    }
  }

  // ---------------------------------------------------------------------
  // logout

  /** `logout`: a sender without a (truthy) Telegram id is told so and
      nothing changes; otherwise the binding is torn down and the reply
      follows what `log_out()` reported (`succeeded`). */
  method Logout(evt: CommandEvent, reg: Registry, succeeded: bool)
    requires reg.Valid()
    modifies evt, evt.sender`tgid, reg
    ensures reg.Valid()
    ensures evt.sender == old(evt.sender)
    ensures evt.sender.commandStatus == old(evt.sender.commandStatus)
    ensures old(evt.sender.tgid).None? || old(evt.sender.tgid) == Some(0) ==>
      && evt.sender.tgid == old(evt.sender.tgid)
      && reg.byTgid == old(reg.byTgid)
      && evt.trace == old(evt.trace) + [Replied(NotLoggedIn)]
    ensures !(old(evt.sender.tgid).None? || old(evt.sender.tgid) == Some(0)) ==>
      && evt.sender.tgid == None
      && reg.byTgid == Unbound(old(reg.byTgid), evt.sender)
      && evt.trace == old(evt.trace) + [LoggedOutUser(evt.sender.mxid),
                                        Replied(if succeeded then LoggedOut else LogoutFailed)]
  {
    if evt.sender.tgid.None? || evt.sender.tgid.value == 0 {
      evt.SendReply(NotLoggedIn);
      return;
    }
    reg.LogOut(evt.sender);
    evt.Record(LoggedOutUser(evt.sender.mxid));
    evt.SendReply(if succeeded then LoggedOut else LogoutFailed);
  }
}
