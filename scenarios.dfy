/** Clients of the login handlers: each runs a sequence of commands against
    fresh users and checks, from the handlers' contracts alone, what the
    slot, the bindings and the messages are afterwards. */
module Scenarios {
  import opened Types
  import Auth
  import Identifier
  import QrPoll

  /** `login` from a user with no slot and no binding: the phone step. */
  method RunLogin(alice: Auth.User, other: Auth.User)
    requires alice.tgid == None
    modifies alice`commandStatus
    ensures alice.commandStatus == Some(Auth.PhoneStep()) && alice.tgid == None
  {
    var e := new Auth.CommandEvent(alice, [], "$e0", Auth.Config(true, false));
    assert !Auth.OverrideRequested(e);
    Auth.Login(e, other, false);
    assert e.trace == [Replied(SendPhoneOrToken)];
  }

  /** A phone number in the phone step: a code is requested and the slot
      moves to the code step. */
  method RunPhone(alice: Auth.User, reg: Auth.Registry, phone: string)
    requires reg.Valid() && reg.byTgid == map[]
    requires ':' !in phone
    modifies alice`commandStatus, reg
    ensures alice.commandStatus == Some(Auth.CodeStep())
    ensures reg.Valid() && reg.byTgid == map[]
  {
    assert !Identifier.IsBotToken(phone);
    var e := new Auth.CommandEvent(alice, [phone], "$e1", Auth.Config(true, false));
    Auth.EnterPhoneOrToken(e, reg, CodeRequested, SignInFailed);
  }

  /** The code in the code step hits two-factor: the slot moves to the
      password step, with no `login_as` entry. */
  method RunCode(alice: Auth.User, reg: Auth.Registry)
    requires reg.Valid() && reg.byTgid == map[]
    modifies alice`commandStatus, reg
    ensures alice.commandStatus == Some(Auth.PasswordStep(None))
    ensures reg.Valid() && reg.byTgid == map[]
  {
    var e := new Auth.CommandEvent(alice, ["54321"], "$e2", Auth.Config(true, false));
    Auth.EnterCode(e, reg, SessionPasswordNeeded);
    assert e.trace == [SignInAttempted(alice.mxid), Replied(TwoFactorRequired)];
  }

  /** The password in the password step: the password message is redacted,
      the user is logged in as @handle42 and the slot is cleared. */
  method RunPassword(alice: Auth.User, reg: Auth.Registry)
    requires reg.Valid() && reg.byTgid == map[]
    requires alice.commandStatus == Some(Auth.PasswordStep(None))
    modifies alice`commandStatus, reg
    ensures alice.commandStatus == None
    ensures reg.Valid() && reg.byTgid == map[]
  {
    var me := TgUser(42, Some("handle42"), "12025550123");
    assert Auth.HumanTgId(me) == "@handle42";
    var e := new Auth.CommandEvent(alice, ["correct-pw"], "$e3", Auth.Config(true, false));
    Auth.EnterPassword(e, reg, SignedIn(me));
    assert e.trace == [RedactedCommand("$e3"), SignInAttempted(alice.mxid),
                       ScheduledPostLogin(alice.mxid, me), Replied(LoggedIn("@handle42", None))];
  }

  /** One login by phone, command after command on the same user: `login`
      installs the phone step, the phone number moves it to the code step,
      the code hits two-factor and installs the password step, and the
      password clears the slot. No step binds or unbinds a Telegram account. */
  method PhoneCodePasswordLogin()
  {
    var phone := "12025550123";
    assert ':' !in phone;
    var alice := new Auth.User("@alice:example.org", false);
    var bob := new Auth.User("@bob:example.org", true);
    var reg := new Auth.Registry();
    RunLogin(alice, bob);
    RunPhone(alice, reg, phone);
    RunCode(alice, reg);
    RunPassword(alice, reg);
    assert alice.commandStatus == None && alice.tgid == None;
    assert reg.byTgid == map[];
  }

  /** A wrong password leaves the password step in place; so does an
      invalid code leave the code step. */
  method RetryKeepsStep()
  {
    var cfg := Auth.Config(true, false);
    var alice := new Auth.User("@alice:example.org", false);
    var reg := new Auth.Registry();
    alice.commandStatus := Some(Auth.PasswordStep(None));
    var e1 := new Auth.CommandEvent(alice, ["wrong", "pw"], "$e1", cfg);
    Auth.EnterPassword(e1, reg, PasswordHashInvalid);
    assert alice.commandStatus == Some(Auth.PasswordStep(None));
    assert e1.trace[|e1.trace| - 1] == Replied(PasswordIncorrect);

    alice.commandStatus := Some(Auth.CodeStep());
    var e2 := new Auth.CommandEvent(alice, ["11111"], "$e2", cfg);
    Auth.EnterCode(e2, reg, PhoneCodeInvalid);
    assert alice.commandStatus == Some(Auth.CodeStep());
  }

  /** `enter-code` with no argument only replies with its usage, even when
      Matrix login is disabled. */
  method UsageFirst()
  {
    var alice := new Auth.User("@alice:example.org", false);
    var reg := new Auth.Registry();
    alice.commandStatus := Some(Auth.CodeStep());
    var e := new Auth.CommandEvent(alice, [], "$e", Auth.Config(false, false));
    Auth.EnterCode(e, reg, SignInFailed);
    assert alice.commandStatus == Some(Auth.CodeStep());
    assert alice.tgid == None;
    assert e.trace == [Replied(Usage(Step.EnterCode))];
  }

  /** Without the QR libraries `login-qr` replies so and changes nothing. */
  method QrWithoutCapability()
  {
    var alice := new Auth.User("@alice:example.org", false);
    var reg := new Auth.Registry();
    var e := new Auth.CommandEvent(alice, [], "$e", Auth.Config(true, false));
    Auth.LoginQr(e, reg, alice, false, _ => QrTimeout, "$qr");
    assert alice.commandStatus == None && alice.tgid == None;
    assert e.trace == [Replied(QrUnsupported)];
  }

  /** Four timeouts: one QR message, three edits, four redactions, then the
      timeout notice; no slot is installed. */
  method QrExhausted()
  {
    var alice := new Auth.User("@alice:example.org", false);
    var reg := new Auth.Registry();
    var e := new Auth.CommandEvent(alice, [], "$e", Auth.Config(true, false));
    var never: nat -> WaitOutcome := _ => QrTimeout;
    Auth.LoginQr(e, reg, alice, true, never, "$qr");
    assert QrPoll.WaitCalls(never) == 4;
    assert alice.commandStatus == None;
    assert e.trace == [SentQr("$e"), RedactedQr("$qr"), EditedQr("$qr"), RedactedQr("$qr"),
                       EditedQr("$qr"), RedactedQr("$qr"), EditedQr("$qr"), RedactedQr("$qr"),
                       EditedTimedOut("$qr")];
  }

  /** An admin's QR login for another user hits two-factor: the admin's own
      slot gets the password step with the other user as `login_as`. */
  method QrTwoFactorForAnother()
  {
    var admin := new Auth.User("@admin:example.org", true);
    var bob := new Auth.User("@bob:example.org", false);
    var reg := new Auth.Registry();
    var e := new Auth.CommandEvent(admin, ["@bob:example.org"], "$e", Auth.Config(true, false));
    var answers: nat -> WaitOutcome := k => if k == 0 then QrTimeout else QrPasswordNeeded;
    Auth.LoginQr(e, reg, bob, true, answers, "$qr");
    assert QrPoll.WaitCalls(answers) == 2;
    assert admin.commandStatus == Some(Auth.PasswordStep(Some(bob)));
    assert bob.commandStatus == None;
  }

  /** Bob is bound to Telegram account 42; Alice signs in to it: Bob is
      logged out, named in a notice before the post-login task is scheduled,
      and 42 is no longer bound to him; his own slot is left as it was. */
  method EvictPreviousBinding()
  {
    var me := TgUser(42, None, "12025550123");
    assert Auth.HumanTgId(me) == "+12025550123";
    var cfg := Auth.Config(true, false);
    var alice := new Auth.User("@alice:example.org", false);
    var bob := new Auth.User("@bob:example.org", false);
    var reg := new Auth.Registry();
    bob.tgid := Some(42);
    reg.byTgid := map[42 := bob];
    bob.commandStatus := Some(Auth.CodeStep());
    alice.commandStatus := Some(Auth.CodeStep());
    var e := new Auth.CommandEvent(alice, ["54321"], "$e", cfg);
    Auth.EnterCode(e, reg, SignedIn(me));
    assert Auth.Evicted(map[42 := bob], 42, alice) == Some(bob);
    assert bob.tgid == None && bob.commandStatus == Some(Auth.CodeStep());
    assert alice.tgid == None;
    assert 42 !in reg.byTgid;
    assert alice.commandStatus == None;
    assert e.trace == [SignInAttempted(alice.mxid), LoggedOutUser(bob.mxid),
                       Replied(OtherUserLoggedOut(bob.mxid)), ScheduledPostLogin(alice.mxid, me),
                       Replied(LoggedIn("+12025550123", None))];
  }
}
