/** The polling loop of `login_qr`: with a budget of four retries it
    recreates the login token, publishes its QR code (a new message the
    first time, an edit of that message afterwards) and waits for it to be
    scanned. A timeout costs one retry and is followed by a redaction of the
    QR message; a scan leaves the loop through `break`; a two-factor demand
    makes the handler return; an exhausted budget falls into the loop's
    `else` branch, which edits the message to say that the login timed out. */
module QrPoll {
  import opened Types

  /** `retries = 4`. */
  const MaxRetries: nat := 4

  /** How a polling run ends: a scanned account (the `break`), a two-factor
      demand (the `return` from inside the loop), an exhausted budget (the
      loop's `else`), or an exception that leaves the handler. */
  datatype QrEnding = Scanned(user: TgUser) | PasswordNeeded | TimedOut | Failed

  /** One polling run: how it ended, how many times `wait` was called, the
      value of `retries` when the loop was left, the id of the published QR
      message (`qr_event_id`) and the messaging actions in order. */
  datatype QrRun = QrRun(
    ending: QrEnding,
    waitCalls: nat,
    retriesLeft: nat,
    qrEventId: Option<EventId>,
    actions: seq<Action>)

  /** The ending a non-timeout `wait` outcome produces. */
  function EndingOf(o: WaitOutcome): QrEnding
  {
    match o
    case QrScanned(u) => Scanned(u)
    case QrTimeout => TimedOut
    case QrPasswordNeeded => PasswordNeeded
    case QrFailed => Failed
  }

  /** The number of `wait` calls made when the i-th call is reached with
      every earlier call timed out: the calls stop at the first outcome that
      is not a timeout, or when the budget is spent. */
  function CallsFrom(wait: nat -> WaitOutcome, i: nat): (n: nat)
    requires i < MaxRetries
    ensures i < n <= MaxRetries
    ensures forall j :: i <= j < n - 1 ==> wait(j).QrTimeout?
    ensures n < MaxRetries ==> !wait(n - 1).QrTimeout?
    decreases MaxRetries - i
  {
    if wait(i).QrTimeout? && i + 1 < MaxRetries then CallsFrom(wait, i + 1) else i + 1
  }

  /** How many `wait` calls a run makes. */
  function WaitCalls(wait: nat -> WaitOutcome): nat
  {
    CallsFrom(wait, 0)
  }

  /** The message `upload_qr` produces in iteration i: a reply to the
      command the first time, an edit of the published message afterwards. */
  function Upload(i: nat, replyTo: EventId, qrId: EventId): Action
  {
    if i == 0 then SentQr(replyTo) else EditedQr(qrId)
  }

  /** The actions of the first n iterations: each publishes the QR code and,
      after a timeout, tries to redact the published message. */
  function PollActions(wait: nat -> WaitOutcome, n: nat, replyTo: EventId, qrId: EventId): seq<Action>
    decreases n
  {
    if n == 0 then []
    else
      PollActions(wait, n - 1, replyTo, qrId) + [Upload(n - 1, replyTo, qrId)]
      + (if wait(n - 1).QrTimeout? then [RedactedQr(qrId)] else [])
  }

  /** The run `login_qr`'s loop performs, in closed form. `replyTo` is the
      command's event id, `qrId` the id the homeserver assigns to the first
      QR message. */
  function PollSpec(wait: nat -> WaitOutcome, replyTo: EventId, qrId: EventId): QrRun
  {
    var n := WaitCalls(wait);
    var ending := EndingOf(wait(n - 1));
    QrRun(
      ending,
      n,
      if ending.TimedOut? then 0 else MaxRetries - (n - 1),
      Some(qrId),
      PollActions(wait, n, replyTo, qrId) + (if ending.TimedOut? then [EditedTimedOut(qrId)] else []))
  }

  /** `upload_qr`: the first upload is sent as a reply to the command and
      its event id (`sentId`) recorded in `qr_event_id`; later ones edit
      that message. */
  method UploadQr(actions: seq<Action>, qrEventId: Option<EventId>, replyTo: EventId, sentId: EventId)
    returns (actions': seq<Action>, qrEventId': Option<EventId>)
    ensures qrEventId'.Some?
    ensures qrEventId.Some? ==> qrEventId' == qrEventId && actions' == actions + [EditedQr(qrEventId.value)]
    ensures qrEventId.None? ==> qrEventId' == Some(sentId) && actions' == actions + [SentQr(replyTo)]
  {
    if qrEventId.Some? {
      actions' := actions + [EditedQr(qrEventId.value)];
      qrEventId' := qrEventId;
    } else {
      actions' := actions + [SentQr(replyTo)];
      qrEventId' := Some(sentId);
    }
  }

  /** The loop as written. The provider is the oracle `wait` (the outcome of
      the k-th call is `wait(k)`), and `sentId` is the event id the first
      send returns. */
  method PollQr(wait: nat -> WaitOutcome, replyTo: EventId, sentId: EventId) returns (run: QrRun)
    ensures run == PollSpec(wait, replyTo, sentId)
  {
    var retries := MaxRetries;
    var qrEventId: Option<EventId> := None;
    var actions: seq<Action> := [];
    var calls: nat := 0;
    var ending := TimedOut;
    while retries > 0
      invariant calls <= MaxRetries && retries == MaxRetries - calls
      invariant forall i :: 0 <= i < calls ==> wait(i).QrTimeout?
      invariant qrEventId == if calls == 0 then None else Some(sentId)
      invariant actions == PollActions(wait, calls, replyTo, sentId)
      invariant ending == TimedOut
    {
      actions, qrEventId := UploadQr(actions, qrEventId, replyTo, sentId);
      var outcome := wait(calls);
      calls := calls + 1;
      if outcome.QrScanned? {
        ending := Scanned(outcome.user);
        break;
      } else if outcome.QrPasswordNeeded? {
        ending := PasswordNeeded;
        break;
      } else if outcome.QrFailed? {
        ending := Failed;
        break;
      }
      retries := retries - 1;
      // the redaction follows every timeout; its failure is swallowed
      actions := actions + [RedactedQr(qrEventId.value)];
    }
    if ending.TimedOut? {
      // the loop's else branch
      actions := actions + [EditedTimedOut(qrEventId.value)];
    }
    ExitAfter(wait, calls, replyTo, sentId);
    run := QrRun(ending, calls, retries, qrEventId, actions);
  }

  /** A run whose first n - 1 calls timed out and whose n-th call ends it
      (by an outcome other than a timeout, or by spending the budget) is the
      closed-form run with n calls. */
  lemma ExitAfter(wait: nat -> WaitOutcome, n: nat, replyTo: EventId, qrId: EventId)
    requires 1 <= n <= MaxRetries
    requires forall i :: 0 <= i < n - 1 ==> wait(i).QrTimeout?
    requires n == MaxRetries || !wait(n - 1).QrTimeout?
    ensures var run := PollSpec(wait, replyTo, qrId);
      && run.waitCalls == n
      && run.ending == EndingOf(wait(n - 1))
      && run.retriesLeft == (if wait(n - 1).QrTimeout? then 0 else MaxRetries - (n - 1))
      && run.qrEventId == Some(qrId)
      && run.actions == if wait(n - 1).QrTimeout?
           then PollActions(wait, n, replyTo, qrId) + [EditedTimedOut(qrId)]
           else PollActions(wait, n - 1, replyTo, qrId) + [Upload(n - 1, replyTo, qrId)]
  {
    CallsFromPrefix(wait, 0, n);
    if !wait(n - 1).QrTimeout? {
      assert PollActions(wait, n, replyTo, qrId) + [] == PollActions(wait, n, replyTo, qrId);
    }
  }

  /** With the calls before n - 1 timed out and the n-th call ending the run,
      counting from any earlier call gives n. */
  lemma {:induction false} CallsFromPrefix(wait: nat -> WaitOutcome, i: nat, n: nat)
    requires i < n <= MaxRetries
    requires forall j :: i <= j < n - 1 ==> wait(j).QrTimeout?
    requires n == MaxRetries || !wait(n - 1).QrTimeout?
    ensures CallsFrom(wait, i) == n
    decreases n - i
  {
    if i + 1 < n {
      CallsFromPrefix(wait, i + 1, n);
    }
  }

  /** The number of timeouts among the first n calls. */
  function CountTimeouts(wait: nat -> WaitOutcome, n: nat): nat
    decreases n
  {
    if n == 0 then 0 else CountTimeouts(wait, n - 1) + (if wait(n - 1).QrTimeout? then 1 else 0)
  }

  /** How often x occurs in one iteration's actions appended to a list. */
  lemma CountAppend(prev: seq<Action>, up: Action, tail: seq<Action>, x: Action)
    ensures multiset(prev + [up] + tail)[x] == multiset(prev)[x] + (if up == x then 1 else 0) + multiset(tail)[x]
  {
    assert multiset(prev + [up] + tail) == multiset(prev) + multiset{up} + multiset(tail);
  }

  /** One iteration's step of the counts below. */
  lemma CountsStep(wait: nat -> WaitOutcome, n: nat, replyTo: EventId, qrId: EventId)
    requires n > 0
    ensures var m, prev := multiset(PollActions(wait, n, replyTo, qrId)), multiset(PollActions(wait, n - 1, replyTo, qrId));
      && m[RedactedQr(qrId)] == prev[RedactedQr(qrId)] + (if wait(n - 1).QrTimeout? then 1 else 0)
      && m[SentQr(replyTo)] == prev[SentQr(replyTo)] + (if n == 1 then 1 else 0)
      && m[EditedQr(qrId)] == prev[EditedQr(qrId)] + (if n == 1 then 0 else 1)
  {
    var prev := PollActions(wait, n - 1, replyTo, qrId);
    var up := Upload(n - 1, replyTo, qrId);
    var tail := if wait(n - 1).QrTimeout? then [RedactedQr(qrId)] else [];
    assert PollActions(wait, n, replyTo, qrId) == prev + [up] + tail;
    CountAppend(prev, up, tail, RedactedQr(qrId));
    CountAppend(prev, up, tail, SentQr(replyTo));
    CountAppend(prev, up, tail, EditedQr(qrId));
  }

  /** Every timeout is followed by exactly one redaction of the QR message,
      and every iteration uploads it exactly once: one send, then edits. */
  lemma {:induction false} RedactionsFollowTimeouts(wait: nat -> WaitOutcome, n: nat, replyTo: EventId, qrId: EventId)
    ensures multiset(PollActions(wait, n, replyTo, qrId))[RedactedQr(qrId)] == CountTimeouts(wait, n)
    ensures multiset(PollActions(wait, n, replyTo, qrId))[SentQr(replyTo)] == if n == 0 then 0 else 1
    ensures multiset(PollActions(wait, n, replyTo, qrId))[EditedQr(qrId)] == if n == 0 then 0 else n - 1
    decreases n
  {
    if n > 0 {
      RedactionsFollowTimeouts(wait, n - 1, replyTo, qrId);
      CountsStep(wait, n, replyTo, qrId);
      assert CountTimeouts(wait, n) == CountTimeouts(wait, n - 1) + (if wait(n - 1).QrTimeout? then 1 else 0);
    }
  }

  /** At most one QR message is sent, as the very first action, in reply to
      the command; every later action edits or redacts that same message. */
  lemma {:induction false} PublishedOnce(wait: nat -> WaitOutcome, n: nat, replyTo: EventId, qrId: EventId)
    requires n >= 1
    ensures var acts := PollActions(wait, n, replyTo, qrId);
      && |acts| >= n
      && acts[0] == SentQr(replyTo)
      && forall j :: 1 <= j < |acts| ==> acts[j] == EditedQr(qrId) || acts[j] == RedactedQr(qrId)
    decreases n
  {
    if n > 1 {
      PublishedOnce(wait, n - 1, replyTo, qrId);
    }
  }

  /** How a run ends, as `login_qr` promises: `wait` is called between one
      and four times and only the last call may be other than a timeout; the
      run is exhausted exactly when four calls all time out; otherwise it
      ends as the last outcome says; and `retries` lost exactly one per
      timeout. */
  lemma PollSpecEnding(wait: nat -> WaitOutcome, replyTo: EventId, qrId: EventId)
    ensures var run := PollSpec(wait, replyTo, qrId);
      && 1 <= run.waitCalls <= MaxRetries
      && (forall i :: 0 <= i < run.waitCalls - 1 ==> wait(i).QrTimeout?)
      && (run.ending.TimedOut? <==> forall i :: 0 <= i < MaxRetries ==> wait(i).QrTimeout?)
      && (!run.ending.TimedOut? ==> run.ending == EndingOf(wait(run.waitCalls - 1)))
      && run.retriesLeft == MaxRetries - CountTimeouts(wait, run.waitCalls)
  {
    var n := WaitCalls(wait);
    AllButLastTimedOut(wait, n);
    if !wait(n - 1).QrTimeout? {
      assert !(n - 1 < MaxRetries ==> wait(n - 1).QrTimeout?);
    }
  }

  /** What a run shows in the room: one QR message is sent, as the first
      action and in reply to the command; every later action edits or
      redacts it or edits in the timeout notice; and only an exhausted run
      edits in the timeout notice. */
  lemma PollSpecMessages(wait: nat -> WaitOutcome, replyTo: EventId, qrId: EventId)
    ensures var run := PollSpec(wait, replyTo, qrId);
      && run.actions[0] == SentQr(replyTo)
      && (forall j :: 1 <= j < |run.actions| ==>
            run.actions[j] == EditedQr(qrId) || run.actions[j] == RedactedQr(qrId) || run.actions[j] == EditedTimedOut(qrId))
      && (EditedTimedOut(qrId) in run.actions ==> run.ending.TimedOut?)
  {
    var run := PollSpec(wait, replyTo, qrId);
    var acts := PollActions(wait, run.waitCalls, replyTo, qrId);
    PublishedOnce(wait, run.waitCalls, replyTo, qrId);
    if !run.ending.TimedOut? {
      assert run.actions == acts by {
        assert acts + [] == acts;
      }
      assert EditedTimedOut(qrId) !in acts by {
        forall j | 0 <= j < |acts|
          ensures acts[j] != EditedTimedOut(qrId)
        {
        }
      }
    }
  }

  /** Redactions match timeouts one for one and uploads match calls, and a
      scan is the last thing a run does after its upload: no redaction
      follows it. */
  lemma PollSpecCounts(wait: nat -> WaitOutcome, replyTo: EventId, qrId: EventId)
    ensures var run := PollSpec(wait, replyTo, qrId);
      && multiset(run.actions)[RedactedQr(qrId)] == CountTimeouts(wait, run.waitCalls)
      && multiset(run.actions)[SentQr(replyTo)] == 1
      && multiset(run.actions)[EditedQr(qrId)] == run.waitCalls - 1
      && (run.ending.Scanned? ==> run.actions[|run.actions| - 1] == Upload(run.waitCalls - 1, replyTo, qrId))
  {
    var run := PollSpec(wait, replyTo, qrId);
    var n := run.waitCalls;
    var acts := PollActions(wait, n, replyTo, qrId);
    RedactionsFollowTimeouts(wait, n, replyTo, qrId);
    if !run.ending.TimedOut? {
      var last := Upload(n - 1, replyTo, qrId);
      assert !wait(n - 1).QrTimeout?;
      assert run.actions == acts by {
        assert acts + [] == acts;
      }
      assert acts == PollActions(wait, n - 1, replyTo, qrId) + [last] + [];
      assert acts[|acts| - 1] == last;
    }
  }

  /** When the calls before the last all timed out, the timeouts counted
      are those n - 1 plus the last call's own. */
  lemma {:induction false} AllButLastTimedOut(wait: nat -> WaitOutcome, n: nat)
    requires n >= 1
    requires forall i :: 0 <= i < n - 1 ==> wait(i).QrTimeout?
    ensures CountTimeouts(wait, n) == n - 1 + (if wait(n - 1).QrTimeout? then 1 else 0)
    decreases n
  {
    if n > 1 {
      AllButLastTimedOut(wait, n - 1);
    }
  }
}
