/** pkg/notification/notification.go: the channel router, the retry loop and the dead-letter push. */
module Notification {
  import opened Common
  import opened Collaborators
  import opened RetryPolicy
  import Sse
  import EventStream

  /** A value of the `metaData` map after JSON decoding: a string, or anything else. */
  datatype Value = Str(s: string) | NonString

  datatype Notification = Notification(
    id: string,
    userId: string,
    channel: string,       // "sms", "email", "inapp", or anything else
    message: string,
    status: string,        // "pending", "sent", "failed"
    createdAt: Time,
    updatedAt: Time,
    metaData: map<string, Value>)

  /** The subject of every notification e-mail. */
  const EmailSubject: string := "Thông báo từ hệ thống"

  /** What the router does with one notification: call exactly one sender with these
      arguments, or fail without calling any. */
  datatype Route =
    | ToSms(phone: string, body: string)
    | ToEmail(recipient: string, subject: string, body: string)
    | ToInApp(userId: string, message: string)
    | Rejected(error: Error)

  /** `metaData[key]` holds a non-empty string. */
  predicate HasText(metaData: map<string, Value>, key: string)
  {
    key in metaData && metaData[key].Str? && metaData[key].s != ""
  }

  /** The validation and channel choice of `SendNotification`. */
  function RouteOf(n: Notification): (r: Route)
    ensures r.ToSms? ==>
      n.channel == "sms" && "phoneNumber" in n.metaData && n.metaData["phoneNumber"] == Str(r.phone) && r.phone != "" && r.body == n.message
    ensures r.ToEmail? ==>
      && n.channel == "email" && "email" in n.metaData && n.metaData["email"] == Str(r.recipient) && r.recipient != ""
      && r.subject == EmailSubject && r.body == n.message
    ensures r.ToInApp? <==> n.channel == "inapp"
    ensures r.ToInApp? ==> r.userId == n.userId && r.message == n.message
    ensures r == Rejected(InvalidPhoneNumber) <==> n.channel == "sms" && !HasText(n.metaData, "phoneNumber")
    ensures r == Rejected(InvalidEmail) <==> n.channel == "email" && !HasText(n.metaData, "email")
    ensures r == Rejected(UnsupportedChannel(n.channel)) <==> n.channel !in {"sms", "email", "inapp"}
    ensures r.Rejected? ==> r.error in {InvalidPhoneNumber, InvalidEmail, UnsupportedChannel(n.channel)}
  {
    match n.channel
    case "sms" =>
      if HasText(n.metaData, "phoneNumber") then ToSms(n.metaData["phoneNumber"].s, n.message)
      else Rejected(InvalidPhoneNumber)
    case "email" =>
      if HasText(n.metaData, "email") then ToEmail(n.metaData["email"].s, EmailSubject, n.message)
      else Rejected(InvalidEmail)
    case "inapp" => ToInApp(n.userId, n.message)
    case _ => Rejected(UnsupportedChannel(n.channel))
  }

  /** The writer an in-app route pushes to, if its user has a stream. */
  ghost function InAppTarget(route: Route, inApp: Sse.SSEManager): set<object>
    reads inApp
  {
    if route.ToInApp? && route.userId in inApp.clients then {inApp.clients[route.userId].writer} else {}
  }

  /** The effect of one call of `SendNotification` whose route is `route`: the one sender the
      route names got one call with the route's arguments and its answer is returned; a rejected
      notification calls no sender and returns the rejection. The in-app route returns exactly
      what the SSE registry's push returns and writes the frame it writes. */
  twostate predicate Delivered(route: Route, sms: SmsClient, email: EmailClient, inApp: Sse.SSEManager,
                               err: Outcome)
    reads sms, email, inApp, InAppTarget(route, inApp)
  {
    && inApp.clients == old(inApp.clients)
    && sms.sent == old(sms.sent) + SmsCalls(route, 1)
    && email.sent == old(email.sent) + EmailCalls(route, 1)
    && match route
      case ToSms(phone, body) => err == sms.outcomes(|old(sms.sent)|)
      case ToEmail(to, subject, body) => err == email.outcomes(|old(email.sent)|)
      case ToInApp(userId, message) =>
        && (userId !in inApp.clients ==> err == Fail(NoSSEConnection(userId)))
        && (userId in inApp.clients ==> err == Pass && Sse.Pushed(inApp.clients[userId].writer, message))
      case Rejected(e) => err == Fail(e)
  }

  /** `SendNotification`: route the notification, then deliver it. */
  method SendNotification(n: Notification, sms: SmsClient, email: EmailClient, inApp: Sse.SSEManager)
    returns (err: Outcome)
    requires inApp.Valid()
    modifies sms, email, InAppTarget(RouteOf(n), inApp)
    ensures Delivered(RouteOf(n), sms, email, inApp, err)
  {
    err := Deliver(RouteOf(n), sms, email, inApp);
  }

  /** The arms of `SendNotification`'s switch, once the route is known. */
  method Deliver(route: Route, sms: SmsClient, email: EmailClient, inApp: Sse.SSEManager)
    returns (err: Outcome)
    requires inApp.Valid()
    modifies sms, email, InAppTarget(route, inApp)
    ensures Delivered(route, sms, email, inApp, err)
  {
    match route
    case ToSms(phone, body) =>
      err := sms.SendSMS(phone, body);
      assert sms.sent == old(sms.sent) + SmsCalls(route, 1);
    case ToEmail(to, subject, body) =>
      err := email.SendEmail(to, subject, body);
      assert email.sent == old(email.sent) + EmailCalls(route, 1);
    case ToInApp(userId, message) =>
      err := inApp.SendNotification(userId, message);
    case Rejected(e) =>
      err := Fail(e);
  }

  /** What the senders will answer, seen from one moment: how many calls each oracle has
      already had, its answers, and the users that have a live SSE stream. */
  datatype SenderView = SenderView(
    smsCalls: nat, smsOutcomes: nat -> Outcome,
    emailCalls: nat, emailOutcomes: nat -> Outcome,
    sseUsers: set<string>)

  ghost function ViewOf(sms: SmsClient, email: EmailClient, inApp: Sse.SSEManager): SenderView
    reads sms, email, inApp
  {
    SenderView(|sms.sent|, sms.outcomes, |email.sent|, email.outcomes, inApp.clients.Keys)
  }

  /** What attempt k of a run that started at view `v` returns, all earlier attempts having failed. */
  function AttemptOutcome(route: Route, v: SenderView, k: nat): Outcome
  {
    match route
    case ToSms(_, _) => v.smsOutcomes(v.smsCalls + k)
    case ToEmail(_, _, _) => v.emailOutcomes(v.emailCalls + k)
    case ToInApp(userId, _) => if userId in v.sseUsers then Pass else Fail(NoSSEConnection(userId))
    case Rejected(e) => Fail(e)
  }

  /** The results of every attempt `maxRetries` allows. */
  function Script(route: Route, v: SenderView, maxRetries: int): (script: seq<Outcome>)
    ensures |script| == AttemptsAllowed(maxRetries)
    ensures forall k :: 0 <= k < |script| ==> script[k] == AttemptOutcome(route, v, k)
  {
    seq(AttemptsAllowed(maxRetries), (k: int) requires 0 <= k => AttemptOutcome(route, v, k))
  }

  /** The SMS calls a run of `attempts` attempts makes. */
  function SmsCalls(route: Route, attempts: nat): seq<SmsCall>
  {
    if route.ToSms? then seq(attempts, _ => SmsCall(route.phone, route.body)) else []
  }

  function EmailCalls(route: Route, attempts: nat): seq<EmailCall>
  {
    if route.ToEmail? then seq(attempts, _ => EmailCall(route.recipient, route.subject, route.body)) else []
  }

  /** One more attempt adds one call to the routed sender and none to the other. */
  lemma CallsNext(route: Route, attempts: nat)
    ensures SmsCalls(route, attempts + 1)
      == SmsCalls(route, attempts) + (if route.ToSms? then [SmsCall(route.phone, route.body)] else [])
    ensures EmailCalls(route, attempts + 1) == EmailCalls(route, attempts)
      + (if route.ToEmail? then [EmailCall(route.recipient, route.subject, route.body)] else [])
  {
  }

  /** The messages a dead-letter push leaves on the producer. */
  function DlqMessages(encoded: Result<Bytes>, dlqTopic: string): seq<ProducerMessage>
  {
    if encoded.Ok? then [ProducerMessage(dlqTopic, encoded.value)] else []
  }

  /** `pushToDLQ`, with `json.Marshal` given as `marshal`: the encoded notification goes to
      `dlqTopic`; an encoding or send error is returned unchanged. */
  method PushToDLQ(n: Notification, producer: SyncProducer, dlqTopic: string,
                   marshal: Notification -> Result<Bytes>) returns (err: Outcome)
    modifies producer
    ensures producer.sent == old(producer.sent) + DlqMessages(marshal(n), dlqTopic)
    ensures marshal(n).Err? ==> err == Fail(marshal(n).error)
    ensures marshal(n).Ok? ==> err == producer.outcomes(|old(producer.sent)|)
  {
    var data := marshal(n);
    if data.Err? {
      return Fail(data.error);
    }
    err := producer.SendMessage(ProducerMessage(dlqTopic, data.value));
  }

  /** `ProcessNotification`: the run is `Retry(script)` for the script of what each attempt
      returns. Each attempt calls the routed sender again (a rejected notification is retried
      too, calling no sender), a failed attempt i is followed by a sleep of 2^i seconds, and only
      a run without success pushes the notification to the dead-letter topic; the result of
      that push is ignored. */
  method ProcessNotification(n: Notification, sms: SmsClient, email: EmailClient, inApp: Sse.SSEManager,
                             maxRetries: int, producer: SyncProducer, dlqTopic: string,
                             clock: Clock, marshal: Notification -> Result<Bytes>)
    returns (err: Outcome)
    requires inApp.Valid()
    modifies sms, email, producer, clock, InAppTarget(RouteOf(n), inApp)
    ensures inApp.clients == old(inApp.clients)
    ensures var run := Retry(Script(RouteOf(n), old(ViewOf(sms, email, inApp)), maxRetries));
      && err == run.result
      && clock.slept == old(clock.slept) + run.sleeps
      && sms.sent == old(sms.sent) + SmsCalls(RouteOf(n), run.attempts)
      && email.sent == old(email.sent) + EmailCalls(RouteOf(n), run.attempts)
      && producer.sent == old(producer.sent) + (if run.deadLettered then DlqMessages(marshal(n), dlqTopic) else [])
    ensures RouteOf(n).ToInApp? && n.userId in inApp.clients && maxRetries > 0 ==>
      Sse.Pushed(inApp.clients[n.userId].writer, n.message)
    ensures maxRetries <= 0 ==> unchanged(InAppTarget(RouteOf(n), inApp))
  {
    err := RetryThenDeadLetter(n, RouteOf(n), sms, email, inApp, maxRetries, producer, dlqTopic, clock, marshal);
  }

  /** A call of `SendNotification` calls at most one sender: SMS for an SMS route, e-mail for an
      e-mail route, and neither for an in-app or rejected one. */
  lemma AtMostOneSender(route: Route)
    ensures |SmsCalls(route, 1)| + |EmailCalls(route, 1)| <= 1
    ensures |SmsCalls(route, 1)| == 1 <==> route.ToSms?
    ensures |EmailCalls(route, 1)| == 1 <==> route.ToEmail?
  {
  }

  /** The notification goes to the dead-letter topic exactly when no allowed attempt succeeds. */
  lemma DeadLetteredIff(route: Route, view: SenderView, maxRetries: int)
    ensures Retry(Script(route, view, maxRetries)).deadLettered <==>
      forall k :: 0 <= k < AttemptsAllowed(maxRetries) ==> AttemptOutcome(route, view, k).Fail?
  {
    var script := Script(route, view, maxRetries);
    RetryOutcome(script);
    if !Retry(script).deadLettered {
      var k := Retry(script).attempts - 1;
      assert script[k] == AttemptOutcome(route, view, k);
    }
  }

  /** With no attempt allowed, nothing is sent or slept, the notification is dead-lettered, and
      the call returns nil. */
  lemma NoAttemptRun(route: Route, view: SenderView, maxRetries: int)
    requires maxRetries <= 0
    ensures Retry(Script(route, view, maxRetries)) == RetryRun(0, [], true, Pass)
  {
  }

  /** A notification the router rejects (a missing phone number or address, an unknown channel)
      is still retried: every allowed attempt fails with the same error, with a pause after each,
      and it ends in the dead-letter topic. */
  lemma RejectedRun(e: Error, view: SenderView, maxRetries: int)
    requires maxRetries > 0
    ensures Retry(Script(Rejected(e), view, maxRetries))
      == RetryRun(maxRetries, Backoffs(maxRetries), true, Fail(e))
  {
    RetryOutcome(Script(Rejected(e), view, maxRetries));
  }

  /** An in-app notification succeeds at the first attempt when its user has a stream, and
      otherwise fails every attempt with the "no SSE connection" error. */
  lemma InAppRun(userId: string, message: string, view: SenderView, maxRetries: int)
    requires maxRetries > 0
    ensures userId in view.sseUsers ==>
      Retry(Script(ToInApp(userId, message), view, maxRetries)) == RetryRun(1, [], false, Pass)
    ensures userId !in view.sseUsers ==>
      Retry(Script(ToInApp(userId, message), view, maxRetries))
        == RetryRun(maxRetries, Backoffs(maxRetries), true, Fail(NoSSEConnection(userId)))
  {
    RetryOutcome(Script(ToInApp(userId, message), view, maxRetries));
  }

  /** The loop state after `i` failed attempts of a run that started at `view`, when the two
      senders' logs were `smsBefore` and `emailBefore`. */
  ghost predicate AfterFailures(route: Route, view: SenderView, i: nat, sms: SmsClient, email: EmailClient,
                                inApp: Sse.SSEManager, smsBefore: seq<SmsCall>, emailBefore: seq<EmailCall>)
    reads sms, email, inApp
  {
    && sms.sent == smsBefore + SmsCalls(route, i) && |smsBefore| == view.smsCalls
    && sms.outcomes == view.smsOutcomes
    && email.sent == emailBefore + EmailCalls(route, i) && |emailBefore| == view.emailCalls
    && email.outcomes == view.emailOutcomes
    && inApp.clients.Keys == view.sseUsers && inApp.Valid()
  }

  /** The call of `SendNotification` in iteration `i` of the loop: it answers what the script
      says attempt `i` answers. */
  method Attempt(route: Route, sms: SmsClient, email: EmailClient, inApp: Sse.SSEManager,
                 ghost view: SenderView, ghost i: nat,
                 ghost smsBefore: seq<SmsCall>, ghost emailBefore: seq<EmailCall>)
    returns (err: Outcome)
    requires AfterFailures(route, view, i, sms, email, inApp, smsBefore, emailBefore)
    modifies sms, email, InAppTarget(route, inApp)
    ensures AfterFailures(route, view, i + 1, sms, email, inApp, smsBefore, emailBefore)
    ensures inApp.clients == old(inApp.clients)
    ensures err == AttemptOutcome(route, view, i)
    ensures route.ToInApp? && route.userId in inApp.clients ==>
      err.Pass? && Sse.Pushed(inApp.clients[route.userId].writer, route.message)
  {
    err := Deliver(route, sms, email, inApp);
    CallsNext(route, i);
    assert sms.sent == smsBefore + SmsCalls(route, i + 1);
    assert email.sent == emailBefore + EmailCalls(route, i + 1);
  }

  /** The sleep after failed attempt `i`: 2^i seconds, extending the backoff schedule by one. */
  method Pause(clock: Clock, i: nat, ghost clockBefore: seq<nat>)
    requires clock.slept == clockBefore + Backoffs(i)
    modifies clock
    ensures clock.slept == clockBefore + Backoffs(i + 1)
  {
    clock.Sleep(Pow2(i));
  }

  /** The loop state after `attempts` attempts and `pauses` sleeps: the senders' logs as
      `AfterFailures` says, and the clock extended by the first `pauses` backoffs. */
  ghost predicate Progress(route: Route, view: SenderView, attempts: nat, pauses: nat,
                           sms: SmsClient, email: EmailClient, inApp: Sse.SSEManager, clock: Clock,
                           smsBefore: seq<SmsCall>, emailBefore: seq<EmailCall>, clockBefore: seq<nat>)
    reads sms, email, inApp, clock
  {
    AfterFailures(route, view, attempts, sms, email, inApp, smsBefore, emailBefore)
    && clock.slept == clockBefore + Backoffs(pauses)
  }

  /** One iteration of the loop, all earlier attempts having failed: the attempt, and the
      sleep of 2^i seconds when it fails. */
  method Step(route: Route, sms: SmsClient, email: EmailClient, inApp: Sse.SSEManager, clock: Clock,
              i: nat, ghost view: SenderView, ghost smsBefore: seq<SmsCall>,
              ghost emailBefore: seq<EmailCall>, ghost clockBefore: seq<nat>)
    returns (err: Outcome)
    requires Progress(route, view, i, i, sms, email, inApp, clock, smsBefore, emailBefore, clockBefore)
    modifies sms, email, clock, InAppTarget(route, inApp)
    ensures inApp.clients == old(inApp.clients)
    ensures err == AttemptOutcome(route, view, i)
    ensures err.Pass? ==> Progress(route, view, i + 1, i, sms, email, inApp, clock, smsBefore, emailBefore, clockBefore)
    ensures err.Fail? ==> Progress(route, view, i + 1, i + 1, sms, email, inApp, clock, smsBefore, emailBefore, clockBefore)
    ensures route.ToInApp? && route.userId in inApp.clients ==>
      err.Pass? && Sse.Pushed(inApp.clients[route.userId].writer, route.message)
  {
    err := Attempt(route, sms, email, inApp, view, i, smsBefore, emailBefore);
    if err.Fail? {
      Pause(clock, i, clockBefore);
    }
  }

  /** The body of `ProcessNotification` for a notification whose route is `route`: since the
      notification never changes, every call of `SendNotification` in the loop delivers along
      this same route. */
  method RetryThenDeadLetter(n: Notification, route: Route, sms: SmsClient, email: EmailClient,
                             inApp: Sse.SSEManager, maxRetries: int, producer: SyncProducer,
                             dlqTopic: string, clock: Clock, marshal: Notification -> Result<Bytes>)
    returns (err: Outcome)
    requires inApp.Valid()
    modifies sms, email, producer, clock, InAppTarget(route, inApp)
    ensures inApp.clients == old(inApp.clients)
    ensures var run := Retry(Script(route, old(ViewOf(sms, email, inApp)), maxRetries));
      && err == run.result
      && clock.slept == old(clock.slept) + run.sleeps
      && sms.sent == old(sms.sent) + SmsCalls(route, run.attempts)
      && email.sent == old(email.sent) + EmailCalls(route, run.attempts)
      && producer.sent == old(producer.sent) + (if run.deadLettered then DlqMessages(marshal(n), dlqTopic) else [])
    ensures route.ToInApp? && route.userId in inApp.clients && maxRetries > 0 ==>
      Sse.Pushed(inApp.clients[route.userId].writer, route.message)
    ensures maxRetries <= 0 ==> unchanged(InAppTarget(route, inApp))
  {
    var delivered, sendErr := RetryLoop(route, sms, email, inApp, maxRetries, clock);
    if delivered {
      return Pass;
    }
    var dlqErr := PushToDLQ(n, producer, dlqTopic, marshal);
    err := sendErr;
  }

  /** The `for` loop of `ProcessNotification`: `delivered` says that it stopped at a
      successful attempt; `sendErr` is what the run returns. */
  method RetryLoop(route: Route, sms: SmsClient, email: EmailClient, inApp: Sse.SSEManager,
                   maxRetries: int, clock: Clock)
    returns (delivered: bool, sendErr: Outcome)
    requires inApp.Valid()
    modifies sms, email, clock, InAppTarget(route, inApp)
    ensures inApp.clients == old(inApp.clients)
    ensures var run := Retry(Script(route, old(ViewOf(sms, email, inApp)), maxRetries));
      && delivered == !run.deadLettered
      && (delivered ==> sendErr == Pass)
      && sendErr == run.result
      && clock.slept == old(clock.slept) + run.sleeps
      && sms.sent == old(sms.sent) + SmsCalls(route, run.attempts)
      && email.sent == old(email.sent) + EmailCalls(route, run.attempts)
    ensures route.ToInApp? && route.userId in inApp.clients && maxRetries > 0 ==>
      Sse.Pushed(inApp.clients[route.userId].writer, route.message)
    ensures maxRetries <= 0 ==> unchanged(InAppTarget(route, inApp))
  {
    ghost var view := ViewOf(sms, email, inApp);
    ghost var script := Script(route, view, maxRetries);
    ghost var run := Retry(script);
    assert sms.sent == sms.sent + SmsCalls(route, 0);
    assert email.sent == email.sent + EmailCalls(route, 0);
    sendErr := Pass;
    var i := 0;
    while i < maxRetries
      invariant 0 <= i <= |script|
      invariant inApp.clients == old(inApp.clients)
      invariant run == RetryFrom(script, i, sendErr)
      invariant Progress(route, view, i, i, sms, email, inApp, clock, old(sms.sent), old(email.sent), old(clock.slept))
      invariant route.ToInApp? && route.userId in inApp.clients ==> i == 0
      invariant i == 0 ==> unchanged(InAppTarget(route, inApp))
    {
      assert script[i] == AttemptOutcome(route, view, i);
      sendErr := Step(route, sms, email, inApp, clock, i, view, old(sms.sent), old(email.sent), old(clock.slept));
      if sendErr.Pass? {
        assert run == RetryRun(i + 1, Backoffs(i), false, Pass);
        return true, sendErr;
      }
      i := i + 1;
    }
    assert run == RetryRun(i, Backoffs(i), true, sendErr);
    delivered := false;
  }
}
