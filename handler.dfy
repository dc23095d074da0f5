/** cmd/main.go's `handleMessage`: decode one Kafka payload, stamp it as pending, store it,
    process it, and record the outcome in the store. */
module Handler {
  import opened Common
  import opened Collaborators
  import opened RetryPolicy
  import opened Notification
  import Sse
  import EventStream

  /** The status values the handler writes. */
  const Pending: string := "pending"
  const Sent: string := "sent"
  const Failed: string := "failed"

  /** The attempt budget and the dead-letter topic the handler passes to `ProcessNotification`. */
  const MaxRetries: int := 3
  const DlqTopic: string := "asd"

  /** One call into pkg/database/mongo.go: `InsertNotification`, or `UpdateNotificationStatus`
      (which also sets `updatedAt`). */
  datatype StoreOp =
    | Insert(record: Notification)
    | UpdateStatus(id: string, status: string, updatedAt: Time)

  /** The notifications collection, as an oracle: it records each operation, and its k-th
      operation answers `outcomes(k)`. */
  class Collection {
    var ops: seq<StoreOp>
    const outcomes: nat -> Outcome

    constructor (outcomes: nat -> Outcome)
      ensures this.outcomes == outcomes && ops == []
    {
      this.outcomes := outcomes;
      ops := [];
    }

    method InsertNotification(record: Notification) returns (err: Outcome)
      modifies this
      ensures ops == old(ops) + [Insert(record)]
      ensures err == outcomes(|old(ops)|)
    {
      err := outcomes(|ops|);
      ops := ops + [Insert(record)];
    }

    method UpdateNotificationStatus(id: string, status: string, at: Time) returns (err: Outcome)
      modifies this
      ensures ops == old(ops) + [UpdateStatus(id, status, at)]
      ensures err == outcomes(|old(ops)|)
    {
      err := outcomes(|ops|);
      ops := ops + [UpdateStatus(id, status, at)];
    }
  }

  /** The decoded notification as it is stored: pending, with both timestamps set, whatever
      the payload carried in those fields, and every other field as decoded. */
  function Stamped(n: Notification, createdAt: Time, updatedAt: Time): (m: Notification)
    ensures m.status == Pending && m.createdAt == createdAt && m.updatedAt == updatedAt
    ensures m.(status := n.status, createdAt := n.createdAt, updatedAt := n.updatedAt) == n
  {
    n.(createdAt := createdAt, updatedAt := updatedAt, status := Pending)
  }

  /** Stamping changes nothing the router looks at. */
  lemma StampedRoute(n: Notification, createdAt: Time, updatedAt: Time)
    ensures RouteOf(Stamped(n, createdAt, updatedAt)) == RouteOf(n)
  {
  }

  /** The status recorded after processing returned `result`. */
  function FinalStatus(result: Outcome): (status: string)
    ensures status == Failed <==> result.Fail?
    ensures status in {Sent, Failed}
  {
    if result.Fail? then Failed else Sent
  }

  /** The objects processing may write to: the stream of the notification's user, if it is an
      in-app notification and the user has one. */
  ghost function HandlerTarget(decoded: Option<Notification>, createdAt: Time, updatedAt: Time,
                               inApp: Sse.SSEManager): set<object>
    reads inApp
  {
    if decoded.Some? then InAppTarget(RouteOf(Stamped(decoded.value, createdAt, updatedAt)), inApp) else {}
  }

  /** `handleMessage`, with `json.Unmarshal` given as `unmarshal` and the three readings of
      the clock as `createdAt`, `updatedAt` and `statusAt`. A payload that does not decode, or a
      notification the store refuses, stops the handler before any sender is called; otherwise
      the stamped notification is processed with three attempts and the "asd" dead-letter topic,
      and one status update records "failed" or "sent"; the update's own error is ignored. */
  method HandleMessage(msg: Bytes, unmarshal: Bytes -> Option<Notification>,
                       createdAt: Time, updatedAt: Time, statusAt: Time,
                       sms: SmsClient, email: EmailClient, inApp: Sse.SSEManager, collection: Collection,
                       producer: SyncProducer, clock: Clock, marshal: Notification -> Result<Bytes>)
    requires inApp.Valid()
    modifies sms, email, producer, clock, collection, HandlerTarget(unmarshal(msg), createdAt, updatedAt, inApp)
    ensures inApp.clients == old(inApp.clients)
    ensures unmarshal(msg).None? ==>
      && collection.ops == old(collection.ops)
      && sms.sent == old(sms.sent) && email.sent == old(email.sent)
      && producer.sent == old(producer.sent) && clock.slept == old(clock.slept)
    ensures unmarshal(msg).Some? && collection.outcomes(|old(collection.ops)|).Fail? ==>
      && collection.ops == old(collection.ops) + [Insert(Stamped(unmarshal(msg).value, createdAt, updatedAt))]
      && sms.sent == old(sms.sent) && email.sent == old(email.sent)
      && producer.sent == old(producer.sent) && clock.slept == old(clock.slept)
      && unchanged(HandlerTarget(unmarshal(msg), createdAt, updatedAt, inApp))
    ensures unmarshal(msg).Some? && collection.outcomes(|old(collection.ops)|).Pass? ==>
      var n := Stamped(unmarshal(msg).value, createdAt, updatedAt);
      var run := Retry(Script(RouteOf(n), old(ViewOf(sms, email, inApp)), MaxRetries));
      && collection.ops == old(collection.ops) + [Insert(n), UpdateStatus(n.id, FinalStatus(run.result), statusAt)]
      && clock.slept == old(clock.slept) + run.sleeps
      && sms.sent == old(sms.sent) + SmsCalls(RouteOf(n), run.attempts)
      && email.sent == old(email.sent) + EmailCalls(RouteOf(n), run.attempts)
      && producer.sent == old(producer.sent) + (if run.deadLettered then DlqMessages(marshal(n), DlqTopic) else [])
    ensures unmarshal(msg).Some? && collection.outcomes(|old(collection.ops)|).Pass? ==>
      var n := Stamped(unmarshal(msg).value, createdAt, updatedAt);
      RouteOf(n).ToInApp? && n.userId in inApp.clients ==> Sse.Pushed(inApp.clients[n.userId].writer, n.message)
  {
    var decoded := unmarshal(msg);
    if decoded.None? {
      return;
    }
    var n := decoded.value;
    n := n.(createdAt := createdAt);
    n := n.(updatedAt := updatedAt);
    n := n.(status := Pending);
    var inserted := collection.InsertNotification(n);
    if inserted.Fail? {
      return;
    }
    var err := ProcessNotification(n, sms, email, inApp, MaxRetries, producer, DlqTopic, clock, marshal);
    var ignored;
    if err.Fail? {
      ignored := collection.UpdateNotificationStatus(n.id, Failed, statusAt);
    } else {
      ignored := collection.UpdateNotificationStatus(n.id, Sent, statusAt);
    }
  }

  /** With three attempts, the stored status is "failed" exactly when all three attempts failed,
      and "sent" exactly when one of them succeeded. */
  lemma HandledStatus(route: Route, view: SenderView)
    ensures var status := FinalStatus(Retry(Script(route, view, MaxRetries)).result);
      && (status == Failed <==> forall k :: 0 <= k < 3 ==> AttemptOutcome(route, view, k).Fail?)
      && (status == Sent <==> exists k :: 0 <= k < 3 && AttemptOutcome(route, view, k).Pass?)
  {
    var script := Script(route, view, MaxRetries);
    RetryFailsIff(script);
    if !(forall k :: 0 <= k < 3 ==> AttemptOutcome(route, view, k).Fail?) {
      var k :| 0 <= k < 3 && !AttemptOutcome(route, view, k).Fail?;
      assert script[k] == AttemptOutcome(route, view, k);
    }
  }
}
