# notification-service — a Dafny model of the dispatch pipeline

This project models the core of a Go notification service.

- Notifications arrive as Kafka payloads. Each is decoded, stamped as `pending`, stored in MongoDB, and then delivered.
- The router sends each notification by SMS, e-mail or an in-app server-sent-event (SSE) stream, according to its channel.
- Delivery is retried with an exponential backoff. A notification that never gets through is pushed to a dead-letter Kafka topic.
- The final `sent`/`failed` status is written back to the store.
- Two in-app registries map user ids to live connections: one for SSE streams and one for WebSockets.
- The configuration is read from environment variables.

Every external system is an oracle object that records the calls made to it. The SMS and e-mail SDKs, the sleep, the DLQ producer, the Mongo collection and a WebSocket connection all work this way. Call number k of an oracle answers `outcomes(k)`. A method contract can therefore say exactly which calls a run makes, in which order, and what it returns. Go's `error` is `Outcome` (`Pass` is nil). `(T, error)` pairs are `Result<T>`.

Modules, one per source file or concept:

- `Common`: bytes, timestamps, `Option`, `Result`, `Error`, `Outcome`.
- `Strings`: `strings.Split` on one character, with `Join` and `Count`.
- `Config`: `LoadConfig` as a function of the environment.
- `EventStream`: the `data` field of the event-stream format (section 9.2 "Server-sent events" of the WHATWG HTML Living Standard).
  - It holds the frame the SSE push writes.
  - It also holds a decoder in the way a conforming client reads a stream. This is the reference the framing is proved against.
- `Http`: the recorded state of a response writer.
- `Sse`: `SSEManager`, its `RegisterClient`/`SendNotification`, and `SSEHandler`.
- `Socket`: `ClientManager`, `RegisterClient`/`SendInApp`, and `WebSocketHandler`.
- `Collaborators`: the SMS client, e-mail client, clock and dead-letter producer.
- `RetryPolicy`: the retry loop as a pure function `Retry(script)`. Each entry of the script is what attempt i returns. It also holds the backoff schedule.
- `Notification`: the router `RouteOf`, and the methods `SendNotification`, `ProcessNotification` and `PushToDLQ`.
  - The contract of `ProcessNotification` ties the method to `Retry` applied to the script the senders' oracles determine.
- `Handler`: `handleMessage` from cmd/main.go.

The model follows the code as written, including these behaviours:

- Every send error is retried. This includes a missing phone number, a missing e-mail address and an unknown channel.
- A sleep also follows the last failed attempt.
- The e-mail address is read from `metaData["email"]`.
- With `maxRetries <= 0` the notification goes to the dead-letter topic, and the call returns nil.
- A WebSocket push to a user without a connection returns nil.
- A failed WebSocket write does not remove the connection.
- Dead-lettering is uniform: every run without a successful attempt pushes to the DLQ. This includes a rejected channel.

## Model

| member | source | states |
|---|---|---|
| Config.LoadConfig | pkg/config/config.go:20-39 | The three fields are copied from `MONGO_URI`, `SMS_API_ACCOUNT_SID` and `SMS_API_AUTH_TOKEN`. An empty `KAFKA_BROKERS` gives no brokers. Otherwise the brokers joined with `,` give back the variable, there are as many brokers as commas plus one, and no broker contains a comma. |
| Config.BrokersKeptVerbatim | pkg/config/config.go:33-36 | `"a,, b"` yields `["a", "", " b"]`: empty pieces are kept and pieces are not trimmed. |
| Strings.Split | pkg/config/config.go:35 | `strings.Split` always returns at least one piece. |
| Strings.JoinSplit | pkg/config/config.go:35 | Joining the pieces of a split with the separator restores the string. |
| Strings.SplitPiecesFree | pkg/config/config.go:35 | No piece contains the separator. |
| Strings.SplitCount | pkg/config/config.go:35 | The number of pieces is the number of separators plus one. |
| EventStream.DecodeFrames | pkg/inapp/sse.go:73-76 | A client decoding the frames of any sequence of pushes gets back exactly those messages, in order, if no message holds a line break. |
| EventStream.MultilineMessageTruncated | pkg/inapp/sse.go:74 | The message is written verbatim, not split into `data` lines. Take a message of two lines joined by one line feed, whose second line is non-empty and is not itself a `data` field. A client keeps only the first line. |
| EventStream.FramesAppend | pkg/inapp/sse.go:74 | Each push appends its own frame after what the stream already carries. |
| Sse.StreamHeaders | pkg/inapp/sse.go:37-40 | An accepted stream carries `Content-Type: text/event-stream`, `Cache-Control: no-cache`, `Connection: keep-alive` and `Access-Control-Allow-Origin: *`. Every other header is kept. |
| Sse.SSEManager.constructor | pkg/inapp/sse.go:23-25 | The global registry starts empty. |
| Sse.SSEManager.RegisterClient | pkg/inapp/sse.go:28-52 | A writer that cannot flush gets a 500 response, and the map is unchanged. Otherwise exactly the four event-stream headers are set, the status and body are untouched, and a fresh client holding the writer is installed under the user id, replacing any earlier one. Every other entry is unchanged. |
| Sse.SSEManager.ClientDone | pkg/inapp/sse.go:55-60 | The delete that follows the wait on Done: the entry is deleted by key alone, and the rest of the map stays. Deleting an absent key changes nothing. Nothing in the program closes Done, so this code is never reached (see "## Left out"). |
| Sse.SSEManager.SendNotification | pkg/inapp/sse.go:64-77 | An unregistered user gets an error, and nothing is written. A registered user's writer gets exactly `data: <message>\n\n`, flushed, with its status and headers unchanged, and nil is returned. The flush relies on the registry invariant that only flushers are registered. The client map never changes. |
| Sse.SSEHandler | pkg/inapp/sse.go:80-90 | A missing or empty `userId` gets a 400 response, and nothing is registered. Otherwise, a writer that cannot flush gets the 500 `Streaming unsupported!` response, and a flushing one gets the four event-stream headers and is registered under that id. |
| Sse.ReplacementScenario | pkg/inapp/sse.go:50-76 | After two registrations for one user, a push reaches only the newer writer. If the older stream's delete ran, it would remove the newer entry as well, because the delete is by key. |
| Socket.ClientManager.constructor | pkg/inapp/socket.go:25-27 | The global registry starts empty. |
| Socket.ClientManager.RegisterClient | pkg/inapp/socket.go:30-34 | `clients[userID] = conn`, replacing any earlier connection. Other keys are unchanged. |
| Socket.ClientManager.SendInApp | pkg/inapp/socket.go:37-56 | An unregistered user gives nil, and nothing is written. Otherwise the JSON encoding of the notification is written as one text message. An encoding or write error is returned unchanged. The map is never changed, so there is no stale-entry removal. |
| Socket.WebSocketHandler | pkg/inapp/socket.go:63-71 | A failed upgrade gets the handler's 400 error, and nothing is registered. A successful one registers the connection under the `userId` parameter, including `""`. |
| Notification.RouteOf | pkg/notification/notification.go:28-47 | `sms` needs a non-empty string `phoneNumber` and sends the message to it. `email` needs a non-empty string `email` and sends the fixed subject with the message. `inapp` pushes the message to the user. Each failed check, and every other channel, is rejected with its own error. |
| Notification.SendNotification | pkg/notification/notification.go:28-47 | Exactly the routed sender gets one call with the route's arguments, and its answer is returned. For `inapp` that is exactly what the SSE push returns and writes. A rejected notification calls no sender. The SSE map is unchanged. |
| Notification.AtMostOneSender | pkg/notification/notification.go:28-47 | One call reaches at most one sender: SMS only for an SMS route, e-mail only for an e-mail route. |
| Notification.PushToDLQ | pkg/notification/notification.go:72-87 | A marshal error is returned, and nothing is sent. Otherwise one message carrying the encoding goes to the DLQ topic, and the producer's error is returned unchanged. |
| Notification.ProcessNotification | pkg/notification/notification.go:51-69 | The result, the sleeps, the sender calls and the DLQ messages are those of `Retry` on the script the oracles determine. The DLQ push happens only when no attempt succeeded, and its result is ignored. An in-app push to a registered user writes one flushed frame and leaves its status and headers alone. With `maxRetries <= 0` the stream is not touched. |
| Notification.RetryLoop | pkg/notification/notification.go:53-62 | The loop stops at the first success. It sleeps 2^i seconds after failed attempt i. It reports whether a dead-letter push must follow, and the error to return. A registered in-app user's stream gets one flushed frame, and none when no attempt is allowed. |
| Notification.DeadLetteredIff | pkg/notification/notification.go:53-67 | The DLQ push happens if and only if every allowed attempt fails. |
| Notification.NoAttemptRun | pkg/notification/notification.go:52-67 | With `maxRetries <= 0` there is no attempt and no sleep, the DLQ push still happens, and nil is returned. |
| Notification.RejectedRun | pkg/notification/notification.go:28-67 | A rejected notification is retried `maxRetries` times with the full backoff, is dead-lettered, and returns its rejection. |
| Notification.InAppRun | pkg/notification/notification.go:43-67 | An in-app notification to a user registered when the run starts succeeds at once. Otherwise every attempt fails with the no-connection error, and the notification is dead-lettered. The registry is fixed for the whole run. |
| RetryPolicy.Backoffs | pkg/notification/notification.go:59-61 | The pause after failed attempt i is 2^i seconds. |
| RetryPolicy.BackoffTotal | pkg/notification/notification.go:53-62 | k failed attempts sleep 2^k - 1 seconds in all. |
| RetryPolicy.RetryFromOutcome | pkg/notification/notification.go:53-62 | The loop from any iteration, all earlier attempts having failed, either stops at the first success or exhausts the script. The attempts, sleeps and result are given for each case. |
| RetryPolicy.RetryOutcome | pkg/notification/notification.go:51-69 | There is a dead-letter push if and only if every attempt fails. A success stops the loop with nil and no further attempts. Exhaustion makes every attempt, sleeps after each one including the last, and returns the last error, or nil when no attempt was allowed. |
| RetryPolicy.RetryFailsIff | pkg/notification/notification.go:52-67 | An error is returned if and only if at least one attempt was made and all of them failed. |
| RetryPolicy.AllFailSleeps | pkg/notification/notification.go:53-62 | n failures sleep 1, 2, …, 2^(n-1) seconds, 2^n - 1 seconds in all. |
| Handler.Stamped | cmd/main.go:73-75 | The stored record is `pending` with both timestamps set, whatever the payload said. Every other field is as decoded. |
| Handler.StampedRoute | cmd/main.go:73-84 | Stamping changes nothing the router looks at. |
| Handler.FinalStatus | cmd/main.go:84-91 | The status is `failed` exactly when processing returned an error, and `sent` otherwise. |
| Handler.HandleMessage | cmd/main.go:67-92 | A payload that fails to decode touches nothing. A refused insert stops before processing or any update, and leaves the senders, clock, producer and in-app stream untouched. Otherwise processing runs with 3 attempts and topic `asd`, with its sender calls, sleeps, DLQ messages and in-app frame (status and headers kept). It is followed by exactly one status update, and the update's own error is ignored. |
| Handler.HandledStatus | cmd/main.go:84-91 | With three attempts, the status is `failed` if and only if all three fail, and `sent` if and only if one succeeds. |

## Left out

- Mutexes and concurrency. Each registry operation is one atomic update. The goroutine per message and the unbounded concurrency are not modelled.
- Notification.ProcessNotification: the SSE registry is fixed for the whole run, and so is `Notification.InAppRun`'s view of it. In the program, `/sse` registrations run on other goroutines. A user who connects during a backoff sleep would be reached by the next attempt; the model does not capture this.
- Nothing in the source ever closes an `SSEClient`'s `Done` channel. It is created at pkg/inapp/sse.go:46 and only waited on at line 55. So the delete at lines 58-60 never runs, and a stream stays registered after its client has gone. `Sse.SSEManager.ClientDone` models that delete as written, for the case where Done does fire.
- A write to a stream whose client has gone. The `Fprintf` error is ignored and `Flush` reports none (pkg/inapp/sse.go:74-75), so such a push still returns nil and the notification is recorded `sent`. The model's response writer never fails, so it does not capture the lost message.
- The blocking `<-client.Done` wait in `RegisterClient`. The method is split into `RegisterClient` (install) and `ClientDone` (the delete after Done fires). Other operations may run between the two.
- ProcessNotification: the backoff is the integer `2^i` seconds. The float `math.Pow` and the overflow of `time.Duration` for large i (from i = 34 on) are not modelled.
- Real time. `time.Sleep` is recorded in a `Clock`, and `time.Now` readings are parameters of `HandleMessage`.
- Logging. Every `log.Printf` is left out. The DLQ producer's partition and offset are only ever logged.
- JSON encoding and decoding. `json.Marshal` and `json.Unmarshal` are opaque functions passed as parameters.
- The external SDKs and drivers are oracles. The Twilio client (pkg/sms/sms.go), the gomail client (pkg/email/email.go), the sarama producer (pkg/kafka/producer.go) and the Mongo `InsertOne`/`UpdateOne` wrappers (pkg/database/mongo.go) each answer a given sequence of outcomes. Their SDK internals, configuration and headers are not modelled.
- The producer that pkg/kafka/producer.go returns is already closed by its deferred `Close()` (line 20). The model's producer answers whatever its outcomes say.
- The WebSocket upgrade. Its result is a parameter of `WebSocketHandler`. The `Upgrader` and its origin check are not modelled.
- `http.Error` also sets the content-type headers. The model records only the status and the body line. The model's writer keeps status 0 after a plain write, where net/http implies 200. On a failed upgrade, gorilla's `Upgrade` has already written its own error response (400, 405, 426, …), so the handler's later 400 is a superfluous header write. The model records only the handler's own error.
- The event-stream decoder handles only LF line endings and the `data` field. CR line endings, a byte-order mark, and the `event`, `id` and `retry` fields are not modelled.
- Loading the `.env` file (godotenv) and `main()`'s wiring are not modelled: connecting to MongoDB and Kafka, consuming the partition, and registering the HTTP routes. `LoadConfig` takes the environment as a map.
- Go's interface values in `metaData`. They are reduced to "a string" or "anything else".
