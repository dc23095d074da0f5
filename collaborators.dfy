/** The drivers and SDKs the pipeline calls, as oracles: each object records the calls made
    to it, and its k-th call answers `outcomes(k)`, whatever the arguments. */
module Collaborators {
  import opened Common

  datatype SmsCall = SmsCall(to: string, body: string)

  /** pkg/sms/sms.go's Twilio client. */
  class SmsClient {
    var sent: seq<SmsCall>
    const outcomes: nat -> Outcome

    constructor (outcomes: nat -> Outcome)
      ensures this.outcomes == outcomes && sent == []
    {
      this.outcomes := outcomes;
      sent := [];
    }

    /** `SendSMS(toNumber, message)`. */
    method SendSMS(to: string, body: string) returns (err: Outcome)
      modifies this
      ensures sent == old(sent) + [SmsCall(to, body)]
      ensures err == outcomes(|old(sent)|)
    {
      err := outcomes(|sent|);
      sent := sent + [SmsCall(to, body)];
    }
  }

  datatype EmailCall = EmailCall(to: string, subject: string, body: string)

  /** pkg/email/email.go's SMTP client. */
  class EmailClient {
    var sent: seq<EmailCall>
    const outcomes: nat -> Outcome

    constructor (outcomes: nat -> Outcome)
      ensures this.outcomes == outcomes && sent == []
    {
      this.outcomes := outcomes;
      sent := [];
    }

    /** `SendEmail(to, subject, message)`. */
    method SendEmail(to: string, subject: string, body: string) returns (err: Outcome)
      modifies this
      ensures sent == old(sent) + [EmailCall(to, subject, body)]
      ensures err == outcomes(|old(sent)|)
    {
      err := outcomes(|sent|);
      sent := sent + [EmailCall(to, subject, body)];
    }
  }

  /** `time.Sleep`, recording each pause in whole seconds. */
  class Clock {
    var slept: seq<nat>

    constructor ()
      ensures slept == []
    {
      slept := [];
    }

    method Sleep(seconds: nat)
      modifies this
      ensures slept == old(slept) + [seconds]
    {
      slept := slept + [seconds];
    }
  }

  datatype ProducerMessage = ProducerMessage(topic: string, value: Bytes)

  /** The Kafka `SyncProducer` used for the dead-letter queue. */
  class SyncProducer {
    var sent: seq<ProducerMessage>
    const outcomes: nat -> Outcome

    constructor (outcomes: nat -> Outcome)
      ensures this.outcomes == outcomes && sent == []
    {
      this.outcomes := outcomes;
      sent := [];
    }

    /** `SendMessage(msg)`; the partition and offset it also returns are only logged. */
    method SendMessage(msg: ProducerMessage) returns (err: Outcome)
      modifies this
      ensures sent == old(sent) + [msg]
      ensures err == outcomes(|old(sent)|)
    {
      err := outcomes(|sent|);
      sent := sent + [msg];
    }
  }
}
