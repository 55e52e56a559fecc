/**
 * The message broker as the services see it through `RabbitTemplate.convertAndSend`: an outbox of the
 * messages handed over, each with its exchange, routing key and JSON body.
 */
module Broker {
  import opened PatientModel

  /** A JSON value in a message body. */
  datatype Value =
    | Null
    | Text(text: string)
    | Time(at: Timestamp)
    | Object(fields: map<string, Value>)
    | List(items: seq<Value>)

  /** One message handed to the broker. */
  datatype Message = Message(exchange: string, routingKey: string, body: map<string, Value>)

  /** How one publish attempt ends: handed over, or an exception from JSON conversion or from the broker connection. */
  datatype SendAttempt = Delivered | ConversionFails | BrokerFails

  /** The `RabbitTemplate` shared by the services: it records every message that was handed over. */
  class Broker {
    var outbox: seq<Message>

    constructor ()
      ensures outbox == []
    {
      outbox := [];
    }

    /** `convertAndSend`: appends the message when the attempt succeeds; `ok` is false when it threw. */
    method ConvertAndSend(exchange: string, routingKey: string, body: map<string, Value>, attempt: SendAttempt)
      returns (ok: bool)
      modifies this
      ensures ok <==> attempt == Delivered
      ensures outbox == if ok then old(outbox) + [Message(exchange, routingKey, body)] else old(outbox)
    {
      ok := attempt == Delivered;
      if ok {
        outbox := outbox + [Message(exchange, routingKey, body)];
      }
    }
  }
}
