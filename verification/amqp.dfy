/**
 * The message broker as both processes see it: named durable queues holding
 * messages, and the log of acknowledgements the consumers sent back.
 * Network transport, heartbeats and redelivery timing are not modelled.
 */
module Amqp {
  import Json

  /** A message body as received: JSON text that parses to a value, or text that does not. */
  datatype Body = Parsed(value: Json.Value) | Unparseable

  /** A message with its persistence flag (delivery_mode=2 makes it persistent). */
  datatype Message = Message(body: Body, persistent: bool)

  /** What a consumer answers for one delivery, identified by its delivery tag. */
  datatype Settlement = Ack(tag: nat) | Nack(tag: nat, requeue: bool)

  class Broker {
    var queues: map<string, seq<Message>>
    var durable: set<string>
    var settlements: seq<Settlement>

    constructor ()
      ensures queues == map[] && durable == {} && settlements == []
    {
      queues, durable, settlements := map[], {}, [];
    }

    /** The messages waiting on a queue; an undeclared queue holds none. */
    function Queue(name: string): (q: seq<Message>)
      reads this
      ensures name !in queues ==> q == []
    {
      if name in queues then queues[name] else []
    }

    /** queue_declare(durable=True): idempotent, keeps any waiting messages. */
    method DeclareDurable(name: string)
      modifies this
      ensures durable == old(durable) + {name}
      ensures name in queues && Queue(name) == old(Queue(name))
      ensures forall q :: q != name ==> Queue(q) == old(Queue(q))
      ensures settlements == old(settlements)
    {
      queues := queues[name := Queue(name)];
      durable := durable + {name};
    }

    /** basic_publish on the default exchange: appends to the named queue. */
    method Publish(name: string, m: Message)
      modifies this
      ensures queues == old(queues)[name := old(Queue(name)) + [m]]
      ensures durable == old(durable) && settlements == old(settlements)
    {
      queues := queues[name := Queue(name) + [m]];
    }

    /** basic_ack / basic_nack for one delivery. */
    method Settle(s: Settlement)
      modifies this
      ensures settlements == old(settlements) + [s]
      ensures queues == old(queues) && durable == old(durable)
    {
      settlements := settlements + [s];
    }
  }
}
