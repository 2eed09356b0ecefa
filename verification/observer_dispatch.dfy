/**
 * What both revisions of the event-bus dispatch share: the message, the
 * observers registered for `VertxEvent`, what an observer can do with the
 * event context, and the one outcome the bus receives.
 */
module ObserverDispatch {
  import opened Wrappers
  import opened JavaLang

  /** `OBSERVER_FAILURE_CODE`: the failure code for an observer that threw an unexpected exception. */
  const OBSERVER_FAILURE_CODE: int := 0x1B00

  /** An inbound message: address, headers (an ordered multi-map), body and the optional reply address. */
  datatype Message = Message(address: string, headers: seq<(string, string)>, body: Option<Value>, replyAddress: Option<string>)

  /** One step an observer takes with the event context. */
  datatype Action =
    | Pass                                      // returns without touching the context
    | SetReply(reply: Option<Value>)            // `setReply(v)`
    | Fail(code: int, message: Option<string>)  // `fail(code, message)`
    | Throw(message: Option<string>)            // any other exception, with its message

  /** The single outcome a message gets: `message.reply(v)` or `message.fail(code, text)`. */
  datatype BusOutcome = Reply(reply: Option<Value>) | BusFailure(code: int, message: Option<string>)

  /** An observer method of `VertxEvent`: the address of its `@VertxConsumer`, if any, and what it does with this message. */
  datatype ObserverMethod = ObserverMethod(consumer: Option<string>, action: Action)

  /**
   * An event fired with the qualifier `@VertxConsumer(address)` reaches the
   * observers whose qualifiers it carries: those declaring that address and
   * those declaring no `@VertxConsumer` at all.
   */
  predicate Notified(o: ObserverMethod, address: string) {
    o.consumer.None? || o.consumer == Some(address)
  }

  /** The observers a handler bound to `address` fires, in registration order. */
  function ObserversFor(address: string, registered: seq<ObserverMethod>): seq<Action>
  {
    if registered == [] then []
    else
      var head := if Notified(registered[0], address) then [registered[0].action] else [];
      head + ObserversFor(address, registered[1..])
  }

  /**
   * Every observer qualified with the handler's address is fired, every
   * fired action belongs to a notified observer, and an observer of another
   * address is never fired.
   */
  lemma {:induction false} ObserversForSelects(address: string, registered: seq<ObserverMethod>)
    ensures forall o :: o in registered && o.consumer == Some(address) ==> o.action in ObserversFor(address, registered)
    ensures forall a :: a in ObserversFor(address, registered) ==>
      exists o :: o in registered && Notified(o, address) && o.action == a
    ensures (forall o :: o in registered ==> !Notified(o, address)) ==> ObserversFor(address, registered) == []
  {
    if registered != [] {
      ObserversForSelects(address, registered[1..]);
      assert registered == [registered[0]] + registered[1..];
    }
  }

  /** A message sent without a reply handler. */
  predicate NoReplyHandler(m: Message) {
    m.replyAddress.None?
  }

  /** What the event contexts log: a reply set on a message without reply handler, or set twice. */
  datatype Warning = ReplyIgnored | ReplyAlreadySet
}
