/**
 * Dispatch with the stand-alone event context: the first non-null reply
 * wins, and `fail` throws a recipient failure that stops the remaining
 * observers. The failure reaches the bus with its own code and message; an
 * observer's other exception with `OBSERVER_FAILURE_CODE`.
 */
module EventImplDispatch {
  import opened Wrappers
  import opened JavaLang
  import opened ObserverDispatch

  /** How firing ended: all observers ran, `fail` aborted it, or another exception did. */
  datatype Fired =
    | Finished(reply: Option<Value>)
    | Aborted(code: int, message: Option<string>)
    | Faulted(message: Option<string>)

  /** The reply slot after `setReply(v)`: filled only while it holds null. */
  function Slot(reply: Option<Value>, v: Option<Value>): Option<Value> {
    if reply.Some? then reply else v
  }

  /** Runs the observers in order, starting from the reply slot `reply`. */
  function Fire(actions: seq<Action>, reply: Option<Value>): Fired
    decreases |actions|
  {
    if actions == [] then Finished(reply)
    else
      match actions[0]
      case Pass => Fire(actions[1..], reply)
      case SetReply(v) => Fire(actions[1..], Slot(reply, v))
      case Fail(c, m) => Aborted(c, m)
      case Throw(m) => Faulted(m)
  }

  /** The bus outcome of a message whose selected observers are `actions`. */
  function Outcome(actions: seq<Action>): BusOutcome {
    match Fire(actions, None)
    case Finished(r) => Reply(r)
    case Aborted(c, m) => BusFailure(c, m)
    case Faulted(m) => BusFailure(OBSERVER_FAILURE_CODE, m)
  }

  /** The action stops dispatch. */
  predicate Stops(a: Action) {
    a.Fail? || a.Throw?
  }

  /** How many observers are notified: up to and including the first that stops dispatch. */
  function NotifiedCount(actions: seq<Action>): (n: nat)
    ensures n <= |actions|
    decreases |actions|
  {
    if actions == [] then 0
    else if Stops(actions[0]) then 1
    else 1 + NotifiedCount(actions[1..])
  }

  /** Observers that neither fail nor throw leave the slot holding its first non-null value. */
  lemma {:induction false} FireWithoutStop(actions: seq<Action>, reply: Option<Value>)
    requires forall j :: 0 <= j < |actions| ==> !Stops(actions[j])
    ensures Fire(actions, reply).Finished?
    ensures reply.Some? ==> Fire(actions, reply).reply == reply
    ensures (forall j :: 0 <= j < |actions| ==> actions[j].SetReply? ==> actions[j].reply.None?) ==>
      Fire(actions, reply).reply == reply
    decreases |actions|
  {
    if actions != [] {
      assert forall j :: 0 <= j < |actions[1..]| ==> actions[1..][j] == actions[j + 1];
      FireWithoutStop(actions[1..], if actions[0].SetReply? then Slot(reply, actions[0].reply) else reply);
    }
  }

  /** From the first observer that stops dispatch on, later observers change nothing. */
  lemma {:induction false} FireStopsAt(actions: seq<Action>, i: nat, reply: Option<Value>)
    requires i < |actions| && Stops(actions[i])
    requires forall j :: 0 <= j < i ==> !Stops(actions[j])
    ensures Fire(actions, reply) == Fire(actions[..i + 1], reply)
    ensures Fire(actions, reply) == if actions[i].Fail? then Aborted(actions[i].code, actions[i].message) else Faulted(actions[i].message)
    ensures NotifiedCount(actions) == i + 1
    decreases i
  {
    if i > 0 {
      assert actions[..i + 1][1..] == actions[1..][..i];
      assert actions[..i + 1][0] == actions[0];
      FireStopsAt(actions[1..], i - 1, if actions[0].SetReply? then Slot(reply, actions[0].reply) else reply);
    }
  }

  /**
   * `fail` or an exception ends dispatch: the outcome is that observer's
   * failure whatever the later observers would do, and exactly the
   * observers up to it are notified.
   */
  lemma AbortIgnoresLaterObservers(actions: seq<Action>, later: seq<Action>, i: nat)
    requires i < |actions| && Stops(actions[i])
    requires forall j :: 0 <= j < i ==> !Stops(actions[j])
    ensures Outcome(actions) == Outcome(actions[..i + 1] + later)
    ensures Outcome(actions) == if actions[i].Fail? then BusFailure(actions[i].code, actions[i].message)
                                else BusFailure(OBSERVER_FAILURE_CODE, actions[i].message)
    ensures NotifiedCount(actions) == i + 1
  {
    var both := actions[..i + 1] + later;
    assert forall j :: 0 <= j <= i ==> both[j] == actions[j];
    FireStopsAt(actions, i, None);
    FireStopsAt(both, i, None);
    assert both[..i + 1] == actions[..i + 1];
  }

  /**
   * Without failures, the first non-null reply reaches the bus: null replies
   * before it leave the slot open, and every later `setReply` is refused.
   */
  lemma FirstNonNullReplyWins(actions: seq<Action>, i: nat)
    requires forall j :: 0 <= j < |actions| ==> !Stops(actions[j])
    requires i < |actions| && actions[i].SetReply? && actions[i].reply.Some?
    requires forall j :: 0 <= j < i ==> actions[j].SetReply? ==> actions[j].reply.None?
    ensures Outcome(actions) == Reply(actions[i].reply)
    ensures NotifiedCount(actions) == |actions|
  {
    FirstNonNullAt(actions, i, None);
    AllNotified(actions);
  }

  lemma {:induction false} FirstNonNullAt(actions: seq<Action>, i: nat, reply: Option<Value>)
    requires forall j :: 0 <= j < |actions| ==> !Stops(actions[j])
    requires reply.None?
    requires i < |actions| && actions[i].SetReply? && actions[i].reply.Some?
    requires forall j :: 0 <= j < i ==> actions[j].SetReply? ==> actions[j].reply.None?
    ensures Fire(actions, reply) == Finished(actions[i].reply)
    decreases i
  {
    assert forall j :: 0 <= j < |actions[1..]| ==> actions[1..][j] == actions[j + 1];
    if i == 0 {
      FireWithoutStop(actions[1..], actions[0].reply);
    } else {
      FirstNonNullAt(actions[1..], i - 1, if actions[0].SetReply? then Slot(reply, actions[0].reply) else reply);
    }
  }

  /** Without failures every selected observer is notified. */
  lemma {:induction false} AllNotified(actions: seq<Action>)
    requires forall j :: 0 <= j < |actions| ==> !Stops(actions[j])
    ensures NotifiedCount(actions) == |actions|
    decreases |actions|
  {
    if actions != [] {
      assert forall j :: 0 <= j < |actions[1..]| ==> actions[1..][j] == actions[j + 1];
      AllNotified(actions[1..]);
    }
  }

  /** Observers that only pass or set null: the bus gets a null reply. */
  lemma NoNonNullReplyRepliesNull(actions: seq<Action>)
    requires forall j :: 0 <= j < |actions| ==> !Stops(actions[j])
    requires forall j :: 0 <= j < |actions| ==> actions[j].SetReply? ==> actions[j].reply.None?
    ensures Outcome(actions) == Reply(None)
  {
    FireWithoutStop(actions, None);
  }

  /** `fail(code, message)` always throws this exception. */
  datatype RecipientFailure = RecipientFailure(code: int, message: Option<string>)

  /** The event context. The message it wraps is fixed; only the reply slot and the log change. */
  class VertxEventImpl {
    const message: Message
    var reply: Option<Value>
    /** The warnings logged so far. */
    var warnings: seq<Warning>

    constructor (message: Message)
      ensures this.message == message && reply == None && warnings == []
      ensures GetAddress() == message.address && GetHeaders() == message.headers
      ensures GetMessageBody() == message.body && GetReplyAddress() == message.replyAddress
      ensures !IsReplied()
    {
      this.message := message;
      reply := None;
      warnings := [];
    }

    function GetAddress(): string { message.address }
    function GetHeaders(): seq<(string, string)> { message.headers }
    function GetMessageBody(): Option<Value> { message.body }
    function GetReplyAddress(): Option<string> { message.replyAddress }

    /**
     * Fills the slot only while it holds null and says whether it did; a
     * null `v` is accepted but leaves the slot open. Without a reply address
     * a warning is logged first, and a refused reply logs a second one.
     */
    method SetReply(v: Option<Value>) returns (accepted: bool)
      modifies this
      ensures accepted <==> !old(IsReplied())
      ensures IsReplied() <==> old(IsReplied()) || v.Some?
      ensures reply == Slot(old(reply), v)
      ensures warnings == old(warnings)
        + (if message.replyAddress.None? then [ReplyIgnored] else [])
        + (if accepted then [] else [ReplyAlreadySet])
    {
      if message.replyAddress.None? {
        warnings := warnings + [ReplyIgnored];
      }
      if reply.Some? {
        warnings := warnings + [ReplyAlreadySet];
        return false;
      }
      reply := v;
      accepted := true;
    }

    /** A non-null reply is held. */
    function IsReplied(): bool
      reads this
    {
      reply.Some?
    }

    /** Never returns normally: the failure it throws is given back as a value. */
    method Fail(code: int, msg: Option<string>) returns (thrown: RecipientFailure)
      ensures thrown.code == code && thrown.message == msg
    {
      thrown := RecipientFailure(code, msg);
    }
  }

  /**
   * Handles one message for `address`: a fresh context, the selected
   * observers fired in order until one fails or throws, and one bus
   * outcome. `notified` counts the observers that ran.
   */
  method Handle(address: string, message: Message, registered: seq<ObserverMethod>) returns (outcome: BusOutcome, notified: nat)
    ensures outcome == Outcome(ObserversFor(address, registered))
    ensures notified == NotifiedCount(ObserversFor(address, registered))
  {
    var actions := ObserversFor(address, registered);
    var event := new VertxEventImpl(message);
    var i := 0;
    while i < |actions|
      invariant 0 <= i <= |actions|
      invariant Fire(actions, None) == Fire(actions[i..], event.reply)
      invariant NotifiedCount(actions) == i + NotifiedCount(actions[i..])
      decreases |actions| - i
    {
      assert actions[i..][1..] == actions[i + 1..];
      match actions[i] {
        case Pass =>
        case SetReply(v) =>
          var _ := event.SetReply(v);
        case Fail(c, m) =>
          var failure := event.Fail(c, m);
          return BusFailure(failure.code, failure.message), i + 1;
        case Throw(m) =>
          return BusFailure(OBSERVER_FAILURE_CODE, m), i + 1;
      }
      i := i + 1;
    }
    outcome, notified := Reply(event.reply), i;
  }
}
