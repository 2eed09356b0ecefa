/**
 * Dispatch with the event context nested in the verticle: `setReply`
 * overwrites (last write wins), `fail` records a code and a message without
 * stopping the observers, and the handler turns the recorded state into
 * one bus outcome. The stand-alone handler class calls the same accessors
 * and maps results the same way, so one handler models both.
 */
module WeldVerticleDispatch {
  import opened Wrappers
  import opened JavaLang
  import opened ObserverDispatch

  /** The mutable part of the event context. */
  datatype Recorded = Recorded(reply: Option<Value>, failureCode: Option<int>, failureMessage: Option<string>)

  const NOTHING_RECORDED: Recorded := Recorded(None, None, None)

  /** Firing the observers either completes, leaving a recorded state, or is cut short by an exception. */
  datatype Fired = Completed(state: Recorded) | Threw(message: Option<string>)

  /** Runs the observers in order over the context. */
  function Fire(actions: seq<Action>, r: Recorded): Fired
    decreases |actions|
  {
    if actions == [] then Completed(r)
    else
      match actions[0]
      case Throw(m) => Threw(m)
      case Pass => Fire(actions[1..], r)
      case SetReply(v) => Fire(actions[1..], r.(reply := v))
      case Fail(c, m) => Fire(actions[1..], r.(failureCode := Some(c), failureMessage := m))
  }

  /**
   * The handler's mapping: an exception becomes `OBSERVER_FAILURE_CODE` with
   * its message; a recorded failure becomes a failure with exactly the
   * recorded code and message; anything else is a reply with the recorded
   * value, null included.
   */
  function Outcome(actions: seq<Action>): BusOutcome {
    match Fire(actions, NOTHING_RECORDED)
    case Threw(m) => BusFailure(OBSERVER_FAILURE_CODE, m)
    case Completed(r) =>
      if r.failureCode.Some? then BusFailure(r.failureCode.value, r.failureMessage) else Reply(r.reply)
  }

  predicate NoThrow(actions: seq<Action>) {
    forall j :: 0 <= j < |actions| ==> !actions[j].Throw?
  }

  /** Firing a concatenation fires the first part, then the second from where the first left off. */
  lemma {:induction false} FireAppend(a: seq<Action>, b: seq<Action>, r: Recorded)
    ensures Fire(a + b, r) == match Fire(a, r) { case Threw(m) => Threw(m) case Completed(r') => Fire(b, r') }
    decreases |a|
  {
    if a != [] {
      assert (a + b)[0] == a[0] && (a + b)[1..] == a[1..] + b;
      match a[0]
      case Throw(_) =>
      case Pass => FireAppend(a[1..], b, r);
      case SetReply(v) => FireAppend(a[1..], b, r.(reply := v));
      case Fail(c, m) => FireAppend(a[1..], b, r.(failureCode := Some(c), failureMessage := m));
    } else {
      assert a + b == b;
    }
  }

  /** Without exceptions the observers complete; without `fail` the failure is as it was, without `setReply` the reply is. */
  lemma {:induction false} FireWithoutThrow(a: seq<Action>, r: Recorded)
    requires NoThrow(a)
    ensures Fire(a, r).Completed?
    ensures (forall j :: 0 <= j < |a| ==> !a[j].Fail?) ==>
      Fire(a, r).state.failureCode == r.failureCode && Fire(a, r).state.failureMessage == r.failureMessage
    ensures (forall j :: 0 <= j < |a| ==> !a[j].SetReply?) ==> Fire(a, r).state.reply == r.reply
    decreases |a|
  {
    if a != [] {
      assert forall j :: 0 <= j < |a[1..]| ==> a[1..][j] == a[j + 1];
      match a[0]
      case Pass => FireWithoutThrow(a[1..], r);
      case SetReply(v) => FireWithoutThrow(a[1..], r.(reply := v));
      case Fail(c, m) => FireWithoutThrow(a[1..], r.(failureCode := Some(c), failureMessage := m));
    }
  }

  /** The first exception ends dispatch: the bus gets `OBSERVER_FAILURE_CODE` with the exception's message. */
  lemma ThrowGivesObserverFailure(actions: seq<Action>, i: nat)
    requires i < |actions| && actions[i].Throw?
    requires NoThrow(actions[..i])
    ensures Outcome(actions) == BusFailure(OBSERVER_FAILURE_CODE, actions[i].message)
  {
    assert actions == actions[..i] + actions[i..];
    FireAppend(actions[..i], actions[i..], NOTHING_RECORDED);
    FireWithoutThrow(actions[..i], NOTHING_RECORDED);
  }

  /**
   * Without exceptions, a recorded failure reaches the bus even when a reply
   * was set too, and the last `fail` decides the code and the message.
   */
  lemma LastFailWins(actions: seq<Action>, i: nat)
    requires NoThrow(actions)
    requires i < |actions| && actions[i].Fail?
    requires forall j :: i < j < |actions| ==> !actions[j].Fail?
    ensures Outcome(actions) == BusFailure(actions[i].code, actions[i].message)
  {
    var rest := actions[i + 1..];
    assert actions == actions[..i] + ([actions[i]] + rest);
    assert forall j :: 0 <= j < |rest| ==> rest[j] == actions[i + 1 + j];
    assert NoThrow(actions[..i]);
    FireAppend(actions[..i], [actions[i]] + rest, NOTHING_RECORDED);
    FireWithoutThrow(actions[..i], NOTHING_RECORDED);
    var r1 := Fire(actions[..i], NOTHING_RECORDED).state;
    assert ([actions[i]] + rest)[1..] == rest;
    var r2 := r1.(failureCode := Some(actions[i].code), failureMessage := actions[i].message);
    assert Fire([actions[i]] + rest, r1) == Fire(rest, r2);
    FireWithoutThrow(rest, r2);
  }

  /** Without exceptions and failures, the last `setReply` wins, even with a null value. */
  lemma LastReplyWins(actions: seq<Action>, i: nat)
    requires NoThrow(actions)
    requires forall j :: 0 <= j < |actions| ==> !actions[j].Fail?
    requires i < |actions| && actions[i].SetReply?
    requires forall j :: i < j < |actions| ==> !actions[j].SetReply?
    ensures Outcome(actions) == Reply(actions[i].reply)
  {
    var rest := actions[i + 1..];
    assert actions == actions[..i] + ([actions[i]] + rest);
    assert forall j :: 0 <= j < |rest| ==> rest[j] == actions[i + 1 + j];
    assert forall j :: 0 <= j < i ==> actions[..i][j] == actions[j];
    FireAppend(actions[..i], [actions[i]] + rest, NOTHING_RECORDED);
    FireWithoutThrow(actions[..i], NOTHING_RECORDED);
    var r1 := Fire(actions[..i], NOTHING_RECORDED).state;
    assert ([actions[i]] + rest)[1..] == rest;
    var r2 := r1.(reply := actions[i].reply);
    assert Fire([actions[i]] + rest, r1) == Fire(rest, r2);
    FireWithoutThrow(rest, r2);
  }

  /** Observers that only pass: the bus gets a null reply. */
  lemma NothingRecordedRepliesNull(actions: seq<Action>)
    requires forall j :: 0 <= j < |actions| ==> actions[j].Pass?
    ensures Outcome(actions) == Reply(None)
  {
    FireWithoutThrow(actions, NOTHING_RECORDED);
  }

  /**
   * The event context. Address, headers, body and reply address are
   * captured from the message at construction and are constants.
   */
  class VertxEventImpl {
    const address: string
    const headers: seq<(string, string)>
    const messageBody: Option<Value>
    const replyAddress: Option<string>
    var reply: Option<Value>
    var failureCode: Option<int>
    var failureMessage: Option<string>
    /** The warnings logged so far. */
    var warnings: seq<Warning>

    constructor (message: Message)
      ensures address == message.address && headers == message.headers
      ensures messageBody == message.body && replyAddress == message.replyAddress
      ensures State() == NOTHING_RECORDED && !IsFailure() && warnings == []
    {
      address, headers, messageBody, replyAddress := message.address, message.headers, message.body, message.replyAddress;
      reply, failureCode, failureMessage := None, None, None;
      warnings := [];
    }

    function State(): Recorded
      reads this
    {
      Recorded(reply, failureCode, failureMessage)
    }

    /** Always stores the value; without a reply address it also logs that the reply will be ignored. */
    method SetReply(v: Option<Value>)
      modifies this
      ensures State() == old(State()).(reply := v)
      ensures IsFailure() == old(IsFailure())
      ensures warnings == old(warnings) + (if replyAddress.None? then [ReplyIgnored] else [])
    {
      if replyAddress.None? {
        warnings := warnings + [ReplyIgnored];
      }
      reply := v;
    }

    /** Records the code and the message, overwriting an earlier failure; dispatch goes on. */
    method Fail(code: int, message: Option<string>)
      modifies this
      ensures State() == old(State()).(failureCode := Some(code), failureMessage := message)
      ensures IsFailure()
      ensures warnings == old(warnings)
    {
      failureCode := Some(code);
      failureMessage := message;
    }

    /** A failure has been recorded. */
    function IsFailure(): bool
      reads this
    {
      failureCode.Some?
    }
  }

  /** The message handler registered for one address. */
  class VertxHandler {
    const address: string

    /** `from(vertx, event, address)`: bound to the observers selected by `@VertxConsumer(address)`. */
    constructor From(address: string)
      ensures this.address == address
    {
      this.address := address;
    }

    /**
     * One fresh event context per message; the selected observers are fired
     * once, in order, and the result becomes exactly one bus outcome.
     */
    method Handle(message: Message, registered: seq<ObserverMethod>) returns (outcome: BusOutcome)
      ensures outcome == Outcome(ObserversFor(address, registered))
    {
      var actions := ObserversFor(address, registered);
      var event := new VertxEventImpl(message);
      var i := 0;
      while i < |actions|
        invariant 0 <= i <= |actions|
        invariant Fire(actions, NOTHING_RECORDED) == Fire(actions[i..], event.State())
        decreases |actions| - i
      {
        assert actions[i..][1..] == actions[i + 1..];
        match actions[i] {
          case Throw(m) =>
            return BusFailure(OBSERVER_FAILURE_CODE, m);
          case Pass =>
          case SetReply(v) =>
            event.SetReply(v);
          case Fail(c, m) =>
            event.Fail(c, m);
        }
        i := i + 1;
      }
      if event.IsFailure() {
        outcome := BusFailure(event.failureCode.value, event.failureMessage);
      } else {
        outcome := Reply(event.reply);
      }
    }
  }
}
