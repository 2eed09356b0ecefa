/**
 * The invocation handler behind an injected service proxy. For each
 * service method it finds, once, the position of the result handler (the
 * first parameter typed `Handler<AsyncResult<...>>`); on every call it
 * replaces that argument by a handler that hands the result to the
 * support's executor, then calls the Vert.x proxy with the same arguments.
 */
module ServiceProxy {
  import opened Wrappers
  import opened JavaLang

  const HANDLER: string := "io.vertx.core.Handler"
  const ASYNC_RESULT: string := "io.vertx.core.AsyncResult"

  /** `Handler<AsyncResult<...>>`: a parameterized `Handler` whose first type argument is a parameterized `AsyncResult`. */
  predicate IsResultHandler(t: JavaType) {
    && t.ParameterizedType? && t.raw == HANDLER && |t.args| > 0
    && t.args[0].ParameterizedType? && t.args[0].raw == ASYNC_RESULT
  }

  /** The first result handler at or after `i`, or `Integer.MIN_VALUE`. */
  function PositionFrom(types: seq<JavaType>, i: nat): (r: int)
    requires i <= |types|
    ensures r == INT_MIN || (i <= r < |types| && IsResultHandler(types[r]))
    ensures r == INT_MIN ==> forall j :: i <= j < |types| ==> !IsResultHandler(types[j])
    ensures r != INT_MIN ==> forall j :: i <= j < r ==> !IsResultHandler(types[j])
    decreases |types| - i
  {
    if i == |types| then INT_MIN
    else if IsResultHandler(types[i]) then i
    else PositionFrom(types, i + 1)
  }

  /**
   * The position of the result handler among the generic parameter types:
   * the first index holding one, or `Integer.MIN_VALUE` exactly when none does.
   */
  function HandlerPosition(types: seq<JavaType>): (r: int)
    ensures r == INT_MIN <==> forall j :: 0 <= j < |types| ==> !IsResultHandler(types[j])
    ensures r != INT_MIN ==> 0 <= r < |types| && IsResultHandler(types[r])
    ensures forall j :: 0 <= j < r ==> !IsResultHandler(types[j])
  {
    PositionFrom(types, 0)
  }

  /** `HANDLER_POSITION_FUNCTION`: the search loop over the parameter types. */
  method ComputeHandlerPosition(types: seq<JavaType>) returns (r: int)
    ensures r == HandlerPosition(types)
  {
    for i := 0 to |types|
      invariant PositionFrom(types, i) == PositionFrom(types, 0)
    {
      var t := types[i];
      if t.ParameterizedType? && t.raw == HANDLER && |t.args| > 0 {
        var eventType := t.args[0];
        if eventType.ParameterizedType? && eventType.raw == ASYNC_RESULT {
          return i;
        }
      }
    }
    return INT_MIN;
  }

  /** A reflected service method: its name and generic parameter types. */
  datatype ServiceMethod = ServiceMethod(name: string, parameterTypes: seq<JavaType>)

  /**
   * A call argument: the object the caller passed, or the handler that runs
   * `handler` on the executor when the result arrives.
   */
  datatype Argument = Passed(id: nat) | OffloadedTo(handler: Argument)

  /** The delivery options the support object configures for a service interface. */
  datatype DeliveryOptions = DeliveryOptions(id: nat)

  /** The Vert.x proxy calls are delegated to: interface, address, and delivery options when configured. */
  datatype Delegate = Delegate(serviceInterface: string, address: string, options: Option<DeliveryOptions>)

  /** One call made on the delegate. */
  datatype Invocation = Invocation(serviceMethod: ServiceMethod, args: seq<Argument>)

  /** As written, the argument is replaced only at a position above zero. */
  predicate OffloadsAsWritten(position: int) {
    position > 0
  }

  /** Any found position, zero included, gets its handler replaced. */
  predicate Offloads(position: int) {
    position >= 0
  }

  /** A result handler in first position is found, yet passed through unchanged. */
  lemma FirstHandlerNotOffloaded(types: seq<JavaType>)
    requires |types| > 0 && IsResultHandler(types[0])
    ensures HandlerPosition(types) == 0
    ensures !OffloadsAsWritten(HandlerPosition(types))
  {
  }

  /** With the intended guard, the handler is replaced exactly when the method has a result handler. */
  lemma {:induction false} OffloadsIffResultHandler(types: seq<JavaType>)
    ensures Offloads(HandlerPosition(types)) <==> exists j :: 0 <= j < |types| && IsResultHandler(types[j])
  {
    if HandlerPosition(types) != INT_MIN {
      assert IsResultHandler(types[HandlerPosition(types)]);
    }
  }

  /** The one-parameter method of the example above. */
  const PING: ServiceMethod :=
    ServiceMethod("ping", [ParameterizedType(HANDLER, [ParameterizedType(ASYNC_RESULT, [ClassType("java.lang.String")])])])

  /** `ping(Handler<AsyncResult<String>>)`: the as-written guard skips it, the intended one wraps it. */
  lemma PingResultHandler()
    ensures HandlerPosition(PING.parameterTypes) == 0
    ensures !OffloadsAsWritten(HandlerPosition(PING.parameterTypes))
    ensures Offloads(HandlerPosition(PING.parameterTypes))
  {
    FirstHandlerNotOffloaded(PING.parameterTypes);
  }

  /** Replaces `args[position]` by a handler that runs the original one on the executor; nothing else changes. */
  method OffloadHandler(args: array<Argument>, position: nat)
    requires position < args.Length
    modifies args
    ensures args[..] == old(args[..])[position := OffloadedTo(old(args[position]))]
  {
    var handler := args[position];
    args[position] := OffloadedTo(handler);
  }

  class ServiceProxyInvocationHandler {
    const delegate: Delegate
    var handlerParamPositionCache: map<ServiceMethod, int>
    /** The methods whose position was computed, in order. */
    ghost var computed: seq<ServiceMethod>
    /** The calls made on the delegate, in order. */
    var delegated: seq<Invocation>

    /**
     * Each cached position is the method's handler position, and was
     * computed exactly once: the computed methods are distinct and are the
     * cache's keys.
     */
    ghost predicate Valid()
      reads this
    {
      && (forall m :: m in handlerParamPositionCache ==> handlerParamPositionCache[m] == HandlerPosition(m.parameterTypes))
      && (forall m :: m in handlerParamPositionCache <==> m in computed)
      && (forall j, k :: 0 <= j < k < |computed| ==> computed[j] != computed[k])
    }

    /** The delegate carries delivery options iff the support configures some for the interface. */
    constructor (serviceInterface: string, address: string, defaultDeliveryOptions: Option<DeliveryOptions>)
      ensures Valid()
      ensures delegate.serviceInterface == serviceInterface && delegate.address == address
      ensures delegate.options == defaultDeliveryOptions
      ensures handlerParamPositionCache == map[] && computed == [] && delegated == []
    {
      if defaultDeliveryOptions.Some? {
        delegate := Delegate(serviceInterface, address, defaultDeliveryOptions);
      } else {
        delegate := Delegate(serviceInterface, address, None);
      }
      handlerParamPositionCache := map[];
      computed := [];
      delegated := [];
    }

    /** `computeIfAbsent(method, HANDLER_POSITION_FUNCTION)`: computed only on the method's first call. */
    method CachedPosition(m: ServiceMethod) returns (position: int)
      requires Valid()
      modifies this
      ensures Valid()
      ensures position == HandlerPosition(m.parameterTypes)
      ensures handlerParamPositionCache == old(handlerParamPositionCache)[m := position]
      ensures computed == old(computed) + (if m in old(handlerParamPositionCache) then [] else [m])
      ensures delegated == old(delegated)
    {
      if m in handlerParamPositionCache {
        position := handlerParamPositionCache[m];
      } else {
        position := ComputeHandlerPosition(m.parameterTypes);
        handlerParamPositionCache := handlerParamPositionCache[m := position];
        computed := computed + [m];
      }
    }

    /**
     * `invoke`, as written: the result handler is replaced only when its
     * position is above zero; the delegate then gets the same array.
     */
    method Invoke(m: ServiceMethod, args: array<Argument>)
      requires Valid()
      requires args.Length == |m.parameterTypes|
      modifies this, args
      ensures Valid()
      ensures handlerParamPositionCache == old(handlerParamPositionCache)[m := HandlerPosition(m.parameterTypes)]
      ensures computed == old(computed) + (if m in old(handlerParamPositionCache) then [] else [m])
      ensures var p := HandlerPosition(m.parameterTypes);
        args[..] == if OffloadsAsWritten(p) then old(args[..])[p := OffloadedTo(old(args[p]))] else old(args[..])
      ensures delegated == old(delegated) + [Invocation(m, args[..])]
    {
      var position := CachedPosition(m);
      if position > 0 {
        OffloadHandler(args, position);
      }
      delegated := delegated + [Invocation(m, args[..])];
    }

    /** `invoke` with the intended guard: a result handler in any position, the first included, is replaced. */
    method InvokeCorrected(m: ServiceMethod, args: array<Argument>)
      requires Valid()
      requires args.Length == |m.parameterTypes|
      modifies this, args
      ensures Valid()
      ensures handlerParamPositionCache == old(handlerParamPositionCache)[m := HandlerPosition(m.parameterTypes)]
      ensures computed == old(computed) + (if m in old(handlerParamPositionCache) then [] else [m])
      ensures var p := HandlerPosition(m.parameterTypes);
        args[..] == if Offloads(p) then old(args[..])[p := OffloadedTo(old(args[p]))] else old(args[..])
      ensures delegated == old(delegated) + [Invocation(m, args[..])]
    {
      var position := CachedPosition(m);
      if position >= 0 {
        OffloadHandler(args, position);
      }
      delegated := delegated + [Invocation(m, args[..])];
    }
  }
}
