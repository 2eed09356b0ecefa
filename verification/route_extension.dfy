/**
 * The extension that turns `@WebRoute` declarations into router routes.
 * During type discovery it keeps handler classes and route observer
 * methods; `registerRoutes` then adds, in that order, the routes of every
 * handler class (one handler instance each) and of every route observer.
 * The router is the log of the routes added to it.
 */
module RouteExtension {
  import opened Wrappers
  import opened JavaLang
  import opened VertxHttp
  import opened WebRouteAnnotation

  const HANDLER: string := "io.vertx.core.Handler"
  const ROUTING_CONTEXT: string := "io.vertx.ext.web.RoutingContext"

  /** What a route calls: the instance created for a handler class, or the observers qualified with an id. */
  datatype HandlerRef = HandlerObject(serial: nat) | ObserverHandler(id: nat)

  /**
   * How the route matches paths: `router.routeWithRegex(regex)`,
   * `router.route(path)` (Vert.x matches the path exactly, or as a prefix
   * when it ends in `*`), or `router.route()` for every path.
   */
  datatype PathKind = RegexPath(regex: string) | Path(path: string) | AnyPath

  /** How the handler is attached to the route. */
  datatype Registration =
    | RequestHandler(handler: HandlerRef)
    | BlockingHandler(handler: HandlerRef, ordered: bool)
    | FailureHandler(handler: HandlerRef)

  /** A configured route: path, methods, order if set, produced and consumed types, handler. */
  datatype RouteSpec = RouteSpec(
    path: PathKind,
    methods: seq<HttpMethod>,
    order: Option<int>,
    produces: seq<string>,
    consumes: seq<string>,
    registration: Registration)

  /** A non-empty regex wins, then a non-empty path; with both empty the route matches everything. */
  function PathOf(w: WebRoute): (p: PathKind)
    ensures p.RegexPath? <==> w.regex != ""
    ensures p.Path? <==> w.regex == "" && w.value != ""
    ensures p.AnyPath? <==> w.regex == "" && w.value == ""
    ensures p.RegexPath? ==> p.regex == w.regex
    ensures p.Path? ==> p.path == w.value
  {
    if w.regex != "" then RegexPath(w.regex)
    else if w.value != "" then Path(w.value)
    else AnyPath
  }

  /** `NORMAL` is a request handler, `BLOCKING` a blocking handler that may run in parallel, `FAILURE` a failure handler. */
  function RegistrationOf(t: HandlerType, h: HandlerRef): (r: Registration)
    ensures r.handler == h
    ensures r.RequestHandler? <==> t == NORMAL
    ensures r.BlockingHandler? <==> t == BLOCKING
    ensures r.FailureHandler? <==> t == FAILURE
    ensures r.BlockingHandler? ==> !r.ordered
  {
    match t
    case NORMAL => RequestHandler(h)
    case BLOCKING => BlockingHandler(h, false)
    case FAILURE => FailureHandler(h)
  }

  /** The route `addRoute` configures for `w`; the order is applied only when it is not `Integer.MIN_VALUE`. */
  function Translate(w: WebRoute, h: HandlerRef): (r: RouteSpec)
    ensures r.order.Some? <==> w.order != ORDER_UNSET
    ensures r.order.Some? ==> r.order.value == w.order
  {
    RouteSpec(PathOf(w), w.methods, if w.order != ORDER_UNSET then Some(w.order) else None,
      w.produces, w.consumes, RegistrationOf(w.handlerType, h))
  }

  /** The routes of several declarations sharing one handler, in declaration order. */
  function RoutesFor(ws: seq<WebRoute>, h: HandlerRef): (r: seq<RouteSpec>)
    ensures |r| == |ws|
  {
    seq(|ws|, k requires 0 <= k < |ws| => Translate(ws[k], h))
  }

  lemma RoutesForAppend(ws: seq<WebRoute>, i: nat, h: HandlerRef)
    requires i < |ws|
    ensures RoutesFor(ws[..i + 1], h) == RoutesFor(ws[..i], h) + [Translate(ws[i], h)]
  {
  }

  /** The router: the routes added to it, in order. */
  class Router {
    var routes: seq<RouteSpec>

    constructor ()
      ensures routes == []
    {
      routes := [];
    }

    method Add(spec: RouteSpec)
      modifies this
      ensures routes == old(routes) + [spec]
    {
      routes := routes + [spec];
    }
  }

  /**
   * `addRoute`: picks the path, adds each method, produced and consumed
   * type in declaration order, sets the order unless unset, attaches the
   * handler by kind, and leaves exactly that route on the router.
   */
  method AddRoute(router: Router, handler: HandlerRef, w: WebRoute)
    modifies router
    ensures router.routes == old(router.routes) + [Translate(w, handler)]
  {
    var path;
    if w.regex != "" {
      path := RegexPath(w.regex);
    } else if w.value != "" {
      path := Path(w.value);
    } else {
      path := AnyPath;
    }
    var methods: seq<HttpMethod> := [];
    if |w.methods| > 0 {
      for i := 0 to |w.methods|
        invariant methods == w.methods[..i]
      {
        methods := methods + [w.methods[i]];
      }
    }
    var order: Option<int> := None;
    if w.order != ORDER_UNSET {
      order := Some(w.order);
    }
    var produces: seq<string> := [];
    if |w.produces| > 0 {
      for i := 0 to |w.produces|
        invariant produces == w.produces[..i]
      {
        produces := produces + [w.produces[i]];
      }
    }
    var consumes: seq<string> := [];
    if |w.consumes| > 0 {
      for i := 0 to |w.consumes|
        invariant consumes == w.consumes[..i]
      {
        consumes := consumes + [w.consumes[i]];
      }
    }
    var registration;
    match w.handlerType {
      case NORMAL => registration := RequestHandler(handler);
      case BLOCKING => registration := BlockingHandler(handler, false);
      case FAILURE => registration := FailureHandler(handler);
    }
    assert methods == w.methods && produces == w.produces && consumes == w.consumes;
    router.Add(RouteSpec(path, methods, order, produces, consumes, registration));
  }

  /** The annotations of a class or method: a single `@WebRoute`, the `@WebRoutes` container, both or neither. */
  datatype Annotated = Annotated(webRoute: Option<WebRoute>, webRoutes: Option<seq<WebRoute>>)

  /** `isWebRoute`. */
  predicate IsWebRoute(a: Annotated) {
    a.webRoute.Some? || a.webRoutes.Some?
  }

  /** `getWebRoutes`: the single annotation, else the container's routes, else none. */
  function GetWebRoutes(a: Annotated): (r: seq<WebRoute>)
    ensures a.webRoute.Some? ==> r == [a.webRoute.value]
    ensures a.webRoute.None? && a.webRoutes.Some? ==> r == a.webRoutes.value
    ensures r != [] ==> IsWebRoute(a)
  {
    if a.webRoute.Some? then [a.webRoute.value]
    else if a.webRoutes.Some? then a.webRoutes.value
    else []
  }

  /** A method of a discovered type: its generic signature, annotations, and which parameters are `@Observes`. */
  datatype AnnotatedMethod = AnnotatedMethod(signature: string, annotations: Annotated, parameterObserves: seq<bool>)

  /**
   * A discovered type: its annotations, whether its class is top-level or
   * static nested, its type closure, and its methods.
   */
  datatype AnnotatedType = AnnotatedType(
    annotations: Annotated,
    topLevelOrStaticNested: bool,
    typeClosure: seq<JavaType>,
    methods: seq<AnnotatedMethod>)

  /** `Handler<RoutingContext>`. */
  predicate IsRoutingContextHandler(t: JavaType) {
    t.ParameterizedType? && t.raw == HANDLER && |t.args| == 1 && t.args[0] == ClassType(ROUTING_CONTEXT)
  }

  /** A class that may serve as route handler. */
  predicate RouteHandler(t: AnnotatedType) {
    t.topLevelOrStaticNested && exists k :: 0 <= k < |t.typeClosure| && IsRoutingContextHandler(t.typeClosure[k])
  }

  /** `isRouteHandler`: inner classes and classes not implementing `Handler<RoutingContext>` are refused. */
  method IsRouteHandler(t: AnnotatedType) returns (r: bool)
    ensures r <==> RouteHandler(t)
  {
    if !t.topLevelOrStaticNested {
      return false;
    }
    for k := 0 to |t.typeClosure|
      invariant forall j :: 0 <= j < k ==> !IsRoutingContextHandler(t.typeClosure[j])
    {
      var ty := t.typeClosure[k];
      if ty.ParameterizedType? && ty.raw == HANDLER {
        if |ty.args| == 1 && ty.args[0] == ClassType(ROUTING_CONTEXT) {
          return true;
        }
      }
    }
    return false;
  }

  /** Some parameter of the method is `@Observes`. */
  predicate ObservesEvent(m: AnnotatedMethod) {
    exists k :: 0 <= k < |m.parameterObserves| && m.parameterObserves[k]
  }

  /** `hasEventParameter`. */
  method HasEventParameter(m: AnnotatedMethod) returns (r: bool)
    ensures r <==> ObservesEvent(m)
  {
    for k := 0 to |m.parameterObserves|
      invariant forall j :: 0 <= j < k ==> !m.parameterObserves[j]
    {
      if m.parameterObserves[k] {
        return true;
      }
    }
    return false;
  }

  /** A handler class kept for registration. */
  predicate HandlerClass(t: AnnotatedType) {
    IsWebRoute(t.annotations) && RouteHandler(t)
  }

  /** A method kept as route observer: it declares routes and observes an event. */
  predicate RouteObserverMethod(m: AnnotatedMethod) {
    GetWebRoutes(m.annotations) != [] && ObservesEvent(m)
  }

  /** The route observer methods among `ms`, in order. */
  function RouteObserverMethods(ms: seq<AnnotatedMethod>): (r: seq<AnnotatedMethod>)
    ensures |r| <= |ms|
    decreases |ms|
  {
    if ms == [] then []
    else
      var last := ms[|ms| - 1];
      RouteObserverMethods(ms[..|ms| - 1]) + (if RouteObserverMethod(last) then [last] else [])
  }

  /** The filter keeps exactly the route observer methods: no method without routes or without `@Observes` is kept. */
  lemma {:induction false} RouteObserverMethodsExactly(ms: seq<AnnotatedMethod>)
    ensures forall m :: m in RouteObserverMethods(ms) <==> m in ms && RouteObserverMethod(m)
    decreases |ms|
  {
    if ms != [] {
      RouteObserverMethodsExactly(ms[..|ms| - 1]);
      assert ms == ms[..|ms| - 1] + [ms[|ms| - 1]];
    }
  }

  /** An accepted observer method with its id and routes. */
  datatype RouteObserver = RouteObserver(id: nat, webRoutes: seq<WebRoute>)

  /** The observers created for `ms`, ids handed out from `first` on. */
  function NumberedObservers(ms: seq<AnnotatedMethod>, first: nat): (r: seq<RouteObserver>)
    ensures |r| == |ms|
  {
    seq(|ms|, k requires 0 <= k < |ms| => RouteObserver(first + k, GetWebRoutes(ms[k].annotations)))
  }

  /** A handler instance: the serial of its creation and the class it was produced for. */
  datatype HandlerInstance = HandlerInstance(serial: nat, handlerType: AnnotatedType)

  /** The handler classes that declare at least one route, in discovery order. */
  function WithRoutes(types: seq<AnnotatedType>): (r: seq<AnnotatedType>)
    ensures |r| <= |types|
    decreases |types|
  {
    if types == [] then []
    else
      var last := types[|types| - 1];
      WithRoutes(types[..|types| - 1]) + (if GetWebRoutes(last.annotations) != [] then [last] else [])
  }

  /** Exactly the handler classes with routes get an instance. */
  lemma {:induction false} WithRoutesExactly(types: seq<AnnotatedType>)
    ensures forall t :: t in WithRoutes(types) <==> t in types && GetWebRoutes(t.annotations) != []
    decreases |types|
  {
    if types != [] {
      WithRoutesExactly(types[..|types| - 1]);
      assert types == types[..|types| - 1] + [types[|types| - 1]];
    }
  }

  /** The instances `registerRoutes` creates, serials from `first` on. */
  function NewInstances(types: seq<AnnotatedType>, first: nat): (r: seq<HandlerInstance>)
    ensures |r| == |WithRoutes(types)|
  {
    var kept := WithRoutes(types);
    seq(|kept|, k requires 0 <= k < |kept| => HandlerInstance(first + k, kept[k]))
  }

  /** The routes of the handler classes, each class's routes calling its own instance. */
  function HandlerTypeRoutes(types: seq<AnnotatedType>, first: nat): seq<RouteSpec>
    decreases |types|
  {
    if types == [] then []
    else
      var init := types[..|types| - 1];
      HandlerTypeRoutes(init, first)
        + RoutesFor(GetWebRoutes(types[|types| - 1].annotations), HandlerObject(first + |WithRoutes(init)|))
  }

  /** The routes of the route observers, each calling the observers qualified with its id. */
  function ObserverRoutes(observers: seq<RouteObserver>): seq<RouteSpec>
    decreases |observers|
  {
    if observers == [] then []
    else
      var last := observers[|observers| - 1];
      ObserverRoutes(observers[..|observers| - 1]) + RoutesFor(last.webRoutes, ObserverHandler(last.id))
  }

  lemma {:induction false} HandlerTypeRoutesCallInstances(types: seq<AnnotatedType>, first: nat)
    ensures forall r :: r in HandlerTypeRoutes(types, first) ==> r.registration.handler.HandlerObject?
    decreases |types|
  {
    if types != [] {
      HandlerTypeRoutesCallInstances(types[..|types| - 1], first);
    }
  }

  lemma {:induction false} ObserverRoutesCallObservers(observers: seq<RouteObserver>)
    ensures forall r :: r in ObserverRoutes(observers) ==> r.registration.handler.ObserverHandler?
    decreases |observers|
  {
    if observers != [] {
      ObserverRoutesCallObservers(observers[..|observers| - 1]);
    }
  }

  /** Every route of a handler class precedes every route of an observer method. */
  lemma HandlerRoutesFirst(types: seq<AnnotatedType>, first: nat, observers: seq<RouteObserver>)
    ensures var all := HandlerTypeRoutes(types, first) + ObserverRoutes(observers);
      forall j, k :: 0 <= j < k < |all| && all[j].registration.handler.ObserverHandler? ==>
        all[k].registration.handler.ObserverHandler?
  {
    HandlerTypeRoutesCallInstances(types, first);
    ObserverRoutesCallObservers(observers);
    var hs := HandlerTypeRoutes(types, first);
    var all := hs + ObserverRoutes(observers);
    assert forall j :: 0 <= j < |hs| ==> all[j] == hs[j] && all[j].registration.handler.HandlerObject?;
    forall j, k | 0 <= j < k < |all| && all[j].registration.handler.ObserverHandler?
      ensures all[k].registration.handler.ObserverHandler?
    {
      assert all[k] == ObserverRoutes(observers)[k - |hs|];
    }
  }

  /** The signatures of some methods. */
  function Signatures(ms: seq<AnnotatedMethod>): set<string> {
    set m | m in ms :: m.signature
  }

  lemma SignaturesAppend(ms: seq<AnnotatedMethod>, m: AnnotatedMethod)
    ensures Signatures(ms + [m]) == Signatures(ms) + {m.signature}
  {
  }

  /**
   * The id each signature is mapped to when the methods are put in order:
   * a later method with the same signature replaces the earlier entry.
   */
  function ObserverIds(ms: seq<AnnotatedMethod>, first: nat): map<string, nat>
    decreases |ms|
  {
    if ms == [] then map[]
    else ObserverIds(ms[..|ms| - 1], first)[ms[|ms| - 1].signature := first + |ms| - 1]
  }

  /** No method after `ms[k]` has its signature. */
  predicate LastWithSignature(ms: seq<AnnotatedMethod>, k: nat)
    requires k < |ms|
  {
    forall j :: k < j < |ms| ==> ms[j].signature != ms[k].signature
  }

  /**
   * The signature of each route observer method is mapped to the id of the
   * observer created for it (the last such method when signatures repeat).
   */
  predicate Wired(ms: seq<AnnotatedMethod>, configured: map<string, nat>, observers: seq<RouteObserver>) {
    forall k :: 0 <= k < |ms| && k < |observers| && LastWithSignature(ms, k) ==>
      ms[k].signature in configured && configured[ms[k].signature] == observers[k].id
  }

  lemma ObserverIdsAppend(ms: seq<AnnotatedMethod>, m: AnnotatedMethod, first: nat)
    ensures ObserverIds(ms + [m], first) == ObserverIds(ms, first)[m.signature := first + |ms|]
  {
    assert (ms + [m])[..|ms|] == ms;
  }

  /** The map holds exactly the signatures of the methods. */
  lemma {:induction false} ObserverIdsKeys(ms: seq<AnnotatedMethod>, first: nat)
    ensures ObserverIds(ms, first).Keys == Signatures(ms)
    decreases |ms|
  {
    if ms != [] {
      var init, last := ms[..|ms| - 1], ms[|ms| - 1];
      ObserverIdsKeys(init, first);
      assert ms == init + [last];
      SignaturesAppend(init, last);
    }
  }

  /** Every id in the map is one handed out for the methods. */
  lemma {:induction false} ObserverIdsRange(ms: seq<AnnotatedMethod>, first: nat)
    ensures forall s :: s in ObserverIds(ms, first) ==> first <= ObserverIds(ms, first)[s] < first + |ms|
    decreases |ms|
  {
    if ms != [] {
      ObserverIdsRange(ms[..|ms| - 1], first);
    }
  }

  /** The last method with a signature is mapped to its own id. */
  lemma {:induction false} ObserverIdsLast(ms: seq<AnnotatedMethod>, first: nat, k: nat)
    requires k < |ms| && LastWithSignature(ms, k)
    ensures ms[k].signature in ObserverIds(ms, first) && ObserverIds(ms, first)[ms[k].signature] == first + k
    decreases |ms|
  {
    var init, last := ms[..|ms| - 1], ms[|ms| - 1];
    if k < |init| {
      assert last.signature != ms[k].signature;
      assert init[k] == ms[k];
      assert LastWithSignature(init, k) by {
        forall j | k < j < |init| ensures init[j].signature != init[k].signature {
          assert init[j] == ms[j];
        }
      }
      ObserverIdsLast(init, first, k);
    }
  }

  /**
   * Every signature is mapped to an id handed out for the methods, and the
   * last method with a signature is mapped to its own id.
   */
  lemma ObserverIdsWiring(ms: seq<AnnotatedMethod>, first: nat)
    ensures ObserverIds(ms, first).Keys == Signatures(ms)
    ensures forall s :: s in ObserverIds(ms, first) ==> first <= ObserverIds(ms, first)[s] < first + |ms|
    ensures forall k :: 0 <= k < |ms| && LastWithSignature(ms, k) ==> ObserverIds(ms, first)[ms[k].signature] == first + k
  {
    ObserverIdsKeys(ms, first);
    ObserverIdsRange(ms, first);
    forall k | 0 <= k < |ms| && LastWithSignature(ms, k)
      ensures ObserverIds(ms, first)[ms[k].signature] == first + k
    {
      ObserverIdsLast(ms, first, k);
    }
  }

  lemma RouteObserverMethodsStep(ms: seq<AnnotatedMethod>, i: nat)
    requires i < |ms|
    ensures RouteObserverMethods(ms[..i + 1])
      == RouteObserverMethods(ms[..i]) + (if RouteObserverMethod(ms[i]) then [ms[i]] else [])
  {
    assert ms[..i + 1][..i] == ms[..i];
  }

  lemma NumberedObserversAppend(ms: seq<AnnotatedMethod>, m: AnnotatedMethod, first: nat)
    ensures NumberedObservers(ms + [m], first)
      == NumberedObservers(ms, first) + [RouteObserver(first + |ms|, GetWebRoutes(m.annotations))]
  {
  }

  lemma WithRoutesStep(types: seq<AnnotatedType>, i: nat)
    requires i < |types|
    ensures WithRoutes(types[..i + 1])
      == WithRoutes(types[..i]) + (if GetWebRoutes(types[i].annotations) != [] then [types[i]] else [])
  {
    assert types[..i + 1][..i] == types[..i];
  }

  lemma HandlerTypeRoutesStep(types: seq<AnnotatedType>, i: nat, first: nat)
    requires i < |types|
    ensures HandlerTypeRoutes(types[..i + 1], first) == HandlerTypeRoutes(types[..i], first)
      + RoutesFor(GetWebRoutes(types[i].annotations), HandlerObject(first + |WithRoutes(types[..i])|))
  {
    var prefix := types[..i + 1];
    assert prefix[..|prefix| - 1] == types[..i];
    assert prefix[|prefix| - 1] == types[i];
  }

  lemma NewInstancesStep(types: seq<AnnotatedType>, i: nat, first: nat, has: bool)
    requires i < |types| && has == (GetWebRoutes(types[i].annotations) != [])
    ensures NewInstances(types[..i + 1], first) == NewInstances(types[..i], first)
      + (if has then [HandlerInstance(first + |WithRoutes(types[..i])|, types[i])] else [])
  {
    WithRoutesStep(types, i);
    var before, after := WithRoutes(types[..i]), WithRoutes(types[..i + 1]);
    var extra := if has then [HandlerInstance(first + |before|, types[i])] else [];
    var lhs, rhs := NewInstances(types[..i + 1], first), NewInstances(types[..i], first) + extra;
    assert |lhs| == |rhs|;
    forall k | 0 <= k < |lhs|
      ensures lhs[k] == rhs[k]
    {
      assert after[k] == (before + (if has then [types[i]] else []))[k];
    }
  }

  /** One more class processed: its routes follow those of the classes before it. */
  lemma HandlerRoutesProcessed(types: seq<AnnotatedType>, i: nat, first: nat,
                               baseRoutes: seq<RouteSpec>, routes: seq<RouteSpec>, created: nat)
    requires i < |types|
    requires created == first + |WithRoutes(types[..i])|
    requires routes == baseRoutes + HandlerTypeRoutes(types[..i], first)
      + RoutesFor(GetWebRoutes(types[i].annotations), HandlerObject(created))
    ensures routes == baseRoutes + HandlerTypeRoutes(types[..i + 1], first)
  {
    HandlerTypeRoutesStep(types, i, first);
  }

  /** One more class processed: the instances and their count extend to `types[..i + 1]`. */
  lemma HandlerInstancesProcessed(types: seq<AnnotatedType>, i: nat, first: nat,
                                  baseInstances: seq<HandlerInstance>, instances: seq<HandlerInstance>, created: nat)
    requires i < |types|
    requires created == first + |WithRoutes(types[..i])|
    requires instances == baseInstances + NewInstances(types[..i], first)
      + (if GetWebRoutes(types[i].annotations) != [] then [HandlerInstance(created, types[i])] else [])
    ensures instances == baseInstances + NewInstances(types[..i + 1], first)
    ensures created + (if GetWebRoutes(types[i].annotations) != [] then 1 else 0) == first + |WithRoutes(types[..i + 1])|
  {
    WithRoutesStep(types, i);
    NewInstancesStep(types, i, first, GetWebRoutes(types[i].annotations) != []);
  }

  lemma ObserverRoutesStep(observers: seq<RouteObserver>, i: nat)
    requires i < |observers|
    ensures ObserverRoutes(observers[..i + 1])
      == ObserverRoutes(observers[..i]) + RoutesFor(observers[i].webRoutes, ObserverHandler(observers[i].id))
  {
    assert observers[..i + 1][..i] == observers[..i];
  }

  /** Observer ids increase, hence are distinct, and stay below `bound`; every observer declares routes. */
  predicate ObserversNumbered(observers: seq<RouteObserver>, bound: nat) {
    && (forall k :: 0 <= k < |observers| ==> observers[k].id < bound && observers[k].webRoutes != [])
    && (forall j, k :: 0 <= j < k < |observers| ==> observers[j].id < observers[k].id)
  }

  /** Instance serials increase, hence are distinct, and stay below `bound`. */
  predicate InstancesNumbered(instances: seq<HandlerInstance>, bound: nat) {
    && (forall k :: 0 <= k < |instances| ==> instances[k].serial < bound)
    && (forall j, k :: 0 <= j < k < |instances| ==> instances[j].serial < instances[k].serial)
  }

  /** Observers numbered from the current bound on keep the numbering. */
  lemma ObserversExtend(observers: seq<RouteObserver>, bound: nat, ms: seq<AnnotatedMethod>)
    requires ObserversNumbered(observers, bound)
    requires forall k :: 0 <= k < |ms| ==> RouteObserverMethod(ms[k])
    ensures ObserversNumbered(observers + NumberedObservers(ms, bound), bound + |ms|)
  {
  }

  /** Instances created from the current bound on keep the numbering. */
  lemma InstancesExtend(instances: seq<HandlerInstance>, bound: nat, types: seq<AnnotatedType>)
    requires InstancesNumbered(instances, bound)
    ensures InstancesNumbered(instances + NewInstances(types, bound), bound + |WithRoutes(types)|)
  {
  }

  /** One more method examined: a route observer method extends the observers and the map by its next id. */
  lemma RouteObserverCollected(methods: seq<AnnotatedMethod>, i: nat, first: nat,
                               observers: seq<RouteObserver>, configured: map<string, nat>)
    requires i < |methods|
    requires observers == NumberedObservers(RouteObserverMethods(methods[..i]), first)
    requires configured == ObserverIds(RouteObserverMethods(methods[..i]), first)
    ensures var m, id := methods[i], first + |observers|;
      && (RouteObserverMethod(m) ==>
           && observers + [RouteObserver(id, GetWebRoutes(m.annotations))] == NumberedObservers(RouteObserverMethods(methods[..i + 1]), first)
           && configured[m.signature := id] == ObserverIds(RouteObserverMethods(methods[..i + 1]), first))
      && (!RouteObserverMethod(m) ==>
           && observers == NumberedObservers(RouteObserverMethods(methods[..i + 1]), first)
           && configured == ObserverIds(RouteObserverMethods(methods[..i + 1]), first))
  {
    var kept := RouteObserverMethods(methods[..i]);
    RouteObserverMethodsStep(methods, i);
    if RouteObserverMethod(methods[i]) {
      NumberedObserversAppend(kept, methods[i], first);
      ObserverIdsAppend(kept, methods[i], first);
    } else {
      assert kept + [] == kept;
    }
  }

  /** The observers collected from a type extend the numbered ones and keep their wiring once appended. */
  lemma ObserversAdded(methods: seq<AnnotatedMethod>, base: seq<RouteObserver>, bound: nat,
                       observers: seq<RouteObserver>, configured: map<string, nat>)
    requires ObserversNumbered(base, bound)
    requires observers == NumberedObservers(RouteObserverMethods(methods), bound)
    requires Wired(RouteObserverMethods(methods), configured, observers)
    ensures ObserversNumbered(base + observers, bound + |observers|)
    ensures Wired(RouteObserverMethods(methods), configured, (base + observers)[|base|..])
  {
    RouteObserverMethodsExactly(methods);
    ObserversExtend(base, bound, RouteObserverMethods(methods));
    assert (base + observers)[|base|..] == observers;
  }

  /**
   * The observer half of `processHandlerAnnotatedType`: each method with
   * routes and an `@Observes` parameter gets the next id, and its signature
   * is mapped to that id. Methods with routes but no `@Observes` parameter
   * are skipped.
   */
  method CollectRouteObservers(methods: seq<AnnotatedMethod>, first: nat)
    returns (observers: seq<RouteObserver>, configured: map<string, nat>)
    ensures observers == NumberedObservers(RouteObserverMethods(methods), first)
    ensures configured.Keys == Signatures(RouteObserverMethods(methods))
    ensures forall s :: s in configured ==> first <= configured[s] < first + |observers|
    ensures Wired(RouteObserverMethods(methods), configured, observers)
  {
    observers, configured := [], map[];
    for i := 0 to |methods|
      invariant observers == NumberedObservers(RouteObserverMethods(methods[..i]), first)
      invariant configured == ObserverIds(RouteObserverMethods(methods[..i]), first)
    {
      var m := methods[i];
      RouteObserverCollected(methods, i, first, observers, configured);
      var routes := GetWebRoutes(m.annotations);
      var hasEvent := false;
      if |routes| > 0 {
        hasEvent := HasEventParameter(m);
      }
      if hasEvent {
        var id := first + |observers|;
        observers := observers + [RouteObserver(id, routes)];
        configured := configured[m.signature := id];
      }
    }
    assert methods[..|methods|] == methods;
    ObserverIdsWiring(RouteObserverMethods(methods), first);
  }

  class RouteExtension {
    var handlerTypes: seq<AnnotatedType>
    var handlerInstances: seq<HandlerInstance>
    var routeObservers: seq<RouteObserver>
    /** How many observer ids were handed out: each `UUID.randomUUID()` is a fresh number. */
    var issuedIds: nat
    /** How many handler instances were created. */
    var createdInstances: nat
    /** The instances disposed so far. */
    var disposed: seq<HandlerInstance>

    /**
     * Kept classes are handler classes; observer ids are increasing, hence
     * distinct, below `issuedIds`, and each observer declares routes;
     * instance serials are increasing and below `createdInstances`.
     */
    ghost predicate Valid()
      reads this
    {
      && (forall t :: t in handlerTypes ==> HandlerClass(t))
      && ObserversNumbered(routeObservers, issuedIds)
      && InstancesNumbered(handlerInstances, createdInstances)
    }

    constructor ()
      ensures Valid()
      ensures handlerTypes == [] && handlerInstances == [] && routeObservers == [] && disposed == []
      ensures issuedIds == 0 && createdInstances == 0
    {
      handlerTypes, handlerInstances, routeObservers, disposed := [], [], [], [];
      issuedIds, createdInstances := 0, 0;
    }

    /**
     * `processHandlerAnnotatedType`: a handler class is kept; otherwise
     * each method with routes and an `@Observes` parameter becomes a route
     * observer with a fresh id, and the result maps its signature to that
     * id (the qualifier added to its event parameter). Methods with routes
     * but no `@Observes` parameter are skipped.
     */
    method ProcessHandlerAnnotatedType(t: AnnotatedType) returns (configured: map<string, nat>)
      requires Valid()
      modifies this
      ensures Valid()
      ensures HandlerClass(t) ==>
        (handlerTypes == old(handlerTypes) + [t] && routeObservers == old(routeObservers)
         && issuedIds == old(issuedIds) && configured == map[])
      ensures !HandlerClass(t) ==>
        (handlerTypes == old(handlerTypes)
         && routeObservers == old(routeObservers) + NumberedObservers(RouteObserverMethods(t.methods), old(issuedIds))
         && issuedIds == old(issuedIds) + |RouteObserverMethods(t.methods)|
         && configured.Keys == Signatures(RouteObserverMethods(t.methods))
         && Wired(RouteObserverMethods(t.methods), configured, routeObservers[|old(routeObservers)|..]))
      ensures forall s :: s in configured ==> old(issuedIds) <= configured[s] < issuedIds
      ensures handlerInstances == old(handlerInstances) && createdInstances == old(createdInstances) && disposed == old(disposed)
    {
      var handler := false;
      if IsWebRoute(t.annotations) {
        handler := IsRouteHandler(t);
      }
      if handler {
        handlerTypes := handlerTypes + [t];
        return map[];
      }
      var observers;
      observers, configured := CollectRouteObservers(t.methods, issuedIds);
      ObserversAdded(t.methods, routeObservers, issuedIds, observers, configured);
      routeObservers := routeObservers + observers;
      issuedIds := issuedIds + |observers|;
    }

    /**
     * `processHandlerType`: a class without routes is skipped and gets no
     * instance; otherwise one instance is created and used for all its
     * routes, added in declaration order.
     */
    method ProcessHandlerType(t: AnnotatedType, router: Router)
      modifies this, router
      ensures router.routes == old(router.routes) + RoutesFor(GetWebRoutes(t.annotations), HandlerObject(old(createdInstances)))
      ensures handlerInstances == old(handlerInstances)
        + (if GetWebRoutes(t.annotations) != [] then [HandlerInstance(old(createdInstances), t)] else [])
      ensures createdInstances == old(createdInstances) + (if GetWebRoutes(t.annotations) != [] then 1 else 0)
      ensures handlerTypes == old(handlerTypes) && routeObservers == old(routeObservers)
      ensures issuedIds == old(issuedIds) && disposed == old(disposed)
    {
      var webRoutes := GetWebRoutes(t.annotations);
      if |webRoutes| == 0 {
        return;
      }
      var instance := HandlerInstance(createdInstances, t);
      createdInstances := createdInstances + 1;
      handlerInstances := handlerInstances + [instance];
      var handler := HandlerObject(instance.serial);
      for i := 0 to |webRoutes|
        invariant router.routes == old(router.routes) + RoutesFor(webRoutes[..i], handler)
        invariant handlerTypes == old(handlerTypes) && routeObservers == old(routeObservers)
        invariant issuedIds == old(issuedIds) && disposed == old(disposed)
        invariant handlerInstances == old(handlerInstances) + [instance]
        invariant createdInstances == old(createdInstances) + 1
      {
        RoutesForAppend(webRoutes, i, handler);
        AddRoute(router, handler, webRoutes[i]);
      }
      assert webRoutes[..|webRoutes|] == webRoutes;
    }

    /**
     * `registerRoutes`: the routes of every kept handler class, in
     * discovery order, then those of every route observer.
     */
    method RegisterRoutes(router: Router)
      requires Valid()
      modifies this, router
      ensures Valid()
      ensures router.routes == old(router.routes) + HandlerTypeRoutes(handlerTypes, old(createdInstances)) + ObserverRoutes(routeObservers)
      ensures handlerInstances == old(handlerInstances) + NewInstances(handlerTypes, old(createdInstances))
      ensures createdInstances == old(createdInstances) + |WithRoutes(handlerTypes)|
      ensures handlerTypes == old(handlerTypes) && routeObservers == old(routeObservers)
      ensures issuedIds == old(issuedIds) && disposed == old(disposed)
    {
      ProcessHandlerTypes(router);
      ProcessRouteObservers(routeObservers, router);
      InstancesExtend(old(handlerInstances), old(createdInstances), handlerTypes);
    }

    /** Every kept handler class in discovery order, through `processHandlerType`. */
    method ProcessHandlerTypes(router: Router)
      modifies this, router
      ensures router.routes == old(router.routes) + HandlerTypeRoutes(handlerTypes, old(createdInstances))
      ensures handlerInstances == old(handlerInstances) + NewInstances(handlerTypes, old(createdInstances))
      ensures createdInstances == old(createdInstances) + |WithRoutes(handlerTypes)|
      ensures handlerTypes == old(handlerTypes) && routeObservers == old(routeObservers)
      ensures issuedIds == old(issuedIds) && disposed == old(disposed)
    {
      var types := handlerTypes;
      var first := createdInstances;
      for i := 0 to |types|
        invariant handlerTypes == types && routeObservers == old(routeObservers)
        invariant issuedIds == old(issuedIds) && disposed == old(disposed)
        invariant router.routes == old(router.routes) + HandlerTypeRoutes(types[..i], first)
        invariant handlerInstances == old(handlerInstances) + NewInstances(types[..i], first)
        invariant createdInstances == first + |WithRoutes(types[..i])|
      {
        ghost var created := createdInstances;
        ProcessHandlerType(types[i], router);
        HandlerRoutesProcessed(types, i, first, old(router.routes), router.routes, created);
        HandlerInstancesProcessed(types, i, first, old(handlerInstances), handlerInstances, created);
      }
      assert types[..|types|] == types;
    }

    /** `beforeShutdown`: every handler instance is disposed, in order, then the three lists are emptied. */
    method BeforeShutdown()
      requires Valid()
      modifies this
      ensures Valid()
      ensures disposed == old(disposed) + old(handlerInstances)
      ensures handlerInstances == [] && handlerTypes == [] && routeObservers == []
      ensures issuedIds == old(issuedIds) && createdInstances == old(createdInstances)
    {
      for i := 0 to |handlerInstances|
        invariant handlerInstances == old(handlerInstances) && handlerTypes == old(handlerTypes)
        invariant disposed == old(disposed) + handlerInstances[..i]
        invariant routeObservers == old(routeObservers)
        invariant issuedIds == old(issuedIds) && createdInstances == old(createdInstances)
      {
        disposed := disposed + [handlerInstances[i]];
      }
      assert handlerInstances[..|handlerInstances|] == handlerInstances;
      handlerInstances := [];
      handlerTypes := [];
      routeObservers := [];
    }
  }

  /** Every route observer in order, through `RouteObserver.process`. */
  method ProcessRouteObservers(observers: seq<RouteObserver>, router: Router)
    modifies router
    ensures router.routes == old(router.routes) + ObserverRoutes(observers)
  {
    for i := 0 to |observers|
      invariant router.routes == old(router.routes) + ObserverRoutes(observers[..i])
    {
      ObserverRoutesStep(observers, i);
      ProcessRouteObserver(observers[i], router);
    }
    assert observers[..|observers|] == observers;
  }

  /** `RouteObserver.process`: every declared route calls the observers qualified with the observer's id. */
  method ProcessRouteObserver(o: RouteObserver, router: Router)
    modifies router
    ensures router.routes == old(router.routes) + RoutesFor(o.webRoutes, ObserverHandler(o.id))
  {
    var handler := ObserverHandler(o.id);
    for i := 0 to |o.webRoutes|
      invariant router.routes == old(router.routes) + RoutesFor(o.webRoutes[..i], handler)
    {
      RoutesForAppend(o.webRoutes, i, handler);
      AddRoute(router, handler, o.webRoutes[i]);
    }
    assert o.webRoutes[..|o.webRoutes|] == o.webRoutes;
  }
}
