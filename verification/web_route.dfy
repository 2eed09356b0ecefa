/**
 * The `@WebRoute` annotation: one route of a handler class or of a
 * `RoutingContext` observer method. It is repeatable; several declared
 * routes arrive wrapped in the `@WebRoutes` container.
 */
module WebRouteAnnotation {
  import opened JavaLang
  import opened VertxHttp

  /** How the handler is registered on the route. */
  datatype HandlerType = NORMAL | BLOCKING | FAILURE

  /** The members of one `@WebRoute`. */
  datatype WebRoute = WebRoute(
    value: string,
    methods: seq<HttpMethod>,
    regex: string,
    handlerType: HandlerType,
    order: int,
    produces: seq<string>,
    consumes: seq<string>)

  /** `order()`'s default: the route's order is left as the router assigns it. */
  const ORDER_UNSET: int := INT_MIN

  /** `@WebRoute(path)`: every other member at its default. */
  function Route(path: string): (w: WebRoute)
    ensures w.value == path && w.regex == "" && w.methods == [] && w.produces == [] && w.consumes == []
    ensures w.handlerType == NORMAL && w.order == ORDER_UNSET
  {
    WebRoute(path, [], "", NORMAL, ORDER_UNSET, [], [])
  }

}
