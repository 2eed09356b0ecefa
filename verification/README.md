# weld-vertx in Dafny

This project models the core of weld-vertx, the bridge between CDI (Weld) and Vert.x, and proves properties of the model. It covers:

- **Async references.** An `AsyncReference<T>` is an injectable single-assignment future. Its constructor picks one of three strategies:
  - fail at once when several `CompletionStage<T>` producers match;
  - attach to the one matching producer's stage;
  - resolve the bean on a worker thread.

  Only the first completion takes effect (`AsyncReference`).
- **The CDI extension's bootstrap registries.** These are:
  - the `CompletionStage` producers;
  - the `@VertxConsumer` addresses;
  - the qualifiers collected from `AsyncReference` injection points;
  - the built-in `Vertx` and `Context` beans (`VertxExtension`).
- **Event-bus dispatch.** A message sent to an address is delivered as a `VertxEvent` to the observers qualified with that address. Their effect becomes one reply or one failure on the bus. The repository has two revisions of the event context, and both are modelled:
  - The context nested in `WeldVerticle` overwrites the reply and records failures without stopping the observers (`WeldVerticleDispatch`). The stand-alone `VertxHandler` class maps results exactly like the nested handler, and is modelled by the same `VertxHandler.Handle`.
  - The stand-alone `VertxEventImpl` keeps the first non-null reply and makes `fail` throw (`EventImplDispatch`).
- **The Probe REST handlers' decisions** (`ProbeHandlers`):
  - paging parameters;
  - media-type detection by suffix;
  - caching and text/binary classification;
  - the `${contextPath}` substitution;
  - 404 answers and the response headers.
- **Web routes.** The `@WebRoute` annotation (`WebRouteAnnotation`), and the extension that collects handler classes and route observer methods and registers their routes on a router (`RouteExtension`).
- **The service-proxy invocation handler** (`ServiceProxy`). It finds the result-handler parameter once per method and wraps that argument so the result is delivered on an executor.
- **The translator example's two caches** (`TranslatorCache`).

`Wrappers` (an `Option` for Java's null), `JavaLang` (`int` bounds, reflective type tags, bus payloads), `VertxHttp` and `JavaInteger` (`Integer.valueOf` / `Integer.toString`) are shared.

Throughout the model:

- External objects become logs. The Vert.x router is the list of route specs added to it, and the delegate proxy is the list of calls made on it.
- State the Java code mutates is a class whose methods are proved against pure specification functions.
- Lemmas state the properties that span several calls.

## Model

| member | source | states |
|---|---|---|
| AsyncReference.CompletedKeepsConsistent | core/src/main/java/org/jboss/weld/vertx/AsyncReferenceImpl.java:173-183 | a completion never sets both `reference` and `cause`, always leaves `isDone` set, and on a fresh reference yields exactly the documented outcome (cause if given, else the result) |
| AsyncReference.DoneIsFinal | core/src/main/java/org/jboss/weld/vertx/AsyncReferenceImpl.java:173-183 | once done, any further sequence of completion attempts leaves `isDone`, `reference` and `cause` unchanged |
| AsyncReference.FirstCompletionWins | core/src/main/java/org/jboss/weld/vertx/AsyncReferenceImpl.java:165-183 | for any non-empty sequence of success/failure attempts, the state is the outcome of the first one (a null success included) |
| AsyncReference.Force | core/src/main/java/org/jboss/weld/vertx/AsyncReferenceImpl.java:151-154 | forcing a client proxy realizes it without changing its target |
| AsyncReference.ResolveOnWorker | core/src/main/java/org/jboss/weld/vertx/AsyncReferenceImpl.java:139-162 | zero candidates fail as unsatisfied, several as ambiguous; a single candidate's creation failure is the cause; otherwise the single instance (null allowed) is the result; a normal-scoped client proxy is forced first, any other instance is passed through unchanged |
| AsyncReference.AsyncReferenceImpl.constructor | core/src/main/java/org/jboss/weld/vertx/AsyncReferenceImpl.java:74-96 | several stage producers: done with an ambiguous-resolution cause; one: waits on its stage, or is rejected when the reference is not a `CompletionStage`; none: waits on the worker |
| AsyncReference.AsyncReferenceImpl.Complete | core/src/main/java/org/jboss/weld/vertx/AsyncReferenceImpl.java:173-183 | the state becomes `Completed(old state, result, cause)`; the future is completed exactly when `isDone` is set and with the same outcome |
| AsyncReference.AsyncReferenceImpl.Success | core/src/main/java/org/jboss/weld/vertx/AsyncReferenceImpl.java:165-167 | a success attempt with the given (nullable) result |
| AsyncReference.AsyncReferenceImpl.Failure | core/src/main/java/org/jboss/weld/vertx/AsyncReferenceImpl.java:169-171 | a failure attempt with the given cause |
| AsyncReference.AsyncReferenceImpl.OnStageComplete | core/src/main/java/org/jboss/weld/vertx/AsyncReferenceImpl.java:126-132 | a non-null throwable fails the reference, otherwise the result completes it |
| AsyncReference.AsyncReferenceImpl.OnWorkerResult | core/src/main/java/org/jboss/weld/vertx/AsyncReferenceImpl.java:156-161 | the worker's success completes and its failure fails the reference |
| AsyncReference.AsyncReferenceImpl.OrElse | core/src/main/java/org/jboss/weld/vertx/AsyncReference.java:73-76 | on a consistent reference: the reference when not null, otherwise the default |
| AsyncReference.AsyncReferenceImpl.IsDone | core/src/main/java/org/jboss/weld/vertx/AsyncReferenceImpl.java:98-101 | true iff the future has been completed; while not done there is neither a reference nor a cause |
| AsyncReference.AsyncReferenceImpl.Get | core/src/main/java/org/jboss/weld/vertx/AsyncReferenceImpl.java:103-106 | the result of a successful completion, null while pending or after a failure; a non-null result means done without a cause |
| AsyncReference.AsyncReferenceImpl.Cause | core/src/main/java/org/jboss/weld/vertx/AsyncReferenceImpl.java:108-110 | non-null iff the future failed, and then that failure's cause with no reference |
| AsyncReference.AmbiguousIgnoresLaterCallbacks | core/src/main/java/org/jboss/weld/vertx/AsyncReferenceImpl.java:86-88 | a reference failed as ambiguous keeps that cause and a null `get()` whatever stage or worker callbacks follow |
| VertxExtension.NewAsyncProducerMetadata | core/src/main/java/org/jboss/weld/vertx/VertxExtension.java:334-339 | the result type is the producer type's first type argument; a non-parameterized type has no metadata (the cast fails) |
| VertxExtension.MatchingEntriesExactly | core/src/main/java/org/jboss/weld/vertx/VertxExtension.java:215-226 | the lookup returns exactly the registered entries that match, each as often as registered |
| VertxExtension.FirstOfTypeIsFirst | core/src/main/java/org/jboss/weld/vertx/VertxExtension.java:242-249 | the qualifier found has the requested type and none before it does; nothing is found iff no qualifier has that type |
| VertxExtension.GetQualifier | core/src/main/java/org/jboss/weld/vertx/VertxExtension.java:242-249 | the loop returns the first observed qualifier of the requested annotation type, or null |
| VertxExtension.GetVertxAddress | core/src/main/java/org/jboss/weld/vertx/VertxExtension.java:237-240 | null iff no `@VertxConsumer` is observed; otherwise the value of one that is |
| VertxExtension.GetBeanTypes | core/src/main/java/org/jboss/weld/vertx/VertxExtension.java:228-235 | the bean types are the given API types, the implementation class and its interface closure, nothing else |
| VertxExtension.NewVertxBean | core/src/main/java/org/jboss/weld/vertx/VertxExtension.java:257-268 | `Object` is added to the bean types and the qualifiers are exactly `@Any` and `@Default` |
| VertxExtension.VertxExtension.constructor | core/src/main/java/org/jboss/weld/vertx/VertxExtension.java:101-111 | all three registries start empty |
| VertxExtension.VertxExtension.ProcessAsyncReferenceInjectionPoint | core/src/main/java/org/jboss/weld/vertx/VertxExtension.java:114-116 | the injection point's qualifiers are added; the other registries are unchanged |
| VertxExtension.VertxExtension.AddAsyncReferenceQualifiers | core/src/main/java/org/jboss/weld/vertx/VertxExtension.java:119-139 | with no collected qualifiers the attributes are untouched; otherwise the bean's qualifiers become the union of its own and the collected ones |
| VertxExtension.VertxExtension.CollectAsyncProducerMethod | core/src/main/java/org/jboss/weld/vertx/VertxExtension.java:142-145 | appends exactly one entry for a parameterized producer type, nothing otherwise |
| VertxExtension.VertxExtension.ProcessVertxEventObserver | core/src/main/java/org/jboss/weld/vertx/VertxExtension.java:147-155 | an observer without `@VertxConsumer` adds no address; one with it adds that address |
| VertxExtension.VertxExtension.RegisterBeansAfterBeanDiscovery | core/src/main/java/org/jboss/weld/vertx/VertxExtension.java:157-176 | no beans without a Vertx instance; otherwise exactly two beans, `Vertx` then `Context`, each with exactly the bean types: its API type, its implementation class, that class's interface closure and `Object`; qualified `@Any @Default` |
| VertxExtension.VertxExtension.RegisterConsumersAfterDeploymentValidation | core/src/main/java/org/jboss/weld/vertx/VertxExtension.java:178-183 | consumers are registered iff a Vertx instance exists; the collected qualifiers are cleared either way |
| VertxExtension.VertxExtension.GetAsyncProducerMetadata | core/src/main/java/org/jboss/weld/vertx/VertxExtension.java:215-226 | the result holds exactly the matching registered entries, in the model's registry order (the order of Java's `HashSet` is unspecified), and is empty for an empty registry |
| ObserverDispatch.ObserversForSelects | core/src/main/java/org/jboss/weld/vertx/VertxHandler.java:19-21 | about `ObserversFor`, the observers a handler fires: every observer qualified with the handler's address is fired, every fired action belongs to an observer the event reaches, and none fires when no observer is reached |
| WeldVerticleDispatch.FireAppend | core/src/main/java/org/jboss/weld/vertx/WeldVerticle.java:87-88 | firing concatenated observers fires the first group, then the second from the state the first left, unless the first threw |
| WeldVerticleDispatch.FireWithoutThrow | core/src/main/java/org/jboss/weld/vertx/WeldVerticle.java:87-88 | observers that throw nothing complete; without a `fail` the recorded failure is as before, without a `setReply` the reply is |
| WeldVerticleDispatch.ThrowGivesObserverFailure | core/src/main/java/org/jboss/weld/vertx/WeldVerticle.java:94-107 | the first observer exception ends dispatch and the bus gets `OBSERVER_FAILURE_CODE` with the exception's message |
| WeldVerticleDispatch.LastFailWins | core/src/main/java/org/jboss/weld/vertx/WeldVerticle.java:171-174 | without exceptions a recorded failure reaches the bus even when a reply was set, with the code and message of the last `fail` |
| WeldVerticleDispatch.LastReplyWins | core/src/main/java/org/jboss/weld/vertx/WeldVerticle.java:163-168 | without exceptions or failures the last `setReply` value is the reply, null included |
| WeldVerticleDispatch.NothingRecordedRepliesNull | core/src/main/java/org/jboss/weld/vertx/WeldVerticle.java:89-93 | observers that record nothing give a null reply |
| WeldVerticleDispatch.VertxEventImpl.constructor | core/src/main/java/org/jboss/weld/vertx/WeldVerticle.java:134-140 | address, headers, body and reply address are the message's; nothing is recorded, so `isFailure` is false, and no warning is logged |
| WeldVerticleDispatch.VertxEventImpl.SetReply | core/src/main/java/org/jboss/weld/vertx/WeldVerticle.java:163-168 | the reply is overwritten; a warning is logged iff there is no reply address; `isFailure` is unchanged |
| WeldVerticleDispatch.VertxEventImpl.Fail | core/src/main/java/org/jboss/weld/vertx/WeldVerticle.java:171-174 | code and message are recorded, overwriting an earlier failure, so `isFailure` holds; the reply is kept |
| WeldVerticleDispatch.VertxHandler.From | core/src/main/java/org/jboss/weld/vertx/WeldVerticle.java:74-76 | the handler is bound to the given address |
| WeldVerticleDispatch.VertxHandler.Handle | core/src/main/java/org/jboss/weld/vertx/WeldVerticle.java:84-110 | the loop over the selected observers gives exactly the specified bus outcome for that message |
| EventImplDispatch.NotifiedCount | core/src/main/java/org/jboss/weld/vertx/VertxEventImpl.java:78-81 | the number of notified observers never exceeds the number selected |
| EventImplDispatch.FireWithoutStop | core/src/main/java/org/jboss/weld/vertx/VertxEventImpl.java:60-71 | observers that neither fail nor throw let dispatch finish; a held non-null reply stays, and with only null replies the slot is as it was |
| EventImplDispatch.FireStopsAt | core/src/main/java/org/jboss/weld/vertx/VertxEventImpl.java:78-81 | from the first observer that fails or throws on, later observers change nothing, and exactly the observers up to it are notified |
| EventImplDispatch.AbortIgnoresLaterObservers | core/src/main/java/org/jboss/weld/vertx/VertxEventImpl.java:78-81 | `fail(code, message)` reaches the bus as that failure, any other exception as `OBSERVER_FAILURE_CODE`, whatever the later observers would do |
| EventImplDispatch.FirstNonNullReplyWins | core/src/main/java/org/jboss/weld/vertx/VertxEventImpl.java:60-71 | without failures the first non-null reply is the one sent whatever later observers set, and every observer is notified |
| EventImplDispatch.FirstNonNullAt | core/src/main/java/org/jboss/weld/vertx/VertxEventImpl.java:60-71 | without failures, starting with no reply, dispatch finishes holding the first non-null reply |
| EventImplDispatch.AllNotified | core/src/main/java/org/jboss/weld/vertx/VertxEventImpl.java:60-71 | without failures every selected observer is notified |
| EventImplDispatch.NoNonNullReplyRepliesNull | core/src/main/java/org/jboss/weld/vertx/VertxEventImpl.java:60-71 | when every reply set is null the bus gets a null reply |
| EventImplDispatch.VertxEventImpl.constructor | core/src/main/java/org/jboss/weld/vertx/VertxEventImpl.java:35-38 | wraps the message: `getAddress`, `getHeaders`, `getMessageBody` and `getReplyAddress` give the message's; `isReplied` is false and no warning is logged |
| EventImplDispatch.VertxEventImpl.SetReply | core/src/main/java/org/jboss/weld/vertx/VertxEventImpl.java:60-71 | accepted iff `isReplied` was false before; `isReplied` afterwards iff it was before or the reply is non-null; the slot keeps its first non-null value; warnings for a missing reply address and for a refused reply |
| EventImplDispatch.VertxEventImpl.Fail | core/src/main/java/org/jboss/weld/vertx/VertxEventImpl.java:78-81 | always ends in a recipient failure carrying the code and the message |
| EventImplDispatch.Handle | core/src/main/java/org/jboss/weld/vertx/VertxEventImpl.java:78-81 | the loop gives exactly the specified bus outcome and notifies exactly the specified number of observers; a `fail(code, message)` reaches the bus as `Message.fail(code, message)`, as `VertxEvent.fail` documents |
| JavaInteger.ParseIntToString | probe/src/main/java/org/jboss/weld/vertx/probe/ProbeHandlers.java:331-341 | `Integer.valueOf` of the decimal text of any 32-bit value gives it back |
| JavaInteger.ParseIntOutOfRange | probe/src/main/java/org/jboss/weld/vertx/probe/ProbeHandlers.java:331-341 | the decimal text of a value outside the 32-bit range does not parse |
| JavaInteger.ParseIntPlusSign | probe/src/main/java/org/jboss/weld/vertx/probe/ProbeHandlers.java:331-341 | a leading plus sign is accepted |
| ProbeHandlers.GetPage | probe/src/main/java/org/jboss/weld/vertx/probe/ProbeHandlers.java:331-341 | a 32-bit page; 1 when the parameter is absent or does not parse as an `int`, otherwise the parsed value |
| ProbeHandlers.GetPageUnclamped | probe/src/main/java/org/jboss/weld/vertx/probe/ProbeHandlers.java:331-341 | the decimal text of any 32-bit value gives that value as the page, zero and negative included |
| ProbeHandlers.GetPageOverflow | probe/src/main/java/org/jboss/weld/vertx/probe/ProbeHandlers.java:331-341 | a page number beyond the `int` range falls back to 1 |
| ProbeHandlers.GetPageSize | probe/src/main/java/org/jboss/weld/vertx/probe/ProbeHandlers.java:343-355 | never negative; 50 when absent; 0 when the parameter does not parse as an `int`; a parsed value is kept when positive and becomes 0 otherwise |
| ProbeHandlers.GetPageSizeOfNumber | probe/src/main/java/org/jboss/weld/vertx/probe/ProbeHandlers.java:343-355 | for the decimal text of any 32-bit value, that value is the size when positive, and 0 otherwise |
| ProbeHandlers.FirstMatchIsFirst | probe/src/main/java/org/jboss/weld/vertx/probe/ProbeHandlers.java:371-393 | the suffix search finds a matching entry with no earlier match, and finds none iff no entry matches |
| ProbeHandlers.DetectContentTypeIsFirstMatch | probe/src/main/java/org/jboss/weld/vertx/probe/ProbeHandlers.java:371-393 | `DetectContentType`, the chain of tests, gives the media type of the first suffix in table order that the name ends with, and `text/plain` iff none does |
| ProbeHandlers.TableClasses | probe/src/main/java/org/jboss/weld/vertx/probe/ProbeHandlers.java:395-403 | for each table entry, cacheable iff css/js/png/svg/ico, binary iff png/ico/ttf/otf/eot/woff |
| ProbeHandlers.ClassifiedBySuffix | probe/src/main/java/org/jboss/weld/vertx/probe/ProbeHandlers.java:395-403 | `IsCachable` of the detected type holds iff its deciding suffix is css, js, png, svg or ico; `IsTextBased` fails, so the resource is served as bytes, iff that suffix is png, ico or a font |
| ProbeHandlers.ReplaceAllRemoves | probe/src/main/java/org/jboss/weld/vertx/probe/ProbeHandlers.java:419-421 | after `String.replace`, no occurrence of the target is left when the replacement cannot form one |
| ProbeHandlers.ReplaceAllWithoutTarget | probe/src/main/java/org/jboss/weld/vertx/probe/ProbeHandlers.java:419-421 | a text without the target is returned unchanged |
| ProbeHandlers.ContextPathReplaced | probe/src/main/java/org/jboss/weld/vertx/probe/ProbeHandlers.java:419-421 | `ReplaceContextPath` substitutes every `${contextPath}`, and leaves a text without one as is |
| ProbeHandlers.Response.constructor | probe/src/main/java/org/jboss/weld/vertx/probe/ProbeHandlers.java:357-360 | a response starts with no headers, status 200 and no body |
| ProbeHandlers.Response.PutHeader | probe/src/main/java/org/jboss/weld/vertx/probe/ProbeHandlers.java:319-329 | sets one header before the end; after it, throws and changes nothing |
| ProbeHandlers.Response.SetStatusCode | probe/src/main/java/org/jboss/weld/vertx/probe/ProbeHandlers.java:362-369 | sets the status before the end; after it, throws and changes nothing |
| ProbeHandlers.Response.End | probe/src/main/java/org/jboss/weld/vertx/probe/ProbeHandlers.java:357-360 | ends with the body once; ending again throws and keeps the first body |
| ProbeHandlers.WithHeaders | probe/src/main/java/org/jboss/weld/vertx/probe/ProbeHandlers.java:319-329 | the content type and both CORS headers are set, every other header is kept |
| ProbeHandlers.SetHeaders | probe/src/main/java/org/jboss/weld/vertx/probe/ProbeHandlers.java:319-329 | the response's headers become `WithHeaders` of the old ones; status and body untouched |
| ProbeHandlers.End | probe/src/main/java/org/jboss/weld/vertx/probe/ProbeHandlers.java:357-360 | JSON headers, then the content as the body |
| ProbeHandlers.EndIfFound | probe/src/main/java/org/jboss/weld/vertx/probe/ProbeHandlers.java:362-369 | null content ends with 404 and an empty body, otherwise with the content |
| ProbeHandlers.HandleResource | probe/src/main/java/org/jboss/weld/vertx/probe/ProbeHandlers.java:405-431 | the detected type and CORS headers; `Cache-Control` iff cacheable; text resources substituted, binary ones as bytes; a missing resource gives 404 with an empty body |
| ProbeHandlers.ListOrClearAsWritten | probe/src/main/java/org/jboss/weld/vertx/probe/ProbeHandlers.java:201-212 | GET sends the list; DELETE sends the cleared data and then throws; other methods get 405 |
| ProbeHandlers.ListOrClear | probe/src/main/java/org/jboss/weld/vertx/probe/ProbeHandlers.java:236-246 | GET sends the list, DELETE the cleared data, other methods 405, and nothing throws |
| ProbeHandlers.DeleteThrowsAsWritten | probe/src/main/java/org/jboss/weld/vertx/probe/ProbeHandlers.java:207-210 | a DELETE, as written, sends the cleared data with status 200 and then throws |
| ProbeHandlers.DeleteCompletes | probe/src/main/java/org/jboss/weld/vertx/probe/ProbeHandlers.java:241-244 | a DELETE with the `break` sends the cleared data and does not throw |
| WebRouteAnnotation.Route | web/src/main/java/org/jboss/weld/vertx/web/WebRoute.java:97-120 | a route declared with only a path has no regex, methods, produces or consumes, handler type `NORMAL` and the unset order `Integer.MIN_VALUE` |
| RouteExtension.PathOf | web/src/main/java/org/jboss/weld/vertx/web/RouteExtension.java:149-155 | a non-empty regex wins, then a non-empty path (matched exactly, or as a prefix when it ends in `*`); with both empty the route matches every path |
| RouteExtension.RegistrationOf | web/src/main/java/org/jboss/weld/vertx/web/RouteExtension.java:174-184 | `NORMAL` is a request handler, `BLOCKING` a blocking handler that may run in parallel, `FAILURE` a failure handler, all calling the given handler |
| RouteExtension.Translate | web/src/main/java/org/jboss/weld/vertx/web/RouteExtension.java:161-163 | the order is set iff it is not `Integer.MIN_VALUE`, and then to the declared value |
| RouteExtension.Router.Add | web/src/main/java/org/jboss/weld/vertx/web/RouteExtension.java:147-189 | the router gains exactly that route at the end |
| RouteExtension.AddRoute | web/src/main/java/org/jboss/weld/vertx/web/RouteExtension.java:147-189 | the loops leave on the router exactly one more route: the path, all methods, produced and consumed types in declaration order, the order if set and the handler by kind |
| RouteExtension.GetWebRoutes | web/src/main/java/org/jboss/weld/vertx/web/RouteExtension.java:191-202 | the single `@WebRoute` wins over the container; routes are found only on an element for which `IsWebRoute` holds |
| RouteExtension.IsRouteHandler | web/src/main/java/org/jboss/weld/vertx/web/RouteExtension.java:208-227 | true iff the class is top-level or static nested and its type closure holds `Handler<RoutingContext>` |
| RouteExtension.HasEventParameter | web/src/main/java/org/jboss/weld/vertx/web/RouteExtension.java:301-308 | true iff some parameter is `@Observes` |
| RouteExtension.RouteObserverMethodsExactly | web/src/main/java/org/jboss/weld/vertx/web/RouteExtension.java:86-97 | exactly the methods with routes and an `@Observes` parameter become route observers |
| RouteExtension.CollectRouteObservers | web/src/main/java/org/jboss/weld/vertx/web/RouteExtension.java:85-98 | each route observer method, in order, gets the next fresh id; the returned map holds exactly their signatures, and maps each method's signature to the id of that method's own observer (the last one when signatures repeat) |
| RouteExtension.ObserverIdsWiring | web/src/main/java/org/jboss/weld/vertx/web/RouteExtension.java:94-106 | the map built by putting each method's signature with the next id: its keys are exactly the signatures, its ids lie in the range handed out, and the last method with a signature gets its own id |
| RouteExtension.WithRoutesExactly | web/src/main/java/org/jboss/weld/vertx/web/RouteExtension.java:133-140 | exactly the kept handler classes that declare routes get an instance |
| RouteExtension.HandlerRoutesFirst | web/src/main/java/org/jboss/weld/vertx/web/RouteExtension.java:124-131 | every route of a handler class precedes every route of an observer method |
| RouteExtension.ObserversExtend | web/src/main/java/org/jboss/weld/vertx/web/RouteExtension.java:94-95 | observers numbered from the next id keep the ids increasing and distinct |
| RouteExtension.InstancesExtend | web/src/main/java/org/jboss/weld/vertx/web/RouteExtension.java:139-140 | instances created from the next serial keep the serials increasing and distinct |
| RouteExtension.RouteExtension.constructor | web/src/main/java/org/jboss/weld/vertx/web/RouteExtension.java:77-109 | all lists start empty |
| RouteExtension.RouteExtension.ProcessHandlerAnnotatedType | web/src/main/java/org/jboss/weld/vertx/web/RouteExtension.java:77-109 | a web-route handler class is kept; any other type contributes one observer per route observer method, with fresh distinct ids, and the id map for their `@Observes` parameters, which maps each method's signature to the id of that method's own observer (the last one when signatures repeat) |
| RouteExtension.RouteExtension.ProcessHandlerType | web/src/main/java/org/jboss/weld/vertx/web/RouteExtension.java:133-145 | a class without routes is skipped with no instance; otherwise one new instance serves all its routes, added in order |
| RouteExtension.RouteExtension.ProcessHandlerTypes | web/src/main/java/org/jboss/weld/vertx/web/RouteExtension.java:125-127 | all kept classes in discovery order |
| RouteExtension.RouteExtension.RegisterRoutes | web/src/main/java/org/jboss/weld/vertx/web/RouteExtension.java:124-131 | the router gains the handler classes' routes, then the observers' routes; exactly the classes with routes get instances with fresh serials |
| RouteExtension.RouteExtension.BeforeShutdown | web/src/main/java/org/jboss/weld/vertx/web/RouteExtension.java:115-122 | every instance is disposed in order, then all three lists are empty |
| RouteExtension.ProcessRouteObservers | web/src/main/java/org/jboss/weld/vertx/web/RouteExtension.java:128-130 | every observer's routes, in order |
| RouteExtension.ProcessRouteObserver | web/src/main/java/org/jboss/weld/vertx/web/RouteExtension.java:271-276 | every declared route calls the observers qualified with the observer's id |
| ServiceProxy.PositionFrom | service-proxy/src/main/java/org/jboss/weld/vertx/serviceproxy/ServiceProxyInvocationHandler.java:48-62 | the first result handler from an index on, with none before it, or `Integer.MIN_VALUE` when none follows |
| ServiceProxy.HandlerPosition | service-proxy/src/main/java/org/jboss/weld/vertx/serviceproxy/ServiceProxyInvocationHandler.java:48-62 | the index of the first `Handler<AsyncResult<...>>` parameter; `Integer.MIN_VALUE` iff there is none |
| ServiceProxy.ComputeHandlerPosition | service-proxy/src/main/java/org/jboss/weld/vertx/serviceproxy/ServiceProxyInvocationHandler.java:48-62 | the search loop computes `HandlerPosition` |
| ServiceProxy.OffloadsIffResultHandler | service-proxy/src/main/java/org/jboss/weld/vertx/serviceproxy/ServiceProxyInvocationHandler.java:86 | with the intended guard, an argument is wrapped iff the method has a result-handler parameter |
| ServiceProxy.FirstHandlerNotOffloaded | service-proxy/src/main/java/org/jboss/weld/vertx/serviceproxy/ServiceProxyInvocationHandler.java:86 | a result handler that is the first parameter is found at 0 and, as written, not wrapped |
| ServiceProxy.PingResultHandler | service-proxy/src/main/java/org/jboss/weld/vertx/serviceproxy/ServiceProxyInvocationHandler.java:86 | for `ping(Handler<AsyncResult<String>>)` the as-written guard skips the handler and the intended one wraps it |
| ServiceProxy.OffloadHandler | service-proxy/src/main/java/org/jboss/weld/vertx/serviceproxy/ServiceProxyInvocationHandler.java:87-93 | only `args[position]` changes, to a wrapper of the original handler |
| ServiceProxy.ServiceProxyInvocationHandler.constructor | service-proxy/src/main/java/org/jboss/weld/vertx/serviceproxy/ServiceProxyInvocationHandler.java:71-80 | the delegate carries delivery options iff the support supplies some; the cache starts empty |
| ServiceProxy.ServiceProxyInvocationHandler.CachedPosition | service-proxy/src/main/java/org/jboss/weld/vertx/serviceproxy/ServiceProxyInvocationHandler.java:85 | returns the method's handler position, computed only on its first call; cached values stay correct |
| ServiceProxy.ServiceProxyInvocationHandler.Invoke | service-proxy/src/main/java/org/jboss/weld/vertx/serviceproxy/ServiceProxyInvocationHandler.java:84-96 | as written: the handler argument is wrapped only at a position above 0, every other argument is untouched, and the delegate gets that same array |
| ServiceProxy.ServiceProxyInvocationHandler.InvokeCorrected | service-proxy/src/main/java/org/jboss/weld/vertx/serviceproxy/ServiceProxyInvocationHandler.java:84-96 | the same with a handler at any position wrapped, the first included |
| TranslatorCache.LowerIdempotent | examples/translator/src/main/java/org/jboss/weld/vertx/examples/translator/TranslationDataCache.java:89-91 | lower-casing is idempotent, so spellings that differ in case share one key |
| TranslatorCache.ElementText | examples/translator/src/main/java/org/jboss/weld/vertx/examples/translator/TranslationDataCache.java:73-75 | an element has a text iff it is not null (`toString` on null throws); a string element is its own text |
| TranslatorCache.TextsExactly | examples/translator/src/main/java/org/jboss/weld/vertx/examples/translator/TranslationDataCache.java:72-75 | the list is built iff no element is null, and holds each element's text in order |
| TranslatorCache.ExtractData | examples/translator/src/main/java/org/jboss/weld/vertx/examples/translator/TranslationDataCache.java:61-79 | a body with a "word" string and an array of strings yields that word and those strings in order |
| TranslatorCache.ParseTranslationData | examples/translator/src/main/java/org/jboss/weld/vertx/examples/translator/DataCache.java:93-114 | the loop gives the specified extraction: no data for a non-object or a missing word, a class-cast failure for a wrong type, a null-pointer failure for a null element, an empty list for a missing array |
| TranslatorCache.PutIfAbsent | examples/translator/src/main/java/org/jboss/weld/vertx/examples/translator/TranslationDataCache.java:93-97 | the entry under the lower-cased word is added only when absent; existing entries never change |
| TranslatorCache.Lookup | examples/translator/src/main/java/org/jboss/weld/vertx/examples/translator/TranslationDataCache.java:89-91 | found iff the lower-cased word is a key, with that entry |
| TranslatorCache.PutIfAbsentKeepsLowerKeys | examples/translator/src/main/java/org/jboss/weld/vertx/examples/translator/TranslationDataCache.java:93-97 | every key stays lower-cased |
| TranslatorCache.PutIfAbsentThenLookup | examples/translator/src/main/java/org/jboss/weld/vertx/examples/translator/TranslationDataCache.java:89-97 | after a store, any spelling of the word finds the list stored first |
| TranslatorCache.FirstStoreWins | examples/translator/src/main/java/org/jboss/weld/vertx/examples/translator/DataCache.java:116-120 | a second store under the same word, in any case, changes nothing |
| TranslatorCache.FreshListMayDifferFromCached | examples/translator/src/main/java/org/jboss/weld/vertx/examples/translator/DataCache.java:93-114 | when `DataCache.putIfAbsent` parses a body for a word already cached with another list, it returns the freshly parsed list while the cache keeps the old one |
| TranslatorCache.TranslationDataCache.constructor | examples/translator/src/main/java/org/jboss/weld/vertx/examples/translator/TranslationDataCache.java:50-52 | starts empty |
| TranslatorCache.TranslationDataCache.Clear | examples/translator/src/main/java/org/jboss/weld/vertx/examples/translator/TranslationDataCache.java:54-57 | empties the map |
| TranslatorCache.TranslationDataCache.PutIfAbsentFromBody | examples/translator/src/main/java/org/jboss/weld/vertx/examples/translator/TranslationDataCache.java:59-82 | a body with data stores its list unless the word is known; other bodies leave the map; it throws exactly on a wrong type or a null element |
| TranslatorCache.TranslationDataCache.GetTranslations | examples/translator/src/main/java/org/jboss/weld/vertx/examples/translator/TranslationDataCache.java:89-91 | the lookup under the lower-cased word, null when absent |
| TranslatorCache.TranslationDataCache.PutIfAbsentWord | examples/translator/src/main/java/org/jboss/weld/vertx/examples/translator/TranslationDataCache.java:93-97 | never overwrites; keys stay lower-cased |
| TranslatorCache.DataCache.constructor | examples/translator/src/main/java/org/jboss/weld/vertx/examples/translator/DataCache.java:58-61 | starts empty |
| TranslatorCache.DataCache.Clear | examples/translator/src/main/java/org/jboss/weld/vertx/examples/translator/DataCache.java:63-66 | empties the map |
| TranslatorCache.DataCache.PutIfAbsentFromBody | examples/translator/src/main/java/org/jboss/weld/vertx/examples/translator/DataCache.java:93-114 | returns the freshly parsed list iff the body has data, storing it only under an absent word; otherwise null and the map unchanged |
| TranslatorCache.DataCache.PutIfAbsentWord | examples/translator/src/main/java/org/jboss/weld/vertx/examples/translator/DataCache.java:116-120 | never overwrites; keys stay lower-cased |
| TranslatorCache.DataCache.GetTranslations | examples/translator/src/main/java/org/jboss/weld/vertx/examples/translator/DataCache.java:73-91 | a hit returns the cached list and changes nothing; a miss returns the list parsed from a reply that arrived in time, else null |

## Left out

- Threads, the event loop, `executeBlocking` and executors are not modelled. A worker's or a stage's outcome is a method call, in any order, and the compare-and-set on `isDone` is a plain guard.
- AsyncReference.AsyncReferenceImpl.constructor:
  - The `CompletionStage` lookup, the bean lookup and the normal-scope test are parameters: the candidate counts and whether the producer's reference is a `CompletionStage`.
  - When that reference is not a `CompletionStage`, Java throws `IllegalStateException` from the constructor; the model records the `Rejected` strategy instead.
- The internal `VertxCompletableFuture` appears only as the outcome it was completed with. `toString` and `delegate` are left out.
- Type assignability (Weld's `BeanTypeAssignabilityRules`), the interface closure of a class, and `Reflections.isTopLevelOrStaticNestedClass` are reflection; they are parameters or fields of the model.
- VertxExtension.VertxExtension.RegisterConsumersAfterDeploymentValidation: `registerConsumers` (the consumer registrations on the event bus, the latch and its timeout) is I/O and is reduced to the returned flag.
- CDI observer resolution is reduced to the `@VertxConsumer` qualifier: an event fired with `@VertxConsumer(a)` reaches observers declaring `a` or declaring no `@VertxConsumer`. Other qualifiers and observer ordering by priority are not modelled; observers fire in registration order.
- EventImplDispatch.Handle: the stand-alone `VertxEventImpl.fail` throws a `RecipientFailure`, a class that is not part of this model. `Handle` follows `VertxEvent.fail`'s documentation: the failure's own code and message reach the bus. The stand-alone `VertxHandler` (VertxHandler.java:47-53) maps only a `RecipientFailureException` to its own code, so if `RecipientFailure` is not one it would send `OBSERVER_FAILURE_CODE` with the message instead.
- VertxExtension.VertxExtension.GetAsyncProducerMetadata: the registry is a `HashSet` in Java, so the order of the matching entries is unspecified; the model keeps them in registration order.
- WeldVerticleDispatch.ThrowGivesObserverFailure: an observer's exception is a plain `Throw(message)`, where the message is that of the exception as it reaches the handler. Weld wraps a checked exception thrown by an observer in an `ObserverException`, whose message is then the one sent; that wrapping is not modelled.
- `VertxEventImpl.messageTo` and the message objects it creates (sending and publishing on the bus) are not modelled.
- ProbeHandlers:
  - Resource reading (`IOUtils`), the JSON data providers, `Exports`, the request routing and the query-parameter parsing are I/O. `handleResource` receives the resource's text or bytes, and the paging functions receive the parameter value.
  - ProbeHandlers.Response.SetStatusCode and the other `Response` methods model only the `IllegalStateException` that Vert.x throws after `end`, not other HTTP server errors.
- JavaInteger.ParseInt: only ASCII digits are accepted, whereas `Integer.valueOf` also accepts other Unicode decimal digits.
- TranslatorCache.Lower: only ASCII letters are lower-cased, whereas `String.toLowerCase` is locale-dependent and covers all of Unicode.
- TranslatorCache.ElementText:
  - The text of a nested JSON array or object, or of another object, is kept symbolically (`Rendered`) rather than spelled out.
  - Numbers are integers; floating-point JSON numbers are not modelled.
- TranslatorCache.DataCache.GetTranslations: on a miss, the event-bus request and the two-second wait are reduced to a parameter, the reply body that arrived in time or none. A reply that arrives later still updates the cache in Java; that timing is not modelled.
- RouteExtension:
  - WebRouteAnnotation.Route: `order` is an unbounded integer in the model, whereas `WebRoute.order()` is a 32-bit `int`; no arithmetic is done on it, so only its range is wider.
  - `Route.method` collects methods in a set. The model keeps them in declaration order, so duplicates are not collapsed.
  - The observer ids (`UUID.randomUUID()`) are a counter, which makes them distinct by construction.
  - The configurator that adds an `@Id` qualifier to the `@Observes` parameter is reduced to the returned signature-to-id map.
  - The warning logged for a method with `@WebRoute` but no `@Observes` parameter, and the debug log for each route observer, are not modelled; such a method is skipped.
  - `HandlerInstance` creation and disposal (injection target, creational context) are reduced to a serial and a log of disposed instances.
  - `ObserverHandlerInstance.handle` (firing the `RoutingContext` event) is not modelled.
  - `afterDeploymentValidation` only stores the bean manager and is not modelled.
- ServiceProxy: the `java.lang.reflect.Proxy` and the executor are left out. The delegate is a log of the calls made on it, a wrapped handler is a value that names the original, and the delegate's return value is not modelled. `args` is never null in the model; a method without parameters has an empty array.
- The service-proxy bean registration (`ServiceProxyExtension`, `ServiceProxy`, `ServiceProxySupport`) is not part of this model.

## Findings

| source | as written | input that shows it | evidently intended | confidence | as-written member | corrected member |
|---|---|---|---|---|---|---|
| probe/src/main/java/org/jboss/weld/vertx/probe/ProbeHandlers.java:207-210 | the `DELETE` case of the invocations handler (and of the events handler, lines 241-244) has no `break`, so it falls through to the default case and calls `setStatusCode(405)` and `end()` on the ended response | a `DELETE` request to the invocations or events resource | end after sending the cleared data | high (not executed) | ProbeHandlers.DeleteThrowsAsWritten | ProbeHandlers.DeleteCompletes |
| service-proxy/src/main/java/org/jboss/weld/vertx/serviceproxy/ServiceProxyInvocationHandler.java:86 | the result handler is wrapped only when its position is `> 0`, although "none found" is `Integer.MIN_VALUE` | a service method `ping(Handler<AsyncResult<String>>)`, whose handler is at position 0 and is passed through unwrapped | wrap a handler at any found position (`>= 0`) | medium (not executed) | ServiceProxy.PingResultHandler | ServiceProxy.OffloadsIffResultHandler |
