/**
 * The bootstrap registries of the CDI extension: the `CompletionStage`
 * producers that async references may attach to, the event-bus addresses
 * that `@VertxConsumer` observers listen on, and the qualifiers collected
 * from `AsyncReference` injection points.
 *
 * Type assignability (Weld's `BeanTypeAssignabilityRules`) and the
 * interface closure of a class are reflection: they are parameters here.
 */
module VertxExtension {
  import opened Wrappers
  import opened JavaLang

  /** An annotation instance: its annotation type and the value of its `value()` member ("" if none). */
  datatype Annotation = Annotation(annotationType: string, value: string)

  const VERTX_CONSUMER: string := "org.jboss.weld.vertx.VertxConsumer"
  const ANY: Annotation := Annotation("javax.enterprise.inject.Any", "")
  const DEFAULT: Annotation := Annotation("javax.enterprise.inject.Default", "")

  /** Which required types accept which result types (`BeanTypeAssignabilityRules.matches`). */
  type Assignability = (JavaType, JavaType) -> bool

  /** A producer method returning `CompletionStage<X>`: its type, `X`, and the producer's qualifiers. */
  datatype AsyncProducerMetadata = AsyncProducerMetadata(producerType: JavaType, resultType: JavaType, qualifiers: set<Annotation>)

  /**
   * The metadata constructor: the result type is the first actual type
   * argument; a type that is not parameterized fails the cast (`None`).
   */
  function NewAsyncProducerMetadata(producerType: JavaType, qualifiers: set<Annotation>): (r: Option<AsyncProducerMetadata>)
    ensures r.Some? <==> producerType.ParameterizedType? && |producerType.args| > 0
    ensures r.Some? ==> r.value == AsyncProducerMetadata(producerType, producerType.args[0], qualifiers)
  {
    match producerType
    case ParameterizedType(_, args) =>
      if |args| > 0 then Some(AsyncProducerMetadata(producerType, args[0], qualifiers)) else None
    case _ => None
  }

  /** `matches(requiredType, qualifiers)`: assignable result type and a superset of the requested qualifiers. */
  predicate Matches(m: AsyncProducerMetadata, requiredType: JavaType, qualifiers: set<Annotation>, assignable: Assignability) {
    assignable(requiredType, m.resultType) && qualifiers <= m.qualifiers
  }

  /** The registered entries that match, in registry order. */
  function MatchingEntries(entries: seq<AsyncProducerMetadata>, requiredType: JavaType, qualifiers: set<Annotation>, assignable: Assignability): seq<AsyncProducerMetadata>
  {
    if entries == [] then []
    else
      (if Matches(entries[0], requiredType, qualifiers, assignable) then [entries[0]] else [])
      + MatchingEntries(entries[1..], requiredType, qualifiers, assignable)
  }

  /** Exactly the matching entries are returned, each as often as it is registered, and no more of them than registered. */
  lemma {:induction false} MatchingEntriesExactly(entries: seq<AsyncProducerMetadata>, requiredType: JavaType, qualifiers: set<Annotation>, assignable: Assignability)
    ensures forall m :: m in MatchingEntries(entries, requiredType, qualifiers, assignable) <==> m in entries && Matches(m, requiredType, qualifiers, assignable)
    ensures forall m :: Matches(m, requiredType, qualifiers, assignable) ==>
      multiset(MatchingEntries(entries, requiredType, qualifiers, assignable))[m] == multiset(entries)[m]
    ensures |MatchingEntries(entries, requiredType, qualifiers, assignable)| <= |entries|
  {
    if entries != [] {
      MatchingEntriesExactly(entries[1..], requiredType, qualifiers, assignable);
      assert entries == [entries[0]] + entries[1..];
    }
  }

  /** The first qualifier, in the observer's iteration order, whose annotation type is `annotationType`. */
  function FirstOfType(qualifiers: seq<Annotation>, annotationType: string): Option<Annotation>
  {
    if qualifiers == [] then None
    else if qualifiers[0].annotationType == annotationType then Some(qualifiers[0])
    else FirstOfType(qualifiers[1..], annotationType)
  }

  /** `FirstOfType` finds an annotation of that type iff there is one, and none of that type comes before it. */
  lemma {:induction false} FirstOfTypeIsFirst(qualifiers: seq<Annotation>, annotationType: string)
    ensures FirstOfType(qualifiers, annotationType).None? <==> forall a :: a in qualifiers ==> a.annotationType != annotationType
    ensures FirstOfType(qualifiers, annotationType).Some? ==>
      exists i :: 0 <= i < |qualifiers| && qualifiers[i] == FirstOfType(qualifiers, annotationType).value
        && qualifiers[i].annotationType == annotationType
        && forall j :: 0 <= j < i ==> qualifiers[j].annotationType != annotationType
  {
    if qualifiers != [] && qualifiers[0].annotationType != annotationType {
      FirstOfTypeIsFirst(qualifiers[1..], annotationType);
      if FirstOfType(qualifiers, annotationType).Some? {
        var i :| 0 <= i < |qualifiers[1..]| && qualifiers[1..][i] == FirstOfType(qualifiers, annotationType).value
          && qualifiers[1..][i].annotationType == annotationType
          && forall j :: 0 <= j < i ==> qualifiers[1..][j].annotationType != annotationType;
        assert qualifiers[i + 1] == FirstOfType(qualifiers, annotationType).value;
      }
    }
  }

  /** `getQualifier`: a linear search over the observed qualifiers. */
  method GetQualifier(observedQualifiers: seq<Annotation>, annotationType: string) returns (q: Option<Annotation>)
    ensures q == FirstOfType(observedQualifiers, annotationType)
    ensures q.Some? ==> q.value in observedQualifiers && q.value.annotationType == annotationType
  {
    var i := 0;
    while i < |observedQualifiers|
      invariant 0 <= i <= |observedQualifiers|
      invariant FirstOfType(observedQualifiers, annotationType) == FirstOfType(observedQualifiers[i..], annotationType)
    {
      assert observedQualifiers[i..][1..] == observedQualifiers[i + 1..];
      if observedQualifiers[i].annotationType == annotationType {
        return Some(observedQualifiers[i]);
      }
      i := i + 1;
    }
    return None;
  }

  /** `getVertxAddress`: the value of the observer's `@VertxConsumer`, or null without one. */
  method GetVertxAddress(observedQualifiers: seq<Annotation>) returns (address: Option<string>)
    ensures address.None? <==> forall a :: a in observedQualifiers ==> a.annotationType != VERTX_CONSUMER
    ensures address.Some? ==> Annotation(VERTX_CONSUMER, address.value) in observedQualifiers
  {
    var q := GetQualifier(observedQualifiers, VERTX_CONSUMER);
    FirstOfTypeIsFirst(observedQualifiers, VERTX_CONSUMER);
    address := if q.Some? then Some(q.value.value) else None;
  }

  /** A built-in bean (for `Vertx` or `Context`): its bean types and qualifiers. */
  datatype VertxBean = VertxBean(types: set<JavaType>, qualifiers: set<Annotation>)

  /** `getBeanTypes`: the given API types, the implementation class and its interface closure. */
  function GetBeanTypes(implClass: JavaType, interfaceClosure: set<JavaType>, apiTypes: seq<JavaType>): (r: set<JavaType>)
    ensures forall t :: t in r <==> t in apiTypes || t == implClass || t in interfaceClosure
  {
    (set t | t in apiTypes) + {implClass} + interfaceClosure
  }

  /** The `VertxBean` constructor adds `Object` to the types and declares exactly `@Any` and `@Default`. */
  function NewVertxBean(beanTypes: set<JavaType>): (b: VertxBean)
    ensures b.types == beanTypes + {OBJECT}
    ensures b.qualifiers == {ANY, DEFAULT}
  {
    VertxBean(beanTypes + {OBJECT}, {ANY, DEFAULT})
  }

  class VertxExtension {
    var consumerAddresses: set<string>
    var asyncReferenceQualifiers: set<Annotation>
    /** A `HashSet` of identity objects: two producers never collapse into one entry. */
    var asyncProducerMethods: seq<AsyncProducerMetadata>
    const vertxAvailable: bool

    constructor (vertxAvailable: bool)
      ensures this.vertxAvailable == vertxAvailable
      ensures consumerAddresses == {} && asyncReferenceQualifiers == {} && asyncProducerMethods == []
    {
      this.vertxAvailable := vertxAvailable;
      consumerAddresses, asyncReferenceQualifiers, asyncProducerMethods := {}, {}, [];
    }

    /** `processAsyncReferenceInjectionPoints`: collects the injection point's qualifiers. */
    method ProcessAsyncReferenceInjectionPoint(qualifiers: set<Annotation>)
      modifies this
      ensures asyncReferenceQualifiers == old(asyncReferenceQualifiers) + qualifiers
      ensures consumerAddresses == old(consumerAddresses) && asyncProducerMethods == old(asyncProducerMethods)
    {
      asyncReferenceQualifiers := asyncReferenceQualifiers + qualifiers;
    }

    /**
     * `addAsyncReferenceQualifiers`: the async-reference bean's qualifiers
     * become its own union the collected ones; with nothing collected the
     * attributes are left untouched (`None`).
     */
    method AddAsyncReferenceQualifiers(beanQualifiers: set<Annotation>) returns (replaced: Option<set<Annotation>>)
      ensures replaced.None? <==> asyncReferenceQualifiers == {}
      ensures replaced.Some? ==> forall a :: a in replaced.value <==> a in beanQualifiers || a in asyncReferenceQualifiers
    {
      if asyncReferenceQualifiers != {} {
        replaced := Some(beanQualifiers + asyncReferenceQualifiers);
      } else {
        replaced := None;
      }
    }

    /** `collectAsyncProducerMethods`: registers one more entry; `false` when the producer type is not parameterized. */
    method CollectAsyncProducerMethod(producerType: JavaType, qualifiers: set<Annotation>) returns (ok: bool)
      modifies this
      ensures ok <==> producerType.ParameterizedType? && |producerType.args| > 0
      ensures ok ==> asyncProducerMethods == old(asyncProducerMethods) + [AsyncProducerMetadata(producerType, producerType.args[0], qualifiers)]
      ensures !ok ==> asyncProducerMethods == old(asyncProducerMethods)
      ensures consumerAddresses == old(consumerAddresses) && asyncReferenceQualifiers == old(asyncReferenceQualifiers)
    {
      var m := NewAsyncProducerMetadata(producerType, qualifiers);
      ok := m.Some?;
      if ok {
        asyncProducerMethods := asyncProducerMethods + [m.value];
      }
    }

    /** `processVertxEventObserver`: an observer with `@VertxConsumer(a)` adds `a`; one without adds nothing. */
    method ProcessVertxEventObserver(observedQualifiers: seq<Annotation>)
      modifies this
      ensures (forall a :: a in observedQualifiers ==> a.annotationType != VERTX_CONSUMER) ==> consumerAddresses == old(consumerAddresses)
      ensures FirstOfType(observedQualifiers, VERTX_CONSUMER).Some? ==>
        consumerAddresses == old(consumerAddresses) + {FirstOfType(observedQualifiers, VERTX_CONSUMER).value.value}
      ensures asyncReferenceQualifiers == old(asyncReferenceQualifiers) && asyncProducerMethods == old(asyncProducerMethods)
    {
      var q := GetQualifier(observedQualifiers, VERTX_CONSUMER);
      FirstOfTypeIsFirst(observedQualifiers, VERTX_CONSUMER);
      if q.None? {
        return;
      }
      consumerAddresses := consumerAddresses + {q.value.value};
    }

    /** `registerBeansAfterBeanDiscovery`: the `Vertx` and `Context` beans, only when a Vertx instance exists. */
    method RegisterBeansAfterBeanDiscovery(vertxClass: JavaType, vertxClosure: set<JavaType>, contextClass: JavaType, contextClosure: set<JavaType>)
      returns (beans: seq<VertxBean>)
      ensures !vertxAvailable ==> beans == []
      ensures vertxAvailable ==> |beans| == 2
      ensures vertxAvailable ==> forall t :: t in beans[0].types <==>
        t == ClassType("io.vertx.core.Vertx") || t == vertxClass || t in vertxClosure || t == OBJECT
      ensures vertxAvailable ==> forall t :: t in beans[1].types <==>
        t == ClassType("io.vertx.core.Context") || t == contextClass || t in contextClosure || t == OBJECT
      ensures forall b :: b in beans ==> b.qualifiers == {ANY, DEFAULT}
    {
      if !vertxAvailable {
        return [];
      }
      var vertxBean := NewVertxBean(GetBeanTypes(vertxClass, vertxClosure, [ClassType("io.vertx.core.Vertx")]));
      var contextBean := NewVertxBean(GetBeanTypes(contextClass, contextClosure, [ClassType("io.vertx.core.Context")]));
      beans := [vertxBean, contextBean];
    }

    /**
     * `registerConsumersAfterDeploymentValidation`: consumers are registered
     * (returns `true`) only when a Vertx instance exists; the collected
     * async-reference qualifiers are cleared either way.
     */
    method RegisterConsumersAfterDeploymentValidation() returns (registersConsumers: bool)
      modifies this
      ensures registersConsumers == vertxAvailable
      ensures asyncReferenceQualifiers == {}
      ensures consumerAddresses == old(consumerAddresses) && asyncProducerMethods == old(asyncProducerMethods)
    {
      registersConsumers := vertxAvailable;
      asyncReferenceQualifiers := {};
    }

    /** `getAsyncProducerMetadata`: the registered entries that match, empty for an empty registry. */
    method GetAsyncProducerMetadata(requiredType: JavaType, qualifiers: set<Annotation>, assignable: Assignability)
      returns (found: seq<AsyncProducerMetadata>)
      ensures found == MatchingEntries(asyncProducerMethods, requiredType, qualifiers, assignable)
      ensures forall m :: m in found <==> m in asyncProducerMethods && Matches(m, requiredType, qualifiers, assignable)
      ensures asyncProducerMethods == [] ==> found == []
    {
      if asyncProducerMethods == [] {
        return [];
      }
      found := [];
      var i := 0;
      while i < |asyncProducerMethods|
        invariant 0 <= i <= |asyncProducerMethods|
        invariant found + MatchingEntries(asyncProducerMethods[i..], requiredType, qualifiers, assignable)
               == MatchingEntries(asyncProducerMethods, requiredType, qualifiers, assignable)
      {
        assert asyncProducerMethods[i..][1..] == asyncProducerMethods[i + 1..];
        if Matches(asyncProducerMethods[i], requiredType, qualifiers, assignable) {
          found := found + [asyncProducerMethods[i]];
        }
        i := i + 1;
      }
      MatchingEntriesExactly(asyncProducerMethods, requiredType, qualifiers, assignable);
    }
  }
}
