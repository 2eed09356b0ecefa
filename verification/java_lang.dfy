/** Nullable references. `None` stands for Java's `null`. */
module Wrappers {

  datatype Option<+T> = None | Some(value: T)
}

/**
 * The few pieces of the Java platform the model talks about: 32-bit `int`
 * bounds, reflective type tags, and the opaque objects carried on the
 * event bus (message bodies, replies, JSON values).
 */
module JavaLang {

  /** `Integer.MIN_VALUE` and `Integer.MAX_VALUE`. */
  const INT_MIN: int := -0x8000_0000
  const INT_MAX: int := 0x7fff_ffff

  predicate IsInt32(x: int) {
    INT_MIN <= x <= INT_MAX
  }

  /**
   * A reflective `java.lang.reflect.Type`: a raw class, a parameterized
   * type with its actual type arguments, or anything else (type variables,
   * wildcards, arrays) that the code under model only tests for.
   */
  datatype JavaType =
    | ClassType(name: string)
    | ParameterizedType(raw: string, args: seq<JavaType>)
    | OtherType(name: string)

  const OBJECT: JavaType := ClassType("java.lang.Object")

  /**
   * An object travelling on the event bus. JSON values keep their structure
   * because the translator caches inspect them; everything else is opaque.
   */
  datatype Value =
    | JString(s: string)
    | JNumber(n: int)
    | JBool(b: bool)
    | JNull
    | JArray(elems: seq<Value>)
    | JObject(fields: map<string, Value>)
    | Opaque(id: nat)
}

/** The HTTP methods of Vert.x's `HttpMethod` enum. */
module VertxHttp {
  datatype HttpMethod = OPTIONS | GET | HEAD | POST | PUT | DELETE | TRACE | CONNECT | PATCH | OTHER
}
