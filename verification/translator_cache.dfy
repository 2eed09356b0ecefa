/**
 * The translator example's two caches of translation data. Both map
 * lower-cased words to lists of translations, fill the map only for words
 * not yet present, and are emptied by a clear-cache message. The data
 * arrive as a JSON object with a "word" string and a "translations" array.
 */
module TranslatorCache {
  import opened Wrappers
  import opened JavaLang
  import opened JavaInteger

  /** `Character.toLowerCase` on the ASCII letters. */
  function LowerChar(c: char): (d: char)
    ensures 'A' <= c <= 'Z' ==> d as int == c as int + 32
    ensures !('A' <= c <= 'Z') ==> d == c
  {
    if 'A' <= c <= 'Z' then (c as int + 32) as char else c
  }

  /** `String.toLowerCase()`, letter by letter. */
  function Lower(s: string): (r: string)
    ensures |r| == |s|
    ensures forall i :: 0 <= i < |s| ==> r[i] == LowerChar(s[i])
  {
    seq(|s|, i requires 0 <= i < |s| => LowerChar(s[i]))
  }

  /** Lower-casing twice changes nothing more; so words differing only in case share an entry. */
  lemma LowerIdempotent(s: string)
    ensures Lower(Lower(s)) == Lower(s)
  {
    assert forall i :: 0 <= i < |s| ==> LowerChar(LowerChar(s[i])) == LowerChar(s[i]);
  }

  /**
   * The text `toString` gives for an array element: the characters of a
   * string, number or boolean, or the JSON text of a nested array or object
   * (and another object's own rendering), kept unspelled.
   */
  datatype Text = Chars(chars: string) | Rendered(element: Value)

  /** `element.toString()`; `None` for a null element, where Java throws `NullPointerException`. */
  function ElementText(v: Value): (r: Option<Text>)
    ensures r.None? <==> v.JNull?
    ensures v.JString? ==> r == Some(Chars(v.s))
  {
    match v
    case JNull => None
    case JString(s) => Some(Chars(s))
    case JNumber(n) => Some(Chars(IntToString(n)))
    case JBool(b) => Some(Chars(if b then "true" else "false"))
    case _ => Some(Rendered(v))
  }

  /** What a message body yields. */
  datatype Extraction =
    /** Not a JSON object, or no "word": nothing is cached. */
    | NoData
    /** The word and its translations, in array order. */
    | Data(word: string, translations: seq<Text>)
    /** "word" is not a string or "translations" not an array: `ClassCastException`. */
    | WrongType
    /** A null translation: `NullPointerException`. */
    | NullElement

  /** `JsonObject.get`: a missing key and a JSON null both read as null. */
  function Field(fields: map<string, Value>, key: string): (r: Option<Value>)
    ensures r.Some? ==> key in fields && r.value == fields[key] && !r.value.JNull?
    ensures r.None? ==> key !in fields || fields[key].JNull?
  {
    if key in fields && !fields[key].JNull? then Some(fields[key]) else None
  }

  /** The texts of `elems` in order, or `None` if one of them is null. */
  function Texts(elems: seq<Value>): (r: Option<seq<Text>>)
    ensures r.Some? ==> |r.value| == |elems|
    decreases |elems|
  {
    if elems == [] then Some([])
    else
      var init := Texts(elems[..|elems| - 1]);
      var last := ElementText(elems[|elems| - 1]);
      if init.None? || last.None? then None else Some(init.value + [last.value])
  }

  /** The texts are there exactly when no element is null, and each is its element's text. */
  lemma {:induction false} TextsExactly(elems: seq<Value>)
    ensures Texts(elems).Some? <==> forall i :: 0 <= i < |elems| ==> !elems[i].JNull?
    ensures Texts(elems).Some? ==> forall i :: 0 <= i < |elems| ==> Some(Texts(elems).value[i]) == ElementText(elems[i])
    decreases |elems|
  {
    if elems != [] {
      var init := elems[..|elems| - 1];
      TextsExactly(init);
      assert forall i :: 0 <= i < |init| ==> init[i] == elems[i];
    }
  }

  /**
   * The body read as translation data: a JSON object whose "word" is a
   * string; the "translations" array gives the list, a missing one an empty
   * list.
   */
  function Extract(body: Option<Value>): Extraction {
    if body.None? || !body.value.JObject? then NoData
    else
      var fields := body.value.fields;
      match Field(fields, "word")
      case None => NoData
      case Some(w) =>
        if !w.JString? then WrongType
        else
          match Field(fields, "translations")
          case None => Data(w.s, [])
          case Some(a) =>
            if !a.JArray? then WrongType
            else
              match Texts(a.elems)
              case None => NullElement
              case Some(ts) => Data(w.s, ts)
  }

  /** A well-formed body yields its word and the texts of its translations. */
  lemma ExtractData(word: string, elems: seq<Value>, fields: map<string, Value>)
    requires fields == map["word" := JString(word), "translations" := JArray(elems)]
    requires forall i :: 0 <= i < |elems| ==> elems[i].JString?
    ensures Extract(Some(JObject(fields))) == Data(word, seq(|elems|, i requires 0 <= i < |elems| => Chars(elems[i].s)))
  {
    TextsExactly(elems);
    var ts := Texts(elems).value;
    assert forall i :: 0 <= i < |elems| ==> ts[i] == Chars(elems[i].s);
  }

  /** The list-building loop of both `putIfAbsent(event)` and `putIfAbsent(Object)`. */
  method ParseTranslationData(body: Option<Value>) returns (r: Extraction)
    ensures r == Extract(body)
  {
    if body.None? || !body.value.JObject? {
      return NoData;
    }
    var fields := body.value.fields;
    var word := Field(fields, "word");
    if word.None? {
      return NoData;
    }
    if !word.value.JString? {
      return WrongType;
    }
    var matches := Field(fields, "translations");
    if matches.None? {
      return Data(word.value.s, []);
    }
    if !matches.value.JArray? {
      return WrongType;
    }
    var elems := matches.value.elems;
    var found: seq<Text> := [];
    for i := 0 to |elems|
      invariant Texts(elems[..i]) == Some(found)
    {
      assert elems[..i + 1][..i] == elems[..i];
      var text := ElementText(elems[i]);
      if text.None? {
        TextsNullAt(elems, i);
        return NullElement;
      }
      found := found + [text.value];
    }
    assert elems[..|elems|] == elems;
    return Data(word.value.s, found);
  }

  lemma TextsNullAt(elems: seq<Value>, i: nat)
    requires i < |elems| && elems[i].JNull?
    ensures Texts(elems) == None
  {
    TextsExactly(elems);
  }

  /** `ConcurrentMap.putIfAbsent` under the lower-cased word. */
  function PutIfAbsent(cache: map<string, seq<Text>>, word: string, matches: seq<Text>): (r: map<string, seq<Text>>)
    ensures Lower(word) in cache ==> r == cache
    ensures r.Keys == cache.Keys + {Lower(word)}
    ensures forall k :: k in cache ==> r[k] == cache[k]
    ensures r[Lower(word)] == if Lower(word) in cache then cache[Lower(word)] else matches
  {
    if Lower(word) in cache then cache else cache[Lower(word) := matches]
  }

  /** `cache.get(word.toLowerCase())`. */
  function Lookup(cache: map<string, seq<Text>>, word: string): (r: Option<seq<Text>>)
    ensures r.Some? <==> Lower(word) in cache
    ensures r.Some? ==> r.value == cache[Lower(word)]
  {
    if Lower(word) in cache then Some(cache[Lower(word)]) else None
  }

  /** Every key is a lower-cased word. */
  predicate LowerKeys(cache: map<string, seq<Text>>) {
    forall k :: k in cache ==> Lower(k) == k
  }

  /** Storing keeps the keys lower-cased. */
  lemma PutIfAbsentKeepsLowerKeys(cache: map<string, seq<Text>>, word: string, matches: seq<Text>)
    requires LowerKeys(cache)
    ensures LowerKeys(PutIfAbsent(cache, word, matches))
  {
    LowerIdempotent(word);
  }

  /** After storing, any spelling of the word finds the first list stored for it; a second store changes nothing. */
  lemma PutIfAbsentThenLookup(cache: map<string, seq<Text>>, word: string, spelling: string, matches: seq<Text>)
    requires Lower(spelling) == Lower(word)
    ensures Lookup(PutIfAbsent(cache, word, matches), spelling)
      == Some(if Lower(word) in cache then cache[Lower(word)] else matches)
  {
  }

  /** Storing twice under one word keeps the first list. */
  lemma FirstStoreWins(cache: map<string, seq<Text>>, word: string, spelling: string, first: seq<Text>, second: seq<Text>)
    requires Lower(word) !in cache && Lower(spelling) == Lower(word)
    ensures PutIfAbsent(PutIfAbsent(cache, word, first), spelling, second) == PutIfAbsent(cache, word, first)
    ensures Lookup(PutIfAbsent(PutIfAbsent(cache, word, first), spelling, second), word) == Some(first)
  {
  }

  /** The cache the translator observers fill from translation-data messages. */
  class TranslationDataCache {
    var cache: map<string, seq<Text>>

    ghost predicate Valid()
      reads this
    {
      LowerKeys(cache)
    }

    constructor ()
      ensures Valid() && cache == map[]
    {
      cache := map[];
    }

    /** Observes the clear-cache message: the map is emptied. */
    method Clear()
      modifies this
      ensures Valid() && cache == map[]
    {
      cache := map[];
    }

    /**
     * Observes a translation-data message: a body with a word stores its
     * list unless the word is known; any other body leaves the map as it
     * is. `thrown` says the observer ended with an exception.
     */
    method PutIfAbsentFromBody(body: Option<Value>) returns (thrown: bool)
      requires Valid()
      modifies this
      ensures Valid()
      ensures thrown <==> Extract(body).WrongType? || Extract(body).NullElement?
      ensures cache == if Extract(body).Data? then PutIfAbsent(old(cache), Extract(body).word, Extract(body).translations) else old(cache)
    {
      var data := ParseTranslationData(body);
      if data.Data? {
        PutIfAbsentWord(data.word, data.translations);
      }
      thrown := data.WrongType? || data.NullElement?;
    }

    /** `getTranslations`: the list for the word in any case, or null if none is known yet. */
    function GetTranslations(word: string): (r: Option<seq<Text>>)
      reads this
      ensures r == Lookup(cache, word)
    {
      if Lower(word) in cache then Some(cache[Lower(word)]) else None
    }

    /** `putIfAbsent(word, matches)`: never overwrites. */
    method PutIfAbsentWord(word: string, matches: seq<Text>)
      requires Valid()
      modifies this
      ensures Valid()
      ensures cache == PutIfAbsent(old(cache), word, matches)
    {
      PutIfAbsentKeepsLowerKeys(cache, word, matches);
      var key := Lower(word);
      if key !in cache {
        cache := cache[key := matches];
      }
    }
  }

  /** The cache the blocking translator asks on the event bus on a miss. */
  class DataCache {
    var cache: map<string, seq<Text>>

    ghost predicate Valid()
      reads this
    {
      LowerKeys(cache)
    }

    constructor ()
      ensures Valid() && cache == map[]
    {
      cache := map[];
    }

    /** Observes the clear-cache message: the map is emptied. */
    method Clear()
      modifies this
      ensures Valid() && cache == map[]
    {
      cache := map[];
    }

    /**
     * `putIfAbsent(Object)`: a body with a word stores its list unless the
     * word is known, and returns the list just parsed, even when another one
     * stays cached; other bodies return null.
     */
    method PutIfAbsentFromBody(body: Option<Value>) returns (parsed: Option<seq<Text>>, thrown: bool)
      requires Valid()
      modifies this
      ensures Valid()
      ensures thrown <==> Extract(body).WrongType? || Extract(body).NullElement?
      ensures parsed.Some? <==> Extract(body).Data?
      ensures parsed.Some? ==> parsed.value == Extract(body).translations
      ensures cache == if Extract(body).Data? then PutIfAbsent(old(cache), Extract(body).word, Extract(body).translations) else old(cache)
    {
      var data := ParseTranslationData(body);
      parsed := None;
      if data.Data? {
        PutIfAbsentWord(data.word, data.translations);
        parsed := Some(data.translations);
      }
      thrown := data.WrongType? || data.NullElement?;
    }

    /** `putIfAbsent(word, matches)`: never overwrites. */
    method PutIfAbsentWord(word: string, matches: seq<Text>)
      requires Valid()
      modifies this
      ensures Valid()
      ensures cache == PutIfAbsent(old(cache), word, matches)
    {
      PutIfAbsentKeepsLowerKeys(cache, word, matches);
      var key := Lower(word);
      if key !in cache {
        cache := cache[key := matches];
      }
    }

    /**
     * `getTranslations`: a hit returns the cached list without asking. On a
     * miss, `reply` is the body of the data reply if one arrived within two
     * seconds: its parsed list is returned (and cached if still absent); with
     * no reply, or a body without data, the result is null.
     */
    method GetTranslations(word: string, reply: Option<Option<Value>>) returns (r: Option<seq<Text>>)
      requires Valid()
      modifies this
      ensures Valid()
      ensures Lower(word) in old(cache) ==> r == Some(old(cache)[Lower(word)]) && cache == old(cache)
      ensures Lower(word) !in old(cache) && reply.Some? && Extract(reply.value).Data? ==>
        r == Some(Extract(reply.value).translations)
        && cache == PutIfAbsent(old(cache), Extract(reply.value).word, Extract(reply.value).translations)
      ensures Lower(word) !in old(cache) && !(reply.Some? && Extract(reply.value).Data?) ==> r == None && cache == old(cache)
    {
      if Lower(word) in cache {
        return Some(cache[Lower(word)]);
      }
      r := None;
      if reply.Some? {
        var parsed, _ := PutIfAbsentFromBody(reply.value);
        r := parsed;
      }
    }
  }

  /** The texts of some strings. */
  function StringTexts(ss: seq<string>): (ts: seq<Text>)
    ensures |ts| == |ss| && forall i :: 0 <= i < |ss| ==> ts[i] == Chars(ss[i])
  {
    seq(|ss|, i requires 0 <= i < |ss| => Chars(ss[i]))
  }

  /**
   * A data reply for a word the cache already holds with another list:
   * `putIfAbsent(Object)` returns the list it just parsed while the cache
   * keeps the earlier one.
   */
  method FreshListMayDifferFromCached(word: string, cached: seq<Text>, translations: seq<string>)
    returns (dataCache: DataCache, returned: Option<seq<Text>>)
    requires cached != StringTexts(translations)
    ensures returned == Some(StringTexts(translations))
    ensures Lower(word) in dataCache.cache && dataCache.cache[Lower(word)] == cached
    ensures returned.value != dataCache.cache[Lower(word)]
  {
    dataCache := new DataCache();
    dataCache.PutIfAbsentWord(word, cached);
    var elems := seq(|translations|, i requires 0 <= i < |translations| => JString(translations[i]));
    var fields := map["word" := JString(word), "translations" := JArray(elems)];
    ExtractData(word, elems, fields);
    assert seq(|elems|, i requires 0 <= i < |elems| => Chars(elems[i].s)) == StringTexts(translations);
    var thrown: bool;
    returned, thrown := dataCache.PutIfAbsentFromBody(Some(JObject(fields)));
  }
}
