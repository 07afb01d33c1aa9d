/**
 * The browser and network facilities the pages use, made into values:
 * an HTTP reply is an input, `localStorage` is a map held by an object,
 * a toast is a Notice, and `JSON.parse` yields a ParseResult.
 */
module Browser {

  datatype Option<+T> = None | Some(value: T)

  /** A toast notification shown to the user. */
  datatype Notice = Success(text: string) | Warning(text: string) | Failure(text: string)

  /** The fields the pages read from a JSON reply body. An absent field is None. */
  datatype JsonBody = JsonBody(message: Option<string>, accessToken: Option<string>, statusCode: Option<int>)

  /**
   * What a `fetch` followed by `response.json()` produced: the request threw
   * (server unreachable), or it was answered with an `ok` flag and a body that
   * either parsed (Some) or made `response.json()` throw (None).
   */
  datatype HttpReply = Unreachable | Answered(ok: bool, json: Option<JsonBody>)

  /** The same for an endpoint whose body is a JSON array of items. */
  datatype ListReply<T> = ListUnreachable | ListAnswered(ok: bool, items: Option<seq<T>>)

  /** The items of a list reply, or None on every path that ends in the page's `catch`. */
  function ListItems<T>(reply: ListReply<T>): (r: Option<seq<T>>)
    ensures r.Some? <==> reply.ListAnswered? && reply.ok && reply.items.Some?
    ensures r.Some? ==> r.value == reply.items.value
  {
    match reply
    case ListUnreachable => None
    case ListAnswered(ok, items) => if ok then items else None
  }

  /** A JSON value as `JSON.parse` returns it. */
  datatype Json =
    | JNull
    | JBool(b: bool)
    | JNumber(n: real)
    | JString(s: string)
    | JArray(elems: seq<Json>)
    | JObject(fields: map<string, Json>)

  datatype ParseResult = SyntaxError | Parsed(value: Json)

  /** `v && typeof v === 'object'`: arrays and objects, but not null. */
  predicate IsTruthyObject(v: Json) {
    v.JArray? || v.JObject?
  }

  /** JavaScript truthiness of a string that may be absent. */
  predicate Truthy(v: Option<string>) {
    v.Some? && v.value != ""
  }

  /** `v || fallback` for a value that is a string or undefined. */
  function Or(v: Option<string>, fallback: string): (r: string)
    ensures Truthy(v) ==> r == v.value
    ensures !Truthy(v) ==> r == fallback
  {
    if v.Some? && v.value != "" then v.value else fallback
  }

  /** `v ?? fallback`: only an absent (null or undefined) value is replaced. */
  function Coalesce<T>(v: Option<T>, fallback: T): (r: T)
    ensures v.Some? ==> r == v.value
    ensures v.None? ==> r == fallback
  {
    match v
    case Some(x) => x
    case None => fallback
  }

  /** `localStorage`: string keys to string values. */
  class Storage {
    var entries: map<string, string>

    constructor (initial: map<string, string>)
      ensures entries == initial
    {
      entries := initial;
    }

    /** `localStorage.getItem(key)`; None stands for null. */
    function GetItem(key: string): (r: Option<string>)
      reads this
      ensures r.Some? <==> key in entries
      ensures r.Some? ==> r.value == entries[key]
    {
      if key in entries then Some(entries[key]) else None
    }

    method SetItem(key: string, value: string)
      modifies this
      ensures entries == old(entries)[key := value]
    {
      entries := entries[key := value];
    }

    method RemoveItem(key: string)
      modifies this
      ensures entries == old(entries) - {key}
    {
      entries := entries - {key};
    }
  }
}
