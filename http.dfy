/**
 * What the stores see of the REST API: a reply to one request, and the
 * query-parameter list a GET request carries.
 */
module Http {
  import opened Wrappers
  import JsText

  /**
   * The outcome of one awaited request:
   * Ok: the body says `success: true` and carries `payload` as its `data`;
   * Fail: the body says `success: false`, with its `message` field (possibly absent);
   * Throw: the request raised, with `err.response?.data?.message` (possibly absent).
   */
  datatype Reply<T> = Ok(payload: T) | Fail(message: Option<string>) | Throw(message: Option<string>)

  /**
   * The `error` a store keeps after a reply that is not Ok: the raw server
   * message for Fail, the server message or else the fallback for Throw.
   */
  function ErrorAfter<T>(reply: Reply<T>, fallback: string): (e: Option<string>)
    requires !reply.Ok?
    ensures reply.Fail? ==> e == reply.message
    ensures reply.Throw? ==> e.Some? && e.value == JsText.OrElse(reply.message, fallback)
    ensures reply.Throw? && fallback != "" ==> JsText.Truthy(e)
  {
    match reply
    case Fail(m) => m
    case Throw(m) => Some(JsText.OrElse(m, fallback))
  }

  /** One `URLSearchParams.append(key, value)`. */
  datatype QueryParam = QueryParam(key: string, value: string)

  /** `URLSearchParams.get(key)`: the value of the first parameter named `key`. */
  function Lookup(params: seq<QueryParam>, key: string): (r: Option<string>)
    ensures r.Some? <==> exists i :: 0 <= i < |params| && params[i].key == key
  {
    if params == [] then None
    else if params[0].key == key then Some(params[0].value)
    else Lookup(params[1..], key)
  }

  /** A found value is that of the first parameter with the key, returned as `i`. */
  lemma {:induction false} LookupFirst(params: seq<QueryParam>, key: string) returns (i: int)
    requires Lookup(params, key).Some?
    ensures 0 <= i < |params| && params[i] == QueryParam(key, Lookup(params, key).value)
    ensures forall j :: 0 <= j < i ==> params[j].key != key
  {
    if params[0].key == key {
      i := 0;
    } else {
      var i' := LookupFirst(params[1..], key);
      i := i' + 1;
      forall j | 0 <= j < i
        ensures params[j].key != key
      {
        if j > 0 {
          assert params[j] == params[1..][j - 1];
        }
      }
    }
  }

  /** A filter parameter, sent only when its value is non-empty (truthy). */
  function Filter(key: string, value: string): (r: seq<QueryParam>)
    ensures |r| == (if value != "" then 1 else 0)
    ensures forall k :: Lookup(r, k) == (if value != "" && k == key then Some(value) else None)
    ensures forall i :: 0 <= i < |r| ==> r[i].key == key
  {
    if value != "" then [QueryParam(key, value)] else []
  }

  /** Looking a key up in a concatenation looks in the first part, then in the second. */
  lemma {:induction false} LookupAppend(a: seq<QueryParam>, b: seq<QueryParam>, key: string)
    ensures Lookup(a + b, key) == if Lookup(a, key).Some? then Lookup(a, key) else Lookup(b, key)
  {
    if a == [] {
      assert a + b == b;
    } else {
      assert (a + b)[0] == a[0];
      assert (a + b)[1..] == a[1..] + b;
      LookupAppend(a[1..], b, key);
    }
  }
}
