/**
 * What the client code shares around an HTTP call: the side effects it
 * produces (toasts, navigation, requests issued, user persistence), the
 * shapes of axios responses and errors, the outcome of a backend call seen
 * as an oracle, browser storage, and an axios request config whose headers
 * interceptors rewrite in place.
 */
module Http {
  import opened Wrappers
  import opened Js
  import Strings

  /** `ElMessage.success`, `ElMessage.warning` and `ElMessage.error`. */
  datatype Severity = Success | Warning | Failure

  /** A side effect, in the order the code performs it. */
  datatype Effect =
    | Toast(severity: Severity, text: string)  // a user-visible message
    | Navigate(path: string)                   // router.push or window.location.href
    | Call(endpoint: string)                   // a backend request is issued
    | SaveUser(info: Json)                     // the user record is persisted
    | ForgetUser                               // the persisted user record is removed

  /** The number of toasts among `effects`. */
  function Toasts(effects: seq<Effect>): (n: nat)
    ensures n <= |effects|
  {
    if effects == [] then 0 else (if effects[0].Toast? then 1 else 0) + Toasts(effects[1..])
  }

  /** The number of toasts in a concatenation is the sum of both parts. */
  lemma {:induction false} ToastsAppend(a: seq<Effect>, b: seq<Effect>)
    ensures Toasts(a + b) == Toasts(a) + Toasts(b)
  {
    if a != [] {
      assert (a + b)[1..] == a[1..] + b;
      ToastsAppend(a[1..], b);
    } else {
      assert a + b == b;
    }
  }

  /** What awaiting a backend call yields: the resolved value, or the error it rejected with. */
  datatype ApiOutcome = Returned(value: Option<Json>) | Threw(error: Error)

  /** An axios response: its status, status text and parsed body (`response.data`). */
  datatype HttpResponse = HttpResponse(status: int, statusText: string, data: Option<Json>)

  /**
   * An axios error: its message, the response when one arrived, and whether
   * the request had been sent (`error.request`).
   */
  datatype AxiosError = AxiosError(message: string, response: Option<HttpResponse>, requestSent: bool)

  /** What a handler produces: a value or a rejection, and the effects it performed. */
  datatype Reaction<+T> = Reaction(result: Result<T>, effects: seq<Effect>)

  /** `localStorage` or `sessionStorage`: string keys to string values. */
  class Storage {
    var items: map<string, string>

    constructor (initial: map<string, string>)
      ensures items == initial
    {
      items := initial;
    }

    /** `getItem(key)`, `None` for null. */
    function GetItem(key: string): Option<string>
      reads this
    {
      if key in items then Some(items[key]) else None
    }

    /** `setItem(key, value)` */
    method SetItem(key: string, value: string)
      modifies this
      ensures items == old(items)[key := value]
    {
      items := items[key := value];
    }

    /** `removeItem(key)` */
    method RemoveItem(key: string)
      modifies this
      ensures items == old(items) - {key}
    {
      items := items - {key};
    }
  }

  /** The stored token is sent only when it is a non-empty string. */
  predicate HasToken(token: Option<string>)
  {
    token.Some? && token.value != ""
  }

  const Bearer := "Bearer "

  /**
   * `token.replace('Bearer ', '')`, which every auth-header builder applies:
   * the first occurrence of the prefix is removed, wherever it stands.
   */
  function StripBearer(token: string): (r: string)
    ensures Strings.StartsWith(token, Bearer) ==> r == token[|Bearer|..]
    ensures !Strings.Contains(token, Bearer) ==> r == token
    ensures Strings.Contains(token, Bearer) ==> |r| + |Bearer| == |token|
  {
    Strings.ReplaceFirst(token, Bearer, "")
  }

  /** Only one prefix is removed: `'Bearer Bearer x'` becomes `'Bearer x'`. */
  lemma StripBearerOnce(rest: string)
    ensures StripBearer(Bearer + rest) == rest
  {
    Strings.RemoveLeading(Bearer, rest);
  }

  /** A prefix that is not at the start is removed where it first occurs. */
  lemma StripBearerInside(token: string, i: nat)
    requires Strings.OccursAt(token, Bearer, i)
    requires forall j :: 0 <= j < i ==> !Strings.OccursAt(token, Bearer, j)
    ensures StripBearer(token) == token[..i] + token[i + |Bearer|..]
  {
    Strings.ReplaceFirstAt(token, Bearer, "", i);
  }

  /** An axios request config; interceptors rewrite its headers in place. */
  class RequestConfig {
    var headers: map<string, string>

    constructor (initial: map<string, string>)
      ensures headers == initial
    {
      headers := initial;
    }
  }
}
