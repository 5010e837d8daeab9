/**
 * The values a route handler sees and produces: parsed JSON bodies, thrown
 * errors, HTTP responses, and the request context that middlewares pass down.
 * A handler is a function from context to outcome; a middleware wraps one.
 */
module JsValues {
  import opened Wrappers
  import opened JsText

  /** A value as `JSON.parse` produces it, plus `undefined` for an absent property. */
  datatype JsVal =
    | Undefined
    | Null
    | Bool(b: bool)
    | Num(n: real)
    | Str(s: string)
    | Arr(elems: seq<JsVal>)
    | Obj(props: seq<(string, JsVal)>)

  /** The type tags the validation schemas name, plus the one of `undefined`. */
  datatype JsType = TString | TNumber | TBoolean | TArray | TObject | TUndefined

  /** `Array.isArray(v) ? 'array' : typeof v` (so `null` is an 'object'). */
  function TypeTag(v: JsVal): JsType {
    match v
    case Undefined => TUndefined
    case Null => TObject
    case Bool(_) => TBoolean
    case Num(_) => TNumber
    case Str(_) => TString
    case Arr(_) => TArray
    case Obj(_) => TObject
  }

  function TypeLabel(t: JsType): string {
    match t
    case TString => "string"
    case TNumber => "number"
    case TBoolean => "boolean"
    case TArray => "array"
    case TObject => "object"
    case TUndefined => "undefined"
  }

  /** JavaScript truthiness (numbers are never NaN here). */
  predicate Truthy(v: JsVal) {
    match v
    case Undefined => false
    case Null => false
    case Bool(b) => b
    case Num(n) => n != 0.0
    case Str(s) => s != ""
    case Arr(_) => true
    case Obj(_) => true
  }

  /** `v === undefined || v === null`. */
  predicate IsNullish(v: JsVal) {
    v.Undefined? || v.Null?
  }

  /** The value bound to `key` in an object's property list; the last binding wins, as in `JSON.parse`. */
  function Lookup(props: seq<(string, JsVal)>, key: string): JsVal {
    if props == [] then Undefined
    else if props[|props| - 1].0 == key then props[|props| - 1].1
    else Lookup(props[..|props| - 1], key)
  }

  /** A key is read from its last binding: the one at `i` when no later property has that key. */
  lemma {:induction false} LookupLastBinding(props: seq<(string, JsVal)>, i: nat, key: string)
    requires i < |props| && props[i].0 == key
    requires forall j :: i < j < |props| ==> props[j].0 != key
    ensures Lookup(props, key) == props[i].1
    decreases |props|
  {
    if i < |props| - 1 {
      var init := props[..|props| - 1];
      assert forall j :: i < j < |init| ==> init[j] == props[j];
      LookupLastBinding(init, i, key);
    }
  }

  /**
   * `v[key]` for a value that is not null or undefined (reading a property of
   * those throws a TypeError, which callers model themselves). Properties
   * inherited from prototypes, such as a string's `length`, are not modelled.
   */
  function PropertyRead(v: JsVal, key: string): JsVal
    requires !IsNullish(v)
  {
    if v.Obj? then Lookup(v.props, key) else Undefined
  }

  function IndexKeys(n: nat): (keys: seq<string>)
    ensures |keys| == n
  {
    if n == 0 then [] else IndexKeys(n - 1) + [NatToDecimal(n - 1)]
  }

  /** `Object.keys(v)`: own property names in order; indices for arrays and strings. */
  function Keys(v: JsVal): seq<string> {
    match v
    case Obj(props) => seq(|props|, i requires 0 <= i < |props| => props[i].0)
    case Arr(elems) => IndexKeys(|elems|)
    case Str(s) => IndexKeys(|s|)
    case _ => []
  }

  /** A thrown value: an `Error` (with the fields the handlers inspect) or anything else. */
  datatype Thrown =
    | Error(name: string, message: string, code: Option<int>, keyPattern: Option<seq<string>>, stack: Option<string>)
    | NonError(text: string)

  /** A plain `new Error(message)`. */
  function PlainError(message: string): Thrown {
    Error("Error", message, None, None, None)
  }

  /** An HTTP response with a JSON body; `setCookie` is the Set-Cookie header, if any. */
  datatype Response = Response(status: int, body: JsVal, setCookie: Option<string>)

  /** The `{ success, message }` bodies that every handler returns. */
  function MessageBody(success: bool, message: string): JsVal {
    Obj([("success", Bool(success)), ("message", Str(message))])
  }

  function Reply(status: int, success: bool, message: string): Response {
    Response(status, MessageBody(success, message), None)
  }

  /** What awaiting a handler yields: a response, or a thrown value. */
  datatype Outcome = Returned(response: Response) | Threw(error: Thrown)

  /** The caller's identity once a session has been verified. */
  datatype Principal = Principal(id: string, email: string, name: string, role: string)

  /**
   * The request context handed down the middleware chain: method, URL, the
   * `id` route parameter, lower-cased request headers, the raw body, and what
   * earlier layers attached (the caller, the validated body).
   */
  datatype Ctx = Ctx(
    httpMethod: string,
    url: string,
    idParam: Option<string>,
    headers: map<string, string>,
    bodyText: string,
    user: Option<Principal>,
    validatedData: Option<JsVal>)

  type Handler = Ctx -> Outcome

  type Middleware = Handler -> Handler
}
