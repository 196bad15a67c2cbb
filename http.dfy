/** The slice of JavaScript and of the serverless request/response API that
    the two API handlers use: values and their truthiness, the body
    destructuring, responses, and the result of the upstream AI call. */
module Http {
  /** A JavaScript value as it arrives in a parsed request body or comes
      back from the upstream call. Numbers are reals, with NaN apart. */
  datatype JsValue =
    | Undefined
    | Null
    | Bool(b: bool)
    | Num(x: real)
    | NaN
    | Str(s: string)
    | Arr(items: seq<JsValue>)
    | Obj(fields: map<string, JsValue>)

  /** JavaScript truthiness: `undefined`, `null`, `false`, `0`, `NaN` and
      the empty string are falsy; everything else, empty arrays and objects
      included, is truthy. */
  function Truthy(v: JsValue): (t: bool)
    ensures !t <==> v in {Undefined, Null, Bool(false), Num(0.0), NaN, Str("")}
  {
    match v
    case Undefined => false
    case Null => false
    case Bool(b) => b
    case Num(x) => x != 0.0
    case NaN => false
    case Str(s) => s != ""
    case Arr(_) => true
    case Obj(_) => true
  }

  /** A property read from `req.body || {}`: a falsy body reads as `{}`,
      and only an object carries own properties. */
  function Field(body: JsValue, name: string): (r: JsValue)
    ensures !Truthy(body) ==> r == Undefined
    ensures body.Obj? && name in body.fields ==> r == body.fields[name]
    ensures !body.Obj? || name !in body.fields ==> r == Undefined
  {
    if body.Obj? && name in body.fields then body.fields[name] else Undefined
  }

  datatype Request = Request(verb: string, body: JsValue)

  /** The one response a handler sends: a status code and a JSON body. */
  datatype Response = Response(status: nat, body: JsValue)

  /** The `{ error: msg }` body of every failure response. */
  function ErrorBody(msg: string): JsValue
  {
    Obj(map["error" := Str(msg)])
  }

  const MethodNotAllowed := Response(405, ErrorBody("Method not allowed"))

  /** What awaiting the upstream call produced: a value (possibly falsy),
      or an exception whose `String(err)` is `err`. */
  datatype UpstreamResult = Value(v: JsValue) | Throws(err: string)

  /** `JSON.stringify` of a value, kept symbolic: the text is never
      inspected, only passed along. */
  datatype JsonText = Stringify(value: JsValue)

  /** The `try`/`catch` tail both handlers share: an exception is a 500
      with its message, a falsy value a 500 "AI returned empty response",
      any other value is sent back unchanged with 200. */
  function UpstreamResponse(u: UpstreamResult): (r: Response)
    ensures r.status == 200 <==> u.Value? && Truthy(u.v)
    ensures r.status == 200 ==> r.body == u.v
    ensures r.status != 200 ==> r.status == 500
    ensures u.Throws? ==> r.body == ErrorBody(u.err)
    ensures u.Value? && !Truthy(u.v) ==> r.body == ErrorBody("AI returned empty response")
  {
    match u
    case Throws(err) => Response(500, ErrorBody(err))
    case Value(v) =>
      if !Truthy(v) then Response(500, ErrorBody("AI returned empty response"))
      else Response(200, v)
  }

  /** A 200 response never carries an error body made from a falsy value:
      what the client gets on success is always truthy. */
  lemma SuccessBodyTruthy(u: UpstreamResult)
    ensures UpstreamResponse(u).status == 200 ==> Truthy(UpstreamResponse(u).body)
  {
  }
}
