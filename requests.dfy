/**
 * The values an endpoint helper works with: JavaScript arguments and their truthiness, the tenant
 * identifiers, the options record a helper builds, and the request it hands to the transport.
 */
module Requests {
  import opened Wrappers

  /** A JavaScript value as passed in an untyped (`any`) argument; an omitted argument is Undefined. */
  datatype JsValue =
    | Undefined
    | Null
    | Bool(b: bool)
    | Num(n: int)
    | Str(s: string)
    | Obj(fields: seq<(string, JsValue)>)
    | Arr(items: seq<JsValue>)

  /** What `if (v)` decides: every object and every array is truthy, even `{}` and `[]`. */
  function Truthy(v: JsValue): (b: bool)
    ensures !b <==> v == Undefined || v == Null || v == Bool(false) || v == Num(0) || v == Str("")
    ensures v.Obj? || v.Arr? ==> b
  {
    match v
    case Undefined => false
    case Null => false
    case Bool(b) => b
    case Num(n) => n != 0
    case Str(s) => s != ""
    case Obj(_) => true
    case Arr(_) => true
  }

  /** One named part of a multipart body. */
  datatype MultipartItem = MultipartItem(name: string, content: seq<bv8>, filename: Option<string>, contentType: Option<string>)

  /** An optional `string | null` tenant argument: omitted, explicitly null, or an identifier. */
  datatype TenantId = Omitted | NullId | Id(value: string)

  /** The tenant a transport is resolved for. */
  datatype Scope = Scope(agent: TenantId, user: TenantId)

  datatype Verb = Get | Post | Put | Delete

  /** The options record handed to the transport; an absent field is a key the record does not have. */
  datatype Options = Options(query: Option<JsValue>, json: Option<JsValue>, multipart: Option<seq<MultipartItem>>)

  /** The record `{}` every optional-payload helper starts from. */
  const NoOptions := Options(None, None, None)

  /** One request as issued through a tenant-scoped transport. */
  datatype Request = Request(verb: Verb, path: string, scope: Scope, options: Options)

  /** Failures of the collaborators, which the helpers pass on unchanged. */
  datatype Error = TransportError(reason: string) | DeserializationError(reason: string)

  /** The options of `get`: the query, exactly when it is truthy, and nothing else. */
  function QueryOptions(query: JsValue): (o: Options)
    ensures o.query.Some? <==> Truthy(query)
    ensures o.query.Some? ==> o.query.value == query
    ensures o.json.None? && o.multipart.None?
  {
    if Truthy(query) then NoOptions.(query := Some(query)) else NoOptions
  }

  /** The options of `postJson` and `delete`: the JSON body exactly when the payload is truthy. */
  function JsonOptions(payload: JsValue): (o: Options)
    ensures o == NoOptions <==> !Truthy(payload)
    ensures o.json.Some? ==> o.json.value == payload
    ensures o.query.None? && o.multipart.None?
  {
    if Truthy(payload) then NoOptions.(json := Some(payload)) else NoOptions
  }

  /** The options of `postMultipart`: the parts whenever an array is given, even an empty one. */
  function MultipartOptions(payload: Option<seq<MultipartItem>>): (o: Options)
    ensures o == NoOptions <==> payload.None?
    ensures payload.Some? ==> o.multipart == Some(payload.value)
    ensures o.query.None? && o.json.None?
  {
    if payload.Some? then NoOptions.(multipart := payload) else NoOptions
  }

  /** The options of `put`: the payload is always the JSON body, whatever its truthiness. */
  function PutOptions(payload: JsValue): (o: Options)
    ensures o.json == Some(payload)
    ensures o.query.None? && o.multipart.None?
  {
    NoOptions.(json := Some(payload))
  }

  /**
   * The result of a helper once the transport has replied: a transport failure is returned as it is
   * (no retry, no translation); otherwise the reply's data goes through the serializer.
   */
  function Complete(reply: Result<string, Error>, deserialize: string -> Result<JsValue, Error>): (r: Result<JsValue, Error>)
    ensures reply.Failure? ==> r == Failure(reply.error)
    ensures reply.Success? ==> r == deserialize(reply.value)
  {
    match reply
    case Failure(e) => Failure(e)
    case Success(data) => deserialize(data)
  }

  /**
   * An omitted JSON payload and an empty object give different options records: the first has no
   * `json` key, the second has `json: {}`; `put` puts even a falsy payload under `json`.
   */
  lemma NoBodyDiffersFromEmptyBody()
    ensures JsonOptions(Undefined) == NoOptions && JsonOptions(Null) == NoOptions
    ensures JsonOptions(Num(0)) == NoOptions && JsonOptions(Str("")) == NoOptions
    ensures JsonOptions(Obj([])).json == Some(Obj([]))
    ensures MultipartOptions(Some([])).multipart == Some([])
    ensures PutOptions(Undefined).json == Some(Undefined)
  {
  }
}
