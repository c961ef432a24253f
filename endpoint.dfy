/**
 * The base of every REST endpoint: five verb helpers that build an options record, resolve a
 * transport for the tenant, issue exactly one request and deserialize the reply's data.
 */
module Endpoints {
  import opened Wrappers
  import opened Requests
  import Paths

  /** A transport resolved for one tenant; a fresh one is resolved on every call. */
  datatype HttpHandle = HttpHandle(scope: Scope)

  /**
   * The SDK client as the endpoint base sees it: a log of every request issued through its
   * transports, the backend's reply to a request (its data, or the transport's failure) and the
   * serializer.
   */
  class CatClient {
    var sent: seq<Request>
    const respond: Request -> Result<string, Error>
    const deserialize: string -> Result<JsValue, Error>

    constructor (respond: Request -> Result<string, Error>, deserialize: string -> Result<JsValue, Error>)
      ensures sent == [] && this.respond == respond && this.deserialize == deserialize
    {
      sent := [];
      this.respond := respond;
      this.deserialize := deserialize;
    }

    /** Issues one request through `handle`: it is appended to the log and answered by the backend. */
    method Send(handle: HttpHandle, verb: Verb, path: string, options: Options) returns (reply: Result<string, Error>)
      modifies this
      ensures sent == old(sent) + [Request(verb, path, handle.scope, options)]
      ensures reply == respond(Request(verb, path, handle.scope, options))
    {
      var request := Request(verb, path, handle.scope, options);
      sent := sent + [request];
      reply := respond(request);
    }
  }

  class AbstractEndpoint {
    const client: CatClient

    constructor (client: CatClient)
      ensures this.client == client
    {
      this.client := client;
    }

    /** The transport for exactly the given tenant. */
    function GetHttpClient(agentId: TenantId, userId: TenantId): (handle: HttpHandle)
      ensures handle.scope.agent == agentId && handle.scope.user == userId
    {
      HttpHandle(Scope(agentId, userId))
    }

    /** `get`: a GET of `endpoint` as given, with the query only when it is truthy. */
    method Get(endpoint: string, agentId: TenantId, userId: TenantId, query: JsValue) returns (result: Result<JsValue, Error>)
      modifies client
      ensures client.sent == old(client.sent) + [Request(Verb.Get, endpoint, Scope(agentId, userId), QueryOptions(query))]
      ensures result == Complete(client.respond(Request(Verb.Get, endpoint, Scope(agentId, userId), QueryOptions(query))), client.deserialize)
    {
      var options := NoOptions;
      if Truthy(query) {
        options := options.(query := Some(query));
      }
      var reply := client.Send(GetHttpClient(agentId, userId), Verb.Get, endpoint, options);
      result := Complete(reply, client.deserialize);
    }

    /** `postJson`: a POST of `endpoint` as given, with the JSON body only when the payload is truthy. */
    method PostJson(endpoint: string, payload: JsValue, agentId: TenantId, userId: TenantId) returns (result: Result<JsValue, Error>)
      modifies client
      ensures client.sent == old(client.sent) + [Request(Post, endpoint, Scope(agentId, userId), JsonOptions(payload))]
      ensures result == Complete(client.respond(Request(Post, endpoint, Scope(agentId, userId), JsonOptions(payload))), client.deserialize)
    {
      var options := NoOptions;
      if Truthy(payload) {
        options := options.(json := Some(payload));
      }
      var reply := client.Send(GetHttpClient(agentId, userId), Post, endpoint, options);
      result := Complete(reply, client.deserialize);
    }

    /** `postMultipart`: a POST of `endpoint` as given, with the parts whenever an array is given. */
    method PostMultipart(endpoint: string, payload: Option<seq<MultipartItem>>, agentId: TenantId, userId: TenantId)
      returns (result: Result<JsValue, Error>)
      modifies client
      ensures client.sent == old(client.sent) + [Request(Post, endpoint, Scope(agentId, userId), MultipartOptions(payload))]
      ensures result == Complete(client.respond(Request(Post, endpoint, Scope(agentId, userId), MultipartOptions(payload))), client.deserialize)
    {
      var options := NoOptions;
      if payload.Some? {
        options := options.(multipart := payload);
      }
      var reply := client.Send(GetHttpClient(agentId, userId), Post, endpoint, options);
      result := Complete(reply, client.deserialize);
    }

    /** `put`: a PUT of `endpoint` as given, always with `{json: payload}`. */
    method Put(endpoint: string, payload: JsValue, agentId: TenantId, userId: TenantId) returns (result: Result<JsValue, Error>)
      modifies client
      ensures client.sent == old(client.sent) + [Request(Verb.Put, endpoint, Scope(agentId, userId), PutOptions(payload))]
      ensures result == Complete(client.respond(Request(Verb.Put, endpoint, Scope(agentId, userId), PutOptions(payload))), client.deserialize)
    {
      var reply := client.Send(GetHttpClient(agentId, userId), Verb.Put, endpoint, Options(None, Some(payload), None));
      result := Complete(reply, client.deserialize);
    }

    /** `delete`: a DELETE of `endpoint` as given, with the JSON body only when the payload is truthy. */
    method Delete(endpoint: string, agentId: TenantId, userId: TenantId, payload: JsValue) returns (result: Result<JsValue, Error>)
      modifies client
      ensures client.sent == old(client.sent) + [Request(Verb.Delete, endpoint, Scope(agentId, userId), JsonOptions(payload))]
      ensures result == Complete(client.respond(Request(Verb.Delete, endpoint, Scope(agentId, userId), JsonOptions(payload))), client.deserialize)
    {
      var options := NoOptions;
      if Truthy(payload) {
        options := options.(json := Some(payload));
      }
      var reply := client.Send(GetHttpClient(agentId, userId), Verb.Delete, endpoint, options);
      result := Complete(reply, client.deserialize);
    }
  }

  /**
   * How a concrete endpoint with prefix "memory" reads points: it formats the path itself and
   * passes it to `get`, which sends it unchanged with the query and the agent's scope.
   */
  method ReadMemoryPoints(client: CatClient) returns (result: Result<JsValue, Error>)
    modifies client
    ensures var request := Request(Verb.Get, "/memory/points", Scope(Id("agentA"), NullId), Options(Some(Obj([("limit", Num(10))])), None, None));
      client.sent == old(client.sent) + [request] && result == Complete(client.respond(request), client.deserialize)
  {
    var endpoint := new AbstractEndpoint(client);
    Paths.FormatUrlExamples();
    var path := Paths.FormatUrl("memory", "points");
    assert path == "/memory/points";
    result := endpoint.Get(path, Id("agentA"), NullId, Obj([("limit", Num(10))]));
  }

  /**
   * How a concrete endpoint with prefix "plugins" uploads an archive: one POST of "/plugins/upload"
   * whose multipart body is exactly the one part named "file".
   */
  method UploadPlugin(client: CatClient, archive: seq<bv8>) returns (result: Result<JsValue, Error>)
    modifies client
    ensures var request := Request(Post, "/plugins/upload", Scope(Omitted, Omitted), Options(None, None, Some([MultipartItem("file", archive, Some("x.zip"), None)])));
      client.sent == old(client.sent) + [request] && result == Complete(client.respond(request), client.deserialize)
  {
    var endpoint := new AbstractEndpoint(client);
    var parts := [MultipartItem("file", archive, Some("x.zip"), None)];
    Paths.FormatUrlExamples();
    var path := Paths.FormatUrl("plugins", "upload");
    assert path == "/plugins/upload";
    assert MultipartOptions(Some(parts)) == Options(None, None, Some(parts));
    result := endpoint.PostMultipart(path, Some(parts), Omitted, Omitted);
  }
}
