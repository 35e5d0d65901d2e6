/** The clients module: `ClientsModule.execute`. */
module Clients {
  import opened Js
  import opened Sdk
  import Credentials
  import Parties
  import Listing

  /** What "Get Info" answers without calling the API. */
  const InfoPlaceholder: Json := Obj(map["message" := Str("Client info endpoint not yet implemented in SDK")])

  /** The client body sent by create and update. */
  function ClientBody(p: Params): Object {
    Parties.NamedPayload(Param(p, "clientName", Undefined), Param(p, "additionalFields", Obj(map[])))
  }

  /**
   * Resolve the token (a plain Error when there is none), then run the
   * operation.
   */
  function Execute(op: string, p: Params, i: nat, creds: Object, env: Env): (r: Outcome)
    ensures r.request.Some? ==> Credentials.ResolveToken(creds).Some?
                                && r.request.value.token == Credentials.ResolveToken(creds).value
  {
    match Credentials.ResolveToken(creds)
    case None => Outcome(Err(Throw(PlainError, Credentials.MissingTokenMessage)), None)
    case Some(token) =>
      var companyId := Param(p, "companyId", Undefined);
      var clientId := Param(p, "clientId", Undefined);
      if op == "create" then
        Call(i, Request(token, CreateClient(companyId, ClientBody(p))), ReturnBody, env)
      else if op == "get" then
        Call(i, Request(token, GetClient(companyId, clientId)), ReturnBody, env)
      else if op == "getAll" then
        Call(i, Request(token, ListClients(companyId)),
             ReturnList(Param(p, "returnAll", Bool(false)), Param(p, "limit", Num(50.0))), env)
      else if op == "update" then
        Call(i, Request(token, ModifyClient(companyId, clientId, ClientBody(p))), ReturnBody, env)
      else if op == "delete" then
        Call(i, Request(token, DeleteClient(companyId, clientId)), ReturnDeleted(clientId), env)
      else if op == "getInfo" then
        Outcome(Ok(InfoPlaceholder), None)
      else
        Outcome(Err(Throw(PlainError, "Unknown operation: " + op)), None)
  }

  /** Create and update send the same `{name, ...additionalFields}` body; update sends it for `clientId`. */
  lemma CreateAndUpdateSendNamedBody(p: Params, i: nat, creds: Object, env: Env)
    requires Credentials.ResolveToken(creds).Some?
    ensures var token := Credentials.ResolveToken(creds).value;
            var companyId := Param(p, "companyId", Undefined);
            && Execute("create", p, i, creds, env).request == Some(Request(token, CreateClient(companyId, ClientBody(p))))
            && Execute("update", p, i, creds, env).request
               == Some(Request(token, ModifyClient(companyId, Param(p, "clientId", Undefined), ClientBody(p))))
  {
  }

  /** "Get Info" answers its placeholder and makes no request. */
  lemma GetInfoIsPlaceholder(p: Params, i: nat, creds: Object, env: Env)
    requires Credentials.ResolveToken(creds).Some?
    ensures Execute("getInfo", p, i, creds, env) == Outcome(Ok(InfoPlaceholder), None)
  {
  }

  /**
   * "Get Many" lists the company's clients and returns at most `limit` of
   * them (50 unless set) unless "Return All" is set; a missing list is `[]`.
   */
  lemma GetAllTruncates(p: Params, i: nat, creds: Object, env: Env)
    requires Credentials.ResolveToken(creds).Some?
    ensures var r := Execute("getAll", p, i, creds, env);
            && r.request == Some(Request(Credentials.ResolveToken(creds).value, ListClients(Param(p, "companyId", Undefined))))
            && (r.result.Ok? ==>
                  && env.api(i, r.request.value).Response?
                  && var list := Listing.ListBody(env.api(i, r.request.value).body).value;
                     r.result.value == Listing.Truncate(list, Param(p, "returnAll", Bool(false)),
                                                        Param(p, "limit", Num(50.0))))
  {
  }

  /** A delete that the API accepts yields `{success: true, deleted: clientId}`. */
  lemma DeleteReportsId(p: Params, i: nat, creds: Object, env: Env)
    requires Credentials.ResolveToken(creds).Some?
    requires Execute("delete", p, i, creds, env).request.Some?
    requires env.api(i, Execute("delete", p, i, creds, env).request.value).Response?
    ensures Execute("delete", p, i, creds, env).result == Ok(DeleteResult(Param(p, "clientId", Undefined)))
  {
  }

  /** Any other operation throws "Unknown operation" without a request. */
  lemma UnknownOperationThrows(op: string, p: Params, i: nat, creds: Object, env: Env)
    requires op !in {"create", "get", "getAll", "update", "delete", "getInfo"}
    requires Credentials.ResolveToken(creds).Some?
    ensures Execute(op, p, i, creds, env) == Outcome(Err(Throw(PlainError, "Unknown operation: " + op)), None)
  {
  }
}
