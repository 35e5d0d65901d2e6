/** The suppliers module: `SuppliersModule.execute`. */
module Suppliers {
  import opened Js
  import opened Sdk
  import Credentials
  import Parties
  import Listing

  /** The supplier body sent by create and update. */
  function SupplierBody(p: Params): Object {
    Parties.NamedPayload(Param(p, "supplierName", Undefined), Param(p, "additionalFields", Obj(map[])))
  }

  /**
   * Resolve the token (a plain Error when there is none), then run the
   * operation.
   */
  function Execute(op: string, p: Params, i: nat, creds: Object, env: Env): (r: Outcome)
    ensures r.request.Some? ==> Credentials.ResolveToken(creds).Some?
                                && r.request.value.token == Credentials.ResolveToken(creds).value
  {
    match Credentials.ResolveToken(creds)
    case None => Outcome(Err(Throw(PlainError, Credentials.MissingTokenMessage)), None)
    case Some(token) =>
      var companyId := Param(p, "companyId", Undefined);
      var supplierId := Param(p, "supplierId", Undefined);
      if op == "create" then
        Call(i, Request(token, CreateSupplier(companyId, SupplierBody(p))), ReturnBody, env)
      else if op == "get" then
        Call(i, Request(token, GetSupplier(companyId, supplierId)), ReturnBody, env)
      else if op == "getAll" then
        Call(i, Request(token, ListSuppliers(companyId)),
             ReturnList(Param(p, "returnAll", Bool(false)), Param(p, "limit", Num(50.0))), env)
      else if op == "update" then
        Call(i, Request(token, ModifySupplier(companyId, supplierId, SupplierBody(p))), ReturnBody, env)
      else if op == "delete" then
        Call(i, Request(token, DeleteSupplier(companyId, supplierId)), ReturnDeleted(supplierId), env)
      else
        Outcome(Err(Throw(PlainError, "Unknown operation: " + op)), None)
  }

  /** Create and update send the same `{name, ...additionalFields}` body; update sends it for `supplierId`. */
  lemma CreateAndUpdateSendNamedBody(p: Params, i: nat, creds: Object, env: Env)
    requires Credentials.ResolveToken(creds).Some?
    ensures var token := Credentials.ResolveToken(creds).value;
            var companyId := Param(p, "companyId", Undefined);
            && Execute("create", p, i, creds, env).request == Some(Request(token, CreateSupplier(companyId, SupplierBody(p))))
            && Execute("update", p, i, creds, env).request
               == Some(Request(token, ModifySupplier(companyId, Param(p, "supplierId", Undefined), SupplierBody(p))))
  {
  }

  /**
   * "Get Many" lists the company's suppliers and returns at most `limit` of
   * them (50 unless set) unless "Return All" is set; a missing list is `[]`.
   */
  lemma GetAllTruncates(p: Params, i: nat, creds: Object, env: Env)
    requires Credentials.ResolveToken(creds).Some?
    ensures var r := Execute("getAll", p, i, creds, env);
            && r.request == Some(Request(Credentials.ResolveToken(creds).value, ListSuppliers(Param(p, "companyId", Undefined))))
            && (r.result.Ok? ==>
                  && env.api(i, r.request.value).Response?
                  && var list := Listing.ListBody(env.api(i, r.request.value).body).value;
                     r.result.value == Listing.Truncate(list, Param(p, "returnAll", Bool(false)),
                                                        Param(p, "limit", Num(50.0))))
  {
  }

  /** A delete that the API accepts yields `{success: true, deleted: supplierId}`. */
  lemma DeleteReportsId(p: Params, i: nat, creds: Object, env: Env)
    requires Credentials.ResolveToken(creds).Some?
    requires Execute("delete", p, i, creds, env).request.Some?
    requires env.api(i, Execute("delete", p, i, creds, env).request.value).Response?
    ensures Execute("delete", p, i, creds, env).result == Ok(DeleteResult(Param(p, "supplierId", Undefined)))
  {
  }

  /** Any other operation throws "Unknown operation" without a request. */
  lemma UnknownOperationThrows(op: string, p: Params, i: nat, creds: Object, env: Env)
    requires op !in {"create", "get", "getAll", "update", "delete"}
    requires Credentials.ResolveToken(creds).Some?
    ensures Execute(op, p, i, creds, env) == Outcome(Err(Throw(PlainError, "Unknown operation: " + op)), None)
  {
  }
}
