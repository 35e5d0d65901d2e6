/**
 * The boundary to the vendor SDK, the host and the clock. Nothing behind it
 * is modelled: an SDK call is a request the node hands over and a response
 * body or an error it gets back.
 */
module Sdk {
  import opened Js
  import Listing

  /** One SDK method call with the arguments the node passes to it. */
  datatype ApiCall =
    | CreateIssuedDocument(companyId: Json, document: Object)
    | GetIssuedDocument(companyId: Json, documentId: Json)
    | ListIssuedDocuments(companyId: Json, documentType: string)
    | ModifyIssuedDocument(companyId: Json, documentId: Json, document: Object)
    | DeleteIssuedDocument(companyId: Json, documentId: Json)
    | CreateClient(companyId: Json, client: Object)
    | GetClient(companyId: Json, clientId: Json)
    | ListClients(companyId: Json)
    | ModifyClient(companyId: Json, clientId: Json, client: Object)
    | DeleteClient(companyId: Json, clientId: Json)
    | CreateSupplier(companyId: Json, supplier: Object)
    | GetSupplier(companyId: Json, supplierId: Json)
    | ListSuppliers(companyId: Json)
    | ModifySupplier(companyId: Json, supplierId: Json, supplier: Object)
    | DeleteSupplier(companyId: Json, supplierId: Json)
    | GetCompanyInfo(companyId: Json)
    | GetCompanyPlanUsage(companyId: Json, category: Json)
    | GetUserInfo
    | ListUserCompanies

  /** A call made through an SDK configuration built from `token`. */
  datatype Request = Request(token: Json, call: ApiCall)

  /**
   * What an awaited SDK call yields: the response's `data` (the body) or
   * the error it rejects with.
   */
  datatype ApiResponse = Response(body: Json) | Rejected(error: JsError)

  /**
   * What the node consults outside its own code.
   * - api(i, req): the outcome of request `req` made while processing item i;
   * - iso(v): `new Date(v).toISOString()`, None when that throws (an invalid date);
   * - now(i): `new Date().toISOString()` while processing item i.
   */
  datatype Env = Env(api: (nat, Request) -> ApiResponse, iso: Json -> Option<string>, now: nat -> string)

  /** One input item's parameter values, as `getNodeParameter` resolves them. */
  type Params = map<string, Json>

  /** `getNodeParameter(name, i, fallback)` */
  function Param(p: Params, name: string, fallback: Json): (r: Json)
    ensures name in p ==> r == p[name]
    ensures name !in p ==> r == fallback
  {
    if name in p then p[name] else fallback
  }

  /**
   * What one call of a module's `execute` did: the value it resolved to or
   * the error it threw, and the SDK request it made, if it made one.
   */
  datatype Outcome = Outcome(result: Result<Json>, request: Option<Request>)

  /** What the node does with an SDK response body before returning it. */
  datatype AfterCall =
    | ReturnBody                                // `response.data`
    | ReturnList(returnAll: Json, limit: Json)  // `response.data.data || []`, then truncated
    | ReturnDeleted(id: Json)                   // `{ success: true, deleted: id }`

  /** `{ success: true, deleted: id }` */
  function DeleteResult(id: Json): (r: Json)
    ensures r.Obj? && r.fields.Keys == {"success", "deleted"}
    ensures r.fields["success"] == Bool(true) && r.fields["deleted"] == id
  {
    Obj(map["success" := Bool(true), "deleted" := id])
  }

  /** What the node returns once the awaited call has resolved with `body`. */
  function Finish(after: AfterCall, body: Json): (r: Result<Json>)
    ensures after.ReturnBody? ==> r == Ok(body)
    ensures after.ReturnDeleted? ==> r == Ok(DeleteResult(after.id))
    ensures after.ReturnList? ==> (r.Err? <==> Nullish(body))
  {
    match after
    case ReturnBody => Ok(body)
    case ReturnList(returnAll, limit) =>
      var list :- Listing.ListBody(body);
      Ok(Listing.Truncate(list, returnAll, limit))
    case ReturnDeleted(id) => Ok(DeleteResult(id))
  }

  /**
   * Make request `req` while processing item i: an SDK rejection is
   * rethrown as it is, a response is finished as `after` says.
   */
  function Call(i: nat, req: Request, after: AfterCall, env: Env): (r: Outcome)
    ensures r.request == Some(req)
    ensures env.api(i, req).Rejected? ==> r.result == Err(env.api(i, req).error)
    ensures env.api(i, req).Response? ==> r.result == Finish(after, env.api(i, req).body)
  {
    match env.api(i, req)
    case Rejected(e) => Outcome(Err(e), Some(req))
    case Response(body) => Outcome(Finish(after, body), Some(req))
  }
}
