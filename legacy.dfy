/**
 * The original single-file node: one `execute` that branches on the
 * resource ("invoice", "client", "company") and the operation inside its
 * item loop, with one SDK configuration built before the loop from
 * `credentials.accessToken`.
 */
module Legacy {
  import opened Js
  import opened Sdk
  import opened Batch
  import Credentials
  import Parties
  import IssuedDocuments
  import Listing

  /** `entity.entityDetails || null` */
  function EntityDetails(entity: Json): (r: Result<Json>)
    ensures r.Err? <==> Nullish(entity)
    ensures r.Err? ==> r.error.kind == TypeError
    ensures r.Ok? && Truthy(OptionalGet(entity, "entityDetails")) ==> r.value == OptionalGet(entity, "entityDetails")
    ensures r.Ok? && !Truthy(OptionalGet(entity, "entityDetails")) ==> r.value == Null
  {
    var details :- Member(entity, "entityDetails");
    Ok(Or(details, Null))
  }

  /** `itemsList.item || []`: the rows as the form gives them, with no defaults added. */
  function ItemRows(itemsList: Json): (r: Result<Json>)
    ensures r.Err? <==> Nullish(itemsList)
    ensures r.Err? ==> r.error.kind == TypeError
    ensures r.Ok? && Truthy(OptionalGet(itemsList, "item")) ==> r.value == OptionalGet(itemsList, "item")
    ensures r.Ok? && !Truthy(OptionalGet(itemsList, "item")) ==> r.value == Arr([])
  {
    var rows :- Member(itemsList, "item");
    Ok(Or(rows, Arr([])))
  }

  /** The keys of a create body. */
  const CreateKeys: set<string> := {"type", "entity", "date", "number", "items_list"}
  /** The keys of an update body. */
  const UpdateKeys: set<string> := {"entity", "date", "number", "items_list"}

  /**
   * The document sent by invoice create (with `type`, and today's date
   * when none is given) or update (without `type`, and no date when none
   * is given). The entity is read first, then the date, then the rows.
   */
  function InvoiceBody(p: Params, i: nat, env: Env, creating: bool): (r: Result<Object>)
  {
    var entity :- EntityDetails(Param(p, "entity", Undefined));
    var date :- IssuedDocuments.DocumentDate(Param(p, "date", Undefined), i, env, creating);
    var rows :- ItemRows(Param(p, "itemsList", Undefined));
    var doc := map["entity" := entity, "date" := date, "number" := Param(p, "number", Undefined), "items_list" := rows];
    Ok(if creating then doc["type" := Param(p, "documentType", Undefined)] else doc)
  }

  /**
   * The invoice bodies hold exactly the node's own keys: no subject, no
   * payments and no additional fields. Their entity is the form's entity
   * details or null, and the rows are passed on untouched.
   */
  lemma InvoiceBodyShape(p: Params, i: nat, env: Env, creating: bool)
    requires InvoiceBody(p, i, env, creating).Ok?
    ensures var doc := InvoiceBody(p, i, env, creating).value;
            && doc.Keys == (if creating then CreateKeys else UpdateKeys)
            && doc["entity"] == Or(OptionalGet(Param(p, "entity", Undefined), "entityDetails"), Null)
            && doc["items_list"] == Or(OptionalGet(Param(p, "itemsList", Undefined), "item"), Arr([]))
            && (creating ==> doc["type"] == Param(p, "documentType", Undefined))
  {
  }

  /** An invoice body fails exactly when the entity or the rows are not set, or the date is invalid. */
  lemma InvoiceBodyFailures(p: Params, i: nat, env: Env, creating: bool)
    ensures InvoiceBody(p, i, env, creating).Err? <==>
              || Nullish(Param(p, "entity", Undefined))
              || IssuedDocuments.DocumentDate(Param(p, "date", Undefined), i, env, creating).Err?
              || Nullish(Param(p, "itemsList", Undefined))
  {
  }

  /** The client body: `{ name: clientName, ...additionalFields }`. */
  function ClientBody(p: Params): Object {
    Parties.NamedPayload(Param(p, "clientName", Undefined), Param(p, "additionalFields", Undefined))
  }

  /**
   * One pass of the loop body for item i, with the configuration's token.
   * A resource or operation the branches do not match leaves `responseData`
   * undefined and makes no call.
   */
  function Item(resource: Json, operation: Json, p: Params, i: nat, token: Json, env: Env): (r: Outcome)
    ensures r.request.Some? ==> r.request.value.token == token
    ensures resource !in {Str("invoice"), Str("client"), Str("company")} ==> r == Outcome(Ok(Undefined), None)
  {
    if resource == Str("invoice") then
      var companyId := Param(p, "companyId", Undefined);
      var documentId := Param(p, "documentId", Undefined);
      if operation == Str("create") then
        match InvoiceBody(p, i, env, true)
        case Err(e) => Outcome(Err(e), None)
        case Ok(doc) => Call(i, Request(token, CreateIssuedDocument(companyId, doc)), ReturnBody, env)
      else if operation == Str("get") then
        Call(i, Request(token, GetIssuedDocument(companyId, documentId)), ReturnBody, env)
      else if operation == Str("getAll") then
        Call(i, Request(token, ListIssuedDocuments(companyId, "invoice")),
             ReturnList(Param(p, "returnAll", Undefined), Param(p, "limit", Num(50.0))), env)
      else if operation == Str("update") then
        match InvoiceBody(p, i, env, false)
        case Err(e) => Outcome(Err(e), None)
        case Ok(doc) => Call(i, Request(token, ModifyIssuedDocument(companyId, documentId, doc)), ReturnBody, env)
      else if operation == Str("delete") then
        Call(i, Request(token, DeleteIssuedDocument(companyId, documentId)), ReturnDeleted(documentId), env)
      else
        Outcome(Ok(Undefined), None)
    else if resource == Str("client") then
      var companyId := Param(p, "companyId", Undefined);
      var clientId := Param(p, "clientId", Undefined);
      if operation == Str("create") then
        Call(i, Request(token, CreateClient(companyId, ClientBody(p))), ReturnBody, env)
      else if operation == Str("get") then
        Call(i, Request(token, GetClient(companyId, clientId)), ReturnBody, env)
      else if operation == Str("getAll") then
        Call(i, Request(token, ListClients(companyId)),
             ReturnList(Param(p, "returnAll", Undefined), Param(p, "limit", Num(50.0))), env)
      else if operation == Str("update") then
        Call(i, Request(token, ModifyClient(companyId, clientId, ClientBody(p))), ReturnBody, env)
      else if operation == Str("delete") then
        Call(i, Request(token, DeleteClient(companyId, clientId)), ReturnDeleted(clientId), env)
      else
        Outcome(Ok(Undefined), None)
    else if resource == Str("company") then
      if operation == Str("getInfo") then
        Call(i, Request(token, GetUserInfo), ReturnBody, env)
      else
        Outcome(Ok(Undefined), None)
    else
      Outcome(Ok(Undefined), None)
  }

  /** The loop body for every item, with the resource, operation and token fixed for the batch. */
  function Step(resource: Json, operation: Json, token: Json, env: Env): (nat, Params) -> Result<Json> {
    (i: nat, p: Params) => Item(resource, operation, p, i, token, env).result
  }

  /**
   * The legacy `execute`: the token is read once, with no check, and the
   * items run as `RunItems` does, a failed item reporting only its
   * message. There is no unknown-resource error.
   */
  method Execute(resource: Json, operation: Json, items: seq<Params>, creds: Object,
                 continueOnFail: bool, env: Env)
    returns (run: Run, attempts: nat)
    ensures (run, attempts) ==
              RunOf(MessageOnly, Results(Step(resource, operation, Credentials.LegacyToken(creds), env), items), continueOnFail)
  {
    var token := Credentials.LegacyToken(creds);
    run, attempts := RunItems(MessageOnly, Step(resource, operation, token, env), items, continueOnFail);
  }

  /**
   * Invoice create and update send the invoice body (update for
   * `documentId`); a body that cannot be built stops the item with its
   * error before any request.
   */
  lemma InvoiceRequests(p: Params, i: nat, token: Json, env: Env)
    ensures var companyId := Param(p, "companyId", Undefined);
            var created := InvoiceBody(p, i, env, true);
            && (created.Ok? ==>
                  Item(Str("invoice"), Str("create"), p, i, token, env).request
                  == Some(Request(token, CreateIssuedDocument(companyId, created.value))))
            && (created.Err? ==> Item(Str("invoice"), Str("create"), p, i, token, env) == Outcome(Err(created.error), None))
    ensures var companyId := Param(p, "companyId", Undefined);
            var updated := InvoiceBody(p, i, env, false);
            && (updated.Ok? ==>
                  Item(Str("invoice"), Str("update"), p, i, token, env).request
                  == Some(Request(token, ModifyIssuedDocument(companyId, Param(p, "documentId", Undefined), updated.value))))
            && (updated.Err? ==> Item(Str("invoice"), Str("update"), p, i, token, env) == Outcome(Err(updated.error), None))
  {
  }

  /** Client create and update send `{name, ...additionalFields}`; update sends it for `clientId`. */
  lemma ClientRequests(p: Params, i: nat, token: Json, env: Env)
    ensures var companyId := Param(p, "companyId", Undefined);
            && Item(Str("client"), Str("create"), p, i, token, env).request
               == Some(Request(token, CreateClient(companyId, ClientBody(p))))
            && Item(Str("client"), Str("update"), p, i, token, env).request
               == Some(Request(token, ModifyClient(companyId, Param(p, "clientId", Undefined), ClientBody(p))))
  {
  }

  /** A delete that the API accepts yields `{success: true, deleted: id}` for invoices and clients alike. */
  lemma DeletesReportId(p: Params, i: nat, token: Json, env: Env)
    ensures var r := Item(Str("invoice"), Str("delete"), p, i, token, env);
            r.request.Some? && (env.api(i, r.request.value).Response? ==>
              r.result == Ok(DeleteResult(Param(p, "documentId", Undefined))))
    ensures var r := Item(Str("client"), Str("delete"), p, i, token, env);
            r.request.Some? && (env.api(i, r.request.value).Response? ==>
              r.result == Ok(DeleteResult(Param(p, "clientId", Undefined))))
  {
  }

  /**
   * "Get Many" lists invoices (always of type "invoice") or clients and
   * returns at most `limit` of them (50 unless set) unless "Return All" is
   * truthy; "Return All" has no default, so unset it truncates.
   */
  lemma GetAllTruncates(p: Params, i: nat, token: Json, env: Env)
    ensures var r := Item(Str("invoice"), Str("getAll"), p, i, token, env);
            && r.request == Some(Request(token, ListIssuedDocuments(Param(p, "companyId", Undefined), "invoice")))
            && (r.result.Ok? ==>
                  && env.api(i, r.request.value).Response?
                  && var list := Listing.ListBody(env.api(i, r.request.value).body).value;
                     r.result.value == Listing.Truncate(list, Param(p, "returnAll", Undefined), Param(p, "limit", Num(50.0))))
    ensures var r := Item(Str("client"), Str("getAll"), p, i, token, env);
            && r.request == Some(Request(token, ListClients(Param(p, "companyId", Undefined))))
            && (r.result.Ok? ==>
                  && env.api(i, r.request.value).Response?
                  && var list := Listing.ListBody(env.api(i, r.request.value).body).value;
                     r.result.value == Listing.Truncate(list, Param(p, "returnAll", Undefined), Param(p, "limit", Num(50.0))))
  {
  }

  /** "Company → Get Info" asks for the user's info, not the company's. */
  lemma CompanyInfoAsksForUser(p: Params, i: nat, token: Json, env: Env)
    ensures Item(Str("company"), Str("getInfo"), p, i, token, env).request == Some(Request(token, GetUserInfo))
  {
  }

  /**
   * Without `credentials.accessToken` the node still calls the SDK, with
   * an undefined token, where every modular module refuses to.
   */
  lemma MissingTokenStillCalls(p: Params, i: nat, creds: Object, env: Env)
    requires "accessToken" !in creds
    ensures Item(Str("invoice"), Str("get"), p, i, Credentials.LegacyToken(creds), env).request ==
              Some(Request(Undefined, GetIssuedDocument(Param(p, "companyId", Undefined), Param(p, "documentId", Undefined))))
  {
  }

  /**
   * An unmatched resource or operation yields `{}` for every item: one
   * entry per item, none of them a call.
   */
  lemma UnmatchedGivesEmptyObjects(resource: Json, operation: Json, items: seq<Params>, token: Json, env: Env,
                                    continueOnFail: bool)
    requires resource !in {Str("invoice"), Str("client"), Str("company")}
    ensures RunOf(MessageOnly, Results(Step(resource, operation, token, env), items), continueOnFail) ==
              (Done(seq(|items|, k requires 0 <= k < |items| => Output(Obj(map[]), k))), |items|)
  {
    var rs := Results(Step(resource, operation, token, env), items);
    assert forall k :: 0 <= k < |rs| ==> rs[k] == Ok(Undefined);
    AllUndefinedGiveEmptyObjects(rs);
  }

  lemma {:induction false} AllUndefinedGiveEmptyObjects(rs: seq<Result<Json>>)
    requires forall k :: 0 <= k < |rs| ==> rs[k] == Ok(Undefined)
    ensures Collected(MessageOnly, rs) == seq(|rs|, k requires 0 <= k < |rs| => Output(Obj(map[]), k))
    ensures FirstError(rs).None?
  {
    if rs != [] {
      var n := |rs| - 1;
      AllUndefinedGiveEmptyObjects(rs[..n]);
      assert ItemOutputs(MessageOnly, n, rs[n]) == [Output(Obj(map[]), n)];
    }
  }

  /**
   * Where the modular node throws for a blank entity name, the legacy node
   * sends the entity details as they are.
   */
  lemma BlankNameIsSent(p: Params, i: nat, env: Env, details: Object)
    requires Param(p, "entity", Undefined) == Obj(map["entityDetails" := Obj(details)])
    requires Param(p, "date", Undefined) == Str("") && Param(p, "itemsList", Undefined) == Obj(map[])
    ensures InvoiceBody(p, i, env, true).Ok?
    ensures InvoiceBody(p, i, env, true).value["entity"] == Obj(details)
    ensures InvoiceBody(p, i, env, true).value["items_list"] == Arr([])
  {
  }
}
