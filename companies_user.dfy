/** The company module: `CompaniesModule.execute`. */
module Companies {
  import opened Js
  import opened Sdk
  import Credentials

  function Execute(op: string, p: Params, i: nat, creds: Object, env: Env): (r: Outcome)
    ensures Credentials.ResolveToken(creds).None? ==> r.request.None? && r.result.Err?
    ensures r.request.Some? ==> r.request.value.token == Credentials.ResolveToken(creds).value
    ensures op !in {"getInfo", "getPlanUsage"} ==> r.request.None? && r.result.Err?
  {
    match Credentials.ResolveToken(creds)
    case None => Outcome(Err(Throw(PlainError, Credentials.MissingTokenMessage)), None)
    case Some(token) =>
      var companyId := Param(p, "companyId", Undefined);
      if op == "getInfo" then
        Call(i, Request(token, GetCompanyInfo(companyId)), ReturnBody, env)
      else if op == "getPlanUsage" then
        Call(i, Request(token, GetCompanyPlanUsage(companyId, Param(p, "category", Undefined))), ReturnBody, env)
      else
        Outcome(Err(Throw(PlainError, "Unknown operation: " + op)), None)
  }
}

/** The user module: `UserModule.execute`. */
module Users {
  import opened Js
  import opened Sdk
  import Credentials

  function Execute(op: string, p: Params, i: nat, creds: Object, env: Env): (r: Outcome)
    ensures Credentials.ResolveToken(creds).None? ==> r.request.None? && r.result.Err?
    ensures r.request.Some? ==> r.request.value.token == Credentials.ResolveToken(creds).value
    ensures op !in {"getInfo", "listCompanies"} ==> r.request.None? && r.result.Err?
  {
    match Credentials.ResolveToken(creds)
    case None => Outcome(Err(Throw(PlainError, Credentials.MissingTokenMessage)), None)
    case Some(token) =>
      if op == "getInfo" then
        Call(i, Request(token, GetUserInfo), ReturnBody, env)
      else if op == "listCompanies" then
        Call(i, Request(token, ListUserCompanies), ReturnBody, env)
      else
        Outcome(Err(Throw(PlainError, "Unknown operation: " + op)), None)
  }
}
