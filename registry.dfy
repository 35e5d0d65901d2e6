/**
 * The resource modules the modular node knows, the factory its `execute`
 * uses to pick one, and the dispatch of an item to the chosen module.
 */
module Registry {
  import opened Js
  import opened Sdk
  import Credentials
  import IssuedDocuments
  import Clients
  import Suppliers
  import Companies
  import Users

  datatype ModuleKind = UserModule | CompaniesModule | ClientsModule | IssuedDocumentsModule | SuppliersModule

  /** The `resource.name` each module's descriptor declares. */
  function ResourceName(m: ModuleKind): string {
    match m
    case UserModule => "user"
    case CompaniesModule => "company"
    case ClientsModule => "client"
    case IssuedDocumentsModule => "issuedDocument"
    case SuppliersModule => "supplier"
  }

  /** `createModule(resourceName)`: a module for the five known names, null for any other. */
  function CreateModule(resource: string): Option<ModuleKind> {
    match resource
    case "user" => Some(UserModule)
    case "company" => Some(CompaniesModule)
    case "client" => Some(ClientsModule)
    case "issuedDocument" => Some(IssuedDocumentsModule)
    case "supplier" => Some(SuppliersModule)
    case _ => None
  }

  /**
   * The factory knows exactly the five resource names, and hands back the
   * module whose descriptor carries that name.
   */
  lemma CreateModuleKnowsFiveNames(resource: string)
    ensures CreateModule(resource).Some? <==> resource in {"user", "company", "client", "issuedDocument", "supplier"}
    ensures CreateModule(resource).Some? ==> ResourceName(CreateModule(resource).value) == resource
  {
  }

  /** Every module is found again under its own resource name. */
  lemma CreateModuleFindsEveryModule(m: ModuleKind)
    ensures CreateModule(ResourceName(m)) == Some(m)
  {
  }

  /** `module.execute(this, operation, i)` */
  function ExecuteModule(m: ModuleKind, op: string, p: Params, i: nat, creds: Object, env: Env): Outcome {
    match m
    case UserModule => Users.Execute(op, p, i, creds, env)
    case CompaniesModule => Companies.Execute(op, p, i, creds, env)
    case ClientsModule => Clients.Execute(op, p, i, creds, env)
    case IssuedDocumentsModule => IssuedDocuments.Execute(op, p, i, creds, env)
    case SuppliersModule => Suppliers.Execute(op, p, i, creds, env)
  }

  /**
   * Without a token every module throws the same "Access token not found"
   * message for every operation and calls nothing.
   */
  lemma MissingTokenStopsEveryModule(m: ModuleKind, op: string, p: Params, i: nat, creds: Object, env: Env)
    requires Credentials.ResolveToken(creds).None?
    ensures var r := ExecuteModule(m, op, p, i, creds, env);
            r.request.None? && r.result.Err? && r.result.error.message == Credentials.MissingTokenMessage
  {
  }

  /** Every request a module makes carries the token the resolver picked. */
  lemma RequestsCarryResolvedToken(m: ModuleKind, op: string, p: Params, i: nat, creds: Object, env: Env)
    ensures var r := ExecuteModule(m, op, p, i, creds, env);
            r.request.Some? ==> r.request.value.token == Credentials.ResolveToken(creds).value
  {
  }
}
