/**
 * The modular node's `execute`: pick the module for the batch's resource,
 * run it on every input item in turn, and collect what each item gives or
 * report its failure.
 */
module ModularExecute {
  import opened Js
  import opened Sdk
  import opened Batch
  import Credentials
  import Registry

  /** `module.execute(this, operation, i)` for module m, as an item step. */
  function Step(m: Registry.ModuleKind, operation: string, creds: Object, env: Env): (nat, Params) -> Result<Json> {
    (i: nat, p: Params) => Registry.ExecuteModule(m, operation, p, i, creds, env).result
  }

  /**
   * An unknown resource throws before any item is processed; otherwise the
   * chosen module runs on every item as `RunItems` does, with this node's
   * detailed error entries.
   */
  method Execute(resource: string, operation: string, items: seq<Params>, creds: Object,
                 continueOnFail: bool, env: Env)
    returns (run: Run, attempts: nat)
    ensures Registry.CreateModule(resource).None? ==>
              run == Thrown(UnknownResource(resource)) && attempts == 0
    ensures Registry.CreateModule(resource).Some? ==>
              (run, attempts) ==
              RunOf(Detailed, Results(Step(Registry.CreateModule(resource).value, operation, creds, env), items), continueOnFail)
  {
    var chosen := Registry.CreateModule(resource);
    if chosen.None? {
      return Thrown(UnknownResource(resource)), 0;
    }
    run, attempts := RunItems(Detailed, Step(chosen.value, operation, creds, env), items, continueOnFail);
  }

  /**
   * With no usable token and continue-on-fail off, a non-empty batch stops
   * at its first item with the "Access token not found" message, whatever
   * the resource and operation.
   */
  lemma MissingTokenStopsAtFirstItem(m: Registry.ModuleKind, operation: string, items: seq<Params>, creds: Object, env: Env)
    requires Credentials.ResolveToken(creds).None? && |items| > 0
    ensures var (run, attempts) := RunOf(Detailed, Results(Step(m, operation, creds, env), items), false);
            attempts == 1 && run.Thrown? && run.failure.ItemFailed? && run.failure.itemIndex == 0 &&
            run.failure.message == Str(Credentials.MissingTokenMessage)
  {
    var rs := Results(Step(m, operation, creds, env), items);
    Registry.MissingTokenStopsEveryModule(m, operation, items[0], 0, creds, env);
    assert rs[0].Err?;
    var e := rs[0].error;
    assert e.response == Undefined;
    LocalErrorReportsOwnMessage(e.kind, Credentials.MissingTokenMessage);
  }

  /**
   * With continue-on-fail on, every item of the batch is attempted, and
   * the entries paired with each item are exactly those it contributes.
   */
  lemma ContinueOnFailReportsEveryItem(m: Registry.ModuleKind, operation: string, items: seq<Params>,
                                       creds: Object, env: Env, i: nat)
    requires i < |items|
    ensures var (run, attempts) := RunOf(Detailed, Results(Step(m, operation, creds, env), items), true);
            attempts == |items| && run.Done? &&
            EntriesOf(run.outputs, i) ==
              ItemOutputs(Detailed, i, Registry.ExecuteModule(m, operation, items[i], i, creds, env).result)
  {
    CollectedPerItem(Detailed, Results(Step(m, operation, creds, env), items), i);
  }
}
