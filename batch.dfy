/**
 * What both nodes' `execute` loops produce from the per-item results: the
 * output entries each item contributes, the error message chosen for a
 * failed item, and the outcome of a whole batch under either failure
 * policy. The loop itself is `RunItems`.
 */
module Batch {
  import opened Js

  /** An output entry: its JSON and the input item it is paired with. */
  datatype Output = Output(json: Json, item: nat)

  /** How a failed item is reported when the batch continues past it. */
  datatype ErrorStyle =
    | Detailed     // the modular node: `{error: {message, status, statusText, data}}`
    | MessageOnly  // the legacy node: `{error: error.message}`

  /** Why a batch throws instead of returning its outputs. */
  datatype Failure =
    | UnknownResource(resource: string)
    | ItemFailed(itemIndex: nat, message: Json, error: JsError)

  /** A batch either returns its output entries or throws. */
  datatype Run = Done(outputs: seq<Output>) | Thrown(failure: Failure)

  /** `this.helpers.returnJsonArray(v)`: one entry per element of an array, one entry otherwise. */
  function JsonArray(v: Json): (r: seq<Json>)
    ensures v.Arr? ==> r == v.elems
    ensures !v.Arr? ==> r == [v]
  {
    if v.Arr? then v.elems else [v]
  }

  /** The `||` chain the modular node's catch block reads the message from, in order. */
  function MessageCandidates(e: JsError): seq<Json> {
    var data := OptionalGet(e.response, "data");
    [OptionalGet(OptionalGet(data, "error"), "validation_result"),
     OptionalGet(data, "error_description"),
     OptionalGet(data, "message"),
     Str(e.message)]
  }

  /**
   * `error.response?.data?.error?.validation_result || error.response?.data?.error_description
   *  || error.response?.data?.message || error.message || 'Unknown error'`
   */
  function ErrorMessage(e: JsError): Json {
    var data := OptionalGet(e.response, "data");
    Or(OptionalGet(OptionalGet(data, "error"), "validation_result"),
       Or(OptionalGet(data, "error_description"),
          Or(OptionalGet(data, "message"),
             Or(Str(e.message), Str("Unknown error")))))
  }

  /**
   * The message is the first truthy candidate in priority order, "Unknown
   * error" when there is none, and so is never empty.
   */
  lemma ErrorMessagePriority(e: JsError)
    ensures ErrorMessage(e) == OrChain(MessageCandidates(e), Str("Unknown error"))
    ensures Truthy(ErrorMessage(e))
  {
    var c := MessageCandidates(e);
    assert c[1..][0] == c[1] && c[1..][1..][0] == c[2] && c[1..][1..][1..][0] == c[3];
    assert c[1..][1..][1..][1..] == [];
  }

  /** An error thrown by the node itself, with no HTTP response, reports its own message. */
  lemma LocalErrorReportsOwnMessage(kind: ErrorKind, message: string)
    requires message != ""
    ensures ErrorMessage(Throw(kind, message)) == Str(message)
  {
  }

  /** The API's validation result wins over every other message. */
  lemma ValidationResultWins(e: JsError, data: Object, error: Object)
    requires e.response.Obj? && "data" in e.response.fields && e.response.fields["data"] == Obj(data)
    requires "error" in data && data["error"] == Obj(error)
    requires "validation_result" in error && Truthy(error["validation_result"])
    ensures ErrorMessage(e) == error["validation_result"]
  {
  }

  /** `{message, status, statusText, data}` for a failed item. */
  function ErrorDetails(e: JsError): Json {
    Obj(map["message" := ErrorMessage(e),
            "status" := OptionalGet(e.response, "status"),
            "statusText" := OptionalGet(e.response, "statusText"),
            "data" := OptionalGet(e.response, "data")])
  }

  /** The details hold exactly four fields: the message, then three read from the response. */
  lemma ErrorDetailsFields(e: JsError)
    ensures var r := ErrorDetails(e);
            && r.Obj? && r.fields.Keys == {"message", "status", "statusText", "data"}
            && r.fields["message"] == ErrorMessage(e)
            && r.fields["status"] == OptionalGet(e.response, "status")
            && r.fields["statusText"] == OptionalGet(e.response, "statusText")
            && r.fields["data"] == OptionalGet(e.response, "data")
  {
  }


  /** The message a thrown batch error carries. */
  function FailureMessage(style: ErrorStyle, e: JsError): Json {
    match style
    case Detailed => ErrorMessage(e)
    case MessageOnly => Str(e.message)
  }

  /** The entry reporting a failed item when the batch continues. */
  function ErrorEntry(style: ErrorStyle, e: JsError): Json {
    match style
    case Detailed => Obj(map["error" := ErrorDetails(e)])
    case MessageOnly => Obj(map["error" := Str(e.message)])
  }

  /** Pair every value with input item i. */
  function Tag(vs: seq<Json>, i: nat): (r: seq<Output>)
    ensures |r| == |vs|
    ensures forall k :: 0 <= k < |vs| ==> r[k] == Output(vs[k], i)
  {
    seq(|vs|, k requires 0 <= k < |vs| => Output(vs[k], i))
  }

  /**
   * The entries item i contributes when the batch goes on past it: its
   * result (`{}` when falsy) spread into entries, or its error entry.
   */
  function ItemOutputs(style: ErrorStyle, i: nat, r: Result<Json>): seq<Output> {
    match r
    case Ok(v) => Tag(JsonArray(Or(v, Obj(map[]))), i)
    case Err(e) => [Output(ErrorEntry(style, e), i)]
  }

  /** The entries of items 0 .. |rs|-1, in item order. */
  function Collected(style: ErrorStyle, rs: seq<Result<Json>>): seq<Output> {
    if rs == [] then []
    else Collected(style, rs[..|rs| - 1]) + ItemOutputs(style, |rs| - 1, rs[|rs| - 1])
  }

  /** The first failed item, if any. */
  function FirstError(rs: seq<Result<Json>>): (r: Option<nat>)
    ensures r.Some? ==> r.value < |rs| && rs[r.value].Err? && forall j :: 0 <= j < r.value ==> rs[j].Ok?
    ensures r.None? <==> forall j :: 0 <= j < |rs| ==> rs[j].Ok?
  {
    if rs == [] then None
    else if rs[0].Err? then Some(0)
    else match FirstError(rs[1..])
      case None => None
      case Some(k) => Some(k + 1)
  }

  /**
   * The outcome of a batch whose items would give `rs`, and how many items
   * are attempted: with continue-on-fail every item runs and reports;
   * otherwise the first failure throws, tagged with its item, and no later
   * item is attempted.
   */
  function RunOf(style: ErrorStyle, rs: seq<Result<Json>>, continueOnFail: bool): (Run, nat) {
    if continueOnFail then (Done(Collected(style, rs)), |rs|)
    else match FirstError(rs)
      case None => (Done(Collected(style, rs)), |rs|)
      case Some(k) => (Thrown(ItemFailed(k, FailureMessage(style, rs[k].error), rs[k].error)), k + 1)
  }

  lemma CollectedSnoc(style: ErrorStyle, rs: seq<Result<Json>>, i: nat)
    requires i < |rs|
    ensures Collected(style, rs[..i + 1]) == Collected(style, rs[..i]) + ItemOutputs(style, i, rs[i])
  {
    assert rs[..i + 1][..i] == rs[..i];
  }

  /** Item i adds its entries after those of items 0 .. i-1. */
  lemma CollectedStep(style: ErrorStyle, rs: seq<Result<Json>>, i: nat, before: seq<Output>, r: Result<Json>)
    requires i < |rs| && before == Collected(style, rs[..i]) && rs[i] == r
    ensures before + ItemOutputs(style, i, r) == Collected(style, rs[..i + 1])
  {
    CollectedSnoc(style, rs, i);
  }

  /** A succeeding item i adds its value's entries after those of items 0 .. i-1. */
  lemma CollectedOk(style: ErrorStyle, rs: seq<Result<Json>>, i: nat, before: seq<Output>, v: Json)
    requires i < |rs| && before == Collected(style, rs[..i]) && rs[i] == Ok(v)
    ensures before + Tag(JsonArray(Or(v, Obj(map[]))), i) == Collected(style, rs[..i + 1])
  {
    CollectedSnoc(style, rs, i);
  }

  /** A failing item i adds its error entry after those of items 0 .. i-1. */
  lemma CollectedErr(style: ErrorStyle, rs: seq<Result<Json>>, i: nat, before: seq<Output>, e: JsError)
    requires i < |rs| && before == Collected(style, rs[..i]) && rs[i] == Err(e)
    ensures before + [Output(ErrorEntry(style, e), i)] == Collected(style, rs[..i + 1])
  {
    CollectedSnoc(style, rs, i);
  }

  lemma FirstErrorAt(rs: seq<Result<Json>>, i: nat)
    requires i < |rs| && rs[i].Err? && forall j :: 0 <= j < i ==> rs[j].Ok?
    ensures FirstError(rs) == Some(i)
  {
  }

  /** Failing fast, the first failure throws, tagged with its item, after that item's attempt. */
  lemma RunOfThrows(style: ErrorStyle, rs: seq<Result<Json>>, i: nat)
    requires i < |rs| && rs[i].Err? && forall j :: 0 <= j < i ==> rs[j].Ok?
    ensures RunOf(style, rs, false) == (Thrown(ItemFailed(i, FailureMessage(style, rs[i].error), rs[i].error)), i + 1)
  {
    FirstErrorAt(rs, i);
  }

  /** A batch that gets past every item returns everything collected, after attempting every item. */
  lemma RunOfFinishes(style: ErrorStyle, rs: seq<Result<Json>>, continueOnFail: bool)
    requires !continueOnFail ==> forall j :: 0 <= j < |rs| ==> rs[j].Ok?
    ensures RunOf(style, rs, continueOnFail) == (Done(Collected(style, rs)), |rs|)
  {
  }

  /** What `step` gives for each item, each called with its own index. */
  function Results<P>(step: (nat, P) -> Result<Json>, items: seq<P>): (rs: seq<Result<Json>>)
    ensures |rs| == |items|
    ensures forall i :: 0 <= i < |items| ==> rs[i] == step(i, items[i])
  {
    seq(|items|, i requires 0 <= i < |items| => step(i, items[i]))
  }

  /**
   * The loop both nodes run over their input items: call `step` on each
   * item in order; push the entries of its value (`{}` when falsy); on a
   * failure push the error entry and go on when continue-on-fail is set,
   * throw otherwise. The run and the number of items attempted (always
   * items 0 .. attempts-1) are those of `RunOf`.
   */
  method RunItems<P>(style: ErrorStyle, step: (nat, P) -> Result<Json>, items: seq<P>, continueOnFail: bool)
    returns (run: Run, attempts: nat)
    ensures (run, attempts) == RunOf(style, Results(step, items), continueOnFail)
  {
    ghost var rs := Results(step, items);
    var returnData: seq<Output> := [];
    var i := 0;
    while i < |items|
      invariant 0 <= i <= |items|
      invariant returnData == Collected(style, rs[..i])
      invariant !continueOnFail ==> forall j :: 0 <= j < i ==> rs[j].Ok?
    {
      var result := step(i, items[i]);
      assert rs[i] == result;
      if result.Err? && !continueOnFail {
        RunOfThrows(style, rs, i);
        return Thrown(ItemFailed(i, FailureMessage(style, result.error), result.error)), i + 1;
      }
      CollectedStep(style, rs, i, returnData, result);
      returnData := returnData + ItemOutputs(style, i, result);
      i := i + 1;
    }
    assert rs[..|items|] == rs;
    RunOfFinishes(style, rs, continueOnFail);
    run, attempts := Done(returnData), |items|;
  }

  /** The entries paired with item i, in order. */
  function EntriesOf(outs: seq<Output>, i: nat): seq<Output> {
    if outs == [] then []
    else EntriesOf(outs[..|outs| - 1], i) + (if outs[|outs| - 1].item == i then [outs[|outs| - 1]] else [])
  }

  lemma {:induction false} EntriesOfAppend(a: seq<Output>, b: seq<Output>, i: nat)
    ensures EntriesOf(a + b, i) == EntriesOf(a, i) + EntriesOf(b, i)
  {
    if b != [] {
      assert (a + b)[..|a + b| - 1] == a + b[..|b| - 1];
      EntriesOfAppend(a, b[..|b| - 1], i);
    } else {
      assert a + b == a;
    }
  }

  lemma {:induction false} EntriesOfTagged(vs: seq<Json>, j: nat, i: nat)
    ensures EntriesOf(Tag(vs, j), i) == if i == j then Tag(vs, j) else []
  {
    if vs != [] {
      assert Tag(vs, j)[..|vs| - 1] == Tag(vs[..|vs| - 1], j);
      EntriesOfTagged(vs[..|vs| - 1], j, i);
      assert Tag(vs, j) == Tag(vs[..|vs| - 1], j) + [Output(vs[|vs| - 1], j)];
    }
  }

  /**
   * The entries of item i in the collected outputs are exactly the entries
   * item i contributes, and items past the end contribute none.
   */
  lemma {:induction false} CollectedPerItem(style: ErrorStyle, rs: seq<Result<Json>>, i: nat)
    ensures EntriesOf(Collected(style, rs), i) == if i < |rs| then ItemOutputs(style, i, rs[i]) else []
  {
    if rs != [] {
      var n := |rs| - 1;
      var front := rs[..n];
      var last := ItemOutputs(style, n, rs[n]);
      assert Collected(style, rs) == Collected(style, front) + last;
      CollectedPerItem(style, front, i);
      if i < n {
        assert front[i] == rs[i];
      }
      EntriesOfAppend(Collected(style, front), last, i);
      EntriesOfItem(style, n, rs[n], i);
      JoinEntries(EntriesOf(Collected(style, front), i), EntriesOf(last, i),
                  if i < n then ItemOutputs(style, i, front[i]) else [], last, i < n, i == n);
    }
  }

  /** The two halves of an item's entries when at most one of them holds any. */
  lemma JoinEntries(a: seq<Output>, b: seq<Output>, x: seq<Output>, y: seq<Output>, inFront: bool, isLast: bool)
    requires a == (if inFront then x else []) && b == (if isLast then y else [])
    requires !(inFront && isLast)
    ensures a + b == if inFront then x else if isLast then y else []
  {
    if !inFront {
      assert a + b == b;
    } else {
      assert a + b == a;
    }
  }

  lemma EntriesOfItem(style: ErrorStyle, n: nat, r: Result<Json>, i: nat)
    ensures EntriesOf(ItemOutputs(style, n, r), i) == if i == n then ItemOutputs(style, n, r) else []
  {
    match r
    case Ok(v) => EntriesOfTagged(JsonArray(Or(v, Obj(map[]))), n, i);
    case Err(e) => assert [Output(ErrorEntry(style, e), n)][..0] == [];
  }

  /** Entries come out in item order, each paired with an item of the batch. */
  lemma {:induction false} CollectedInItemOrder(style: ErrorStyle, rs: seq<Result<Json>>)
    ensures forall k :: 0 <= k < |Collected(style, rs)| ==> Collected(style, rs)[k].item < |rs|
    ensures forall k, l :: 0 <= k < l < |Collected(style, rs)| ==>
              Collected(style, rs)[k].item <= Collected(style, rs)[l].item
  {
    if rs != [] {
      var n := |rs| - 1;
      CollectedInItemOrder(style, rs[..n]);
      var front := Collected(style, rs[..n]);
      var last := ItemOutputs(style, n, rs[n]);
      assert forall k :: 0 <= k < |last| ==> last[k].item == n;
      assert Collected(style, rs) == front + last;
    }
  }

  /**
   * Three items of which the second fails: continuing gives one entry per
   * item, in order, the middle one an error entry; failing fast throws for
   * item 1 after attempting items 0 and 1 only.
   */
  lemma SecondOfThreeFails(style: ErrorStyle, a: Object, e: JsError, c: Object)
    ensures RunOf(style, [Ok(Obj(a)), Err(e), Ok(Obj(c))], true) ==
              (Done([Output(Obj(a), 0), Output(ErrorEntry(style, e), 1), Output(Obj(c), 2)]), 3)
    ensures RunOf(style, [Ok(Obj(a)), Err(e), Ok(Obj(c))], false) ==
              (Thrown(ItemFailed(1, FailureMessage(style, e), e)), 2)
  {
    var rs := [Ok(Obj(a)), Err(e), Ok(Obj(c))];
    assert rs[..2][..1] == [Ok(Obj(a))] && rs[..2] == [Ok(Obj(a)), Err(e)];
    assert rs[..1] == [Ok(Obj(a))] && rs[..1][..0] == [];
    assert rs[1..][0] == Err(e);
    assert ItemOutputs(style, 0, rs[0]) == [Output(Obj(a), 0)];
    assert ItemOutputs(style, 2, rs[2]) == [Output(Obj(c), 2)];
    assert Collected(style, rs[..1]) == [Output(Obj(a), 0)];
    assert Collected(style, rs[..2]) == [Output(Obj(a), 0), Output(ErrorEntry(style, e), 1)];
    assert rs[..|rs| - 1] == rs[..2];
    assert Collected(style, rs) == Collected(style, rs[..2]) + [Output(Obj(c), 2)];
    assert Collected(style, rs) == [Output(Obj(a), 0), Output(ErrorEntry(style, e), 1), Output(Obj(c), 2)];
    assert RunOf(style, rs, true).0 == Done(Collected(style, rs));
    RunOfThrows(style, rs, 1);
  }


}
