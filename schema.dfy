/**
 * The modular node's property schema: the constructor registers the five
 * resource descriptors in a map keyed by resource name, then
 * `buildProperties` adds one "Operation" selector per resource and every
 * field property of every resource, stamping `displayOptions.show` on the
 * field descriptors in place. The descriptors are shared objects, so a
 * second node built from the same descriptors stamps them again.
 */
module Schema {
  import opened Js

  /** A `displayOptions.show` object: field name to the values that show the field. */
  type Show = Object

  /** `prop.displayOptions`: its `show` object, if any, and its other keys (such as `hide`). */
  datatype DisplayOptions = DisplayOptions(show: Option<Show>, others: Object)

  /** An n8n property descriptor. Only its display options change. */
  class Property {
    const name: string
    var displayOptions: Option<DisplayOptions>

    constructor (name: string, displayOptions: Option<DisplayOptions>)
      ensures this.name == name && this.displayOptions == displayOptions
    {
      this.name := name;
      this.displayOptions := displayOptions;
    }
  }

  /** An operation of a resource descriptor, with the field properties only it shows. */
  datatype Operation = Operation(name: string, value: string, displayName: string, description: string,
                                 action: string, properties: Option<seq<Property>>)

  /** A resource descriptor: its resource-level field properties and its operations. */
  datatype Resource = Resource(name: string, displayName: string, properties: seq<Property>, operations: seq<Operation>)

  /** One option of an "Operation" selector. */
  datatype OptionEntry = OptionEntry(name: string, value: string, description: string, action: string)

  /** An entry of the node's `description.properties`. */
  datatype Entry =
    | ResourceChoice                                       // the static "Resource" property
    | Selector(resource: string, options: seq<OptionEntry>) // "Operation", shown for `resource` only
    | Field(prop: Property)                                 // a descriptor's field property

  // ---------------------------------------------------------------------------
  // An insertion-ordered map, as `Map` and plain objects with non-numeric keys keep it

  predicate DistinctKeys<V>(m: seq<(string, V)>) {
    forall j, k :: 0 <= j < k < |m| ==> m[j].0 != m[k].0
  }

  function IndexOf<V>(m: seq<(string, V)>, key: string): (r: Option<nat>)
    ensures r.Some? ==> r.value < |m| && m[r.value].0 == key
    ensures r.None? <==> forall j :: 0 <= j < |m| ==> m[j].0 != key
  {
    if m == [] then None
    else if m[0].0 == key then Some(0)
    else match IndexOf(m[1..], key)
      case None => None
      case Some(j) => Some(j + 1)
  }

  /**
   * `m.set(key, value)`: a new key goes at the end; an existing key keeps
   * its place and takes the new value. Distinct keys stay distinct.
   */
  function MapSet<V>(m: seq<(string, V)>, key: string, value: V): (r: seq<(string, V)>)
    ensures (forall j :: 0 <= j < |m| ==> m[j].0 != key) ==> r == m + [(key, value)]
    ensures (exists j :: 0 <= j < |m| && m[j].0 == key) ==>
              |r| == |m| && exists j :: 0 <= j < |m| && m[j].0 == key && r == m[j := (key, value)]
    ensures DistinctKeys(m) ==> DistinctKeys(r)
  {
    match IndexOf(m, key)
    case None => m + [(key, value)]
    case Some(j) => m[j := (key, value)]
  }

  /** The values in key order (`Object.values`). */
  function Values<V>(m: seq<(string, V)>): (r: seq<V>)
    ensures |r| == |m| && forall k :: 0 <= k < |m| ==> r[k] == m[k].1
  {
    seq(|m|, k requires 0 <= k < |m| => m[k].1)
  }

  // ---------------------------------------------------------------------------
  // Stamping display options

  /** What `buildProperties` stamps on a field property. */
  datatype Stamp =
    | OnResource(resource: string)                    // a resource-level property
    | OnOperation(resource: string, operation: string) // a property of one operation

  /** The `show` object, `{}` when there is none yet. */
  function ShowOf(d: Option<DisplayOptions>): Show {
    if d.Some? && d.value.show.Some? then d.value.show.value else map[]
  }

  /** The other display-option keys. */
  function OthersOf(d: Option<DisplayOptions>): Object {
    if d.Some? then d.value.others else map[]
  }

  /**
   * `if (!show.operation) show.operation = []`, then push `op` when
   * `show.operation` is an array.
   */
  function PushOperation(show: Show, op: string): Show {
    var show1 := if Truthy(OptionalGet(Obj(show), "operation")) then show else show["operation" := Arr([])];
    if show1["operation"].Arr? then show1["operation" := Arr(show1["operation"].elems + [Str(op)])] else show1
  }

  /**
   * One stamp: create the display options and their `show` object when
   * missing, set `show.resource` to `[resource]`, and for an operation's
   * property push the operation's value onto `show.operation`.
   */
  function Apply(d: Option<DisplayOptions>, s: Stamp): (r: Option<DisplayOptions>)
    ensures r.Some? && r.value.show.Some?
    ensures "resource" in ShowOf(r) && ShowOf(r)["resource"] == Arr([Str(s.resource)])
    ensures OthersOf(r) == OthersOf(d)
  {
    var show := ShowOf(d)["resource" := Arr([Str(s.resource)])];
    Some(DisplayOptions(Some(if s.OnResource? then show else PushOperation(show, s.operation)), OthersOf(d)))
  }

  /** The stamps `ss` applied in order. */
  function ApplyAll(d: Option<DisplayOptions>, ss: seq<Stamp>): Option<DisplayOptions> {
    if ss == [] then d else Apply(ApplyAll(d, ss[..|ss| - 1]), ss[|ss| - 1])
  }

  lemma ApplyOne(d: Option<DisplayOptions>, s: Stamp)
    ensures ApplyAll(d, [s]) == Apply(d, s)
  {
    assert [s][..0] == [];
  }

  /**
   * The resource stamp sets `show.resource` to `[resource]`, replacing any
   * earlier value, and keeps every other `show` key (`operation`,
   * `returnAll`, ...) and every other display option.
   */
  lemma ResourceStamp(d: Option<DisplayOptions>, resource: string)
    ensures var after := ShowOf(Apply(d, OnResource(resource)));
            && after.Keys == ShowOf(d).Keys + {"resource"}
            && after["resource"] == Arr([Str(resource)])
            && (forall k :: k in ShowOf(d) && k != "resource" ==> after[k] == ShowOf(d)[k])
            && OthersOf(Apply(d, OnResource(resource))) == OthersOf(d)
  {
  }

  /** Stamping a resource twice is stamping it once; a later resource stamp wins. */
  lemma ResourceStampIdempotent(d: Option<DisplayOptions>, a: string, b: string)
    ensures Apply(Apply(d, OnResource(a)), OnResource(a)) == Apply(d, OnResource(a))
    ensures Apply(Apply(d, OnResource(a)), OnResource(b)) == Apply(d, OnResource(b))
  {
    var s := ShowOf(d);
    assert s["resource" := Arr([Str(a)])]["resource" := Arr([Str(a)])] == s["resource" := Arr([Str(a)])];
    assert s["resource" := Arr([Str(a)])]["resource" := Arr([Str(b)])] == s["resource" := Arr([Str(b)])];
  }

  /**
   * The operation stamp sets `show.resource` and appends the operation's
   * value to `show.operation`, which starts as `[]` when it is falsy; a
   * truthy non-array `show.operation` is left as it is. Other keys stay.
   */
  lemma OperationStamp(d: Option<DisplayOptions>, resource: string, op: string)
    ensures var before := OptionalGet(Obj(ShowOf(d)), "operation");
            var after := ShowOf(Apply(d, OnOperation(resource, op)));
            && after.Keys == ShowOf(d).Keys + {"resource", "operation"}
            && after["resource"] == Arr([Str(resource)])
            && (!Truthy(before) ==> after["operation"] == Arr([Str(op)]))
            && (before.Arr? ==> after["operation"] == Arr(before.elems + [Str(op)]))
            && (Truthy(before) && !before.Arr? ==> after["operation"] == before)
            && (forall k :: k in ShowOf(d) && k !in {"resource", "operation"} ==> after[k] == ShowOf(d)[k])
  {
  }

  /**
   * The operation push is not idempotent: stamping the same property for
   * the same operation twice lists the operation twice.
   */
  lemma OperationStampRepeats(d: Option<DisplayOptions>, resource: string, op: string, xs: seq<Json>)
    requires OptionalGet(Obj(ShowOf(d)), "operation") == Arr(xs)
    ensures ShowOf(Apply(d, OnOperation(resource, op)))["operation"] == Arr(xs + [Str(op)])
    ensures ShowOf(Apply(Apply(d, OnOperation(resource, op)), OnOperation(resource, op)))["operation"]
              == Arr(xs + [Str(op), Str(op)])
    ensures Apply(Apply(d, OnOperation(resource, op)), OnOperation(resource, op)) != Apply(d, OnOperation(resource, op))
  {
    OperationStamp(d, resource, op);
    var once := Apply(d, OnOperation(resource, op));
    OperationStamp(once, resource, op);
    assert (xs + [Str(op)]) + [Str(op)] == xs + [Str(op), Str(op)];
    assert |xs + [Str(op), Str(op)]| != |xs + [Str(op)]|;
  }

  /**
   * Whatever stamps a property receives, its `show.resource` ends as the
   * last stamp's resource.
   */
  lemma LastResourceWins(d: Option<DisplayOptions>, ss: seq<Stamp>)
    requires ss != []
    ensures ShowOf(ApplyAll(d, ss))["resource"] == Arr([Str(ss[|ss| - 1].resource)])
  {
  }

  /** The operations of a run of operation stamps, in order. */
  function OperationValues(ss: seq<Stamp>): seq<Json>
    requires forall k :: 0 <= k < |ss| ==> ss[k].OnOperation?
  {
    if ss == [] then [] else OperationValues(ss[..|ss| - 1]) + [Str(ss[|ss| - 1].operation)]
  }

  /**
   * A property that only receives operation stamps, starting from an
   * array `xs` in `show.operation`, ends with `xs` followed by every
   * stamped operation, repeats included, in stamping order.
   */
  lemma {:induction false} OperationsAccumulate(d: Option<DisplayOptions>, xs: seq<Json>, ss: seq<Stamp>)
    requires OptionalGet(Obj(ShowOf(d)), "operation") == Arr(xs)
    requires forall k :: 0 <= k < |ss| ==> ss[k].OnOperation?
    ensures OptionalGet(Obj(ShowOf(ApplyAll(d, ss))), "operation") == Arr(xs + OperationValues(ss))
  {
    if ss == [] {
      assert xs + [] == xs;
    } else {
      var n := |ss| - 1;
      OperationsAccumulate(d, xs, ss[..n]);
      OperationStamp(ApplyAll(d, ss[..n]), ss[n].resource, ss[n].operation);
      assert xs + OperationValues(ss) == (xs + OperationValues(ss[..n])) + [Str(ss[n].operation)];
    }
  }

  // ---------------------------------------------------------------------------
  // The order in which `buildProperties` stamps and pushes field properties

  /** A field property and the stamp it receives, in processing order. */
  type Event = (Property, Stamp)

  function PropEvents(props: seq<Property>, s: Stamp): (r: seq<Event>)
    ensures |r| == |props| && forall k :: 0 <= k < |props| ==> r[k] == (props[k], s)
  {
    seq(|props|, k requires 0 <= k < |props| => (props[k], s))
  }

  /** The properties of one operation, stamped with the resource and the operation's value. */
  function OperationPropEvents(resource: string, op: Operation): seq<Event> {
    if op.properties.None? then [] else PropEvents(op.properties.value, OnOperation(resource, op.value))
  }

  function OperationEvents(resource: string, ops: seq<Operation>): seq<Event> {
    if ops == [] then []
    else OperationEvents(resource, ops[..|ops| - 1]) + OperationPropEvents(resource, ops[|ops| - 1])
  }

  /** A module's resource-level properties first, then its operations' properties. */
  function ModuleEvents(resource: string, r: Resource): seq<Event> {
    PropEvents(r.properties, OnResource(resource)) + OperationEvents(resource, r.operations)
  }

  /** The modules in map order. */
  function Events(modules: seq<(string, Resource)>): seq<Event> {
    if modules == [] then []
    else Events(modules[..|modules| - 1]) + ModuleEvents(modules[|modules| - 1].0, modules[|modules| - 1].1)
  }

  /** Every field property the registered modules hold. */
  ghost function PropsOf(modules: seq<(string, Resource)>): set<Property> {
    set e | e in Events(modules) :: e.0
  }

  /** The stamps property q receives, in order. */
  function StampsFor(q: Property, evs: seq<Event>): seq<Stamp> {
    if evs == [] then []
    else StampsFor(q, evs[..|evs| - 1]) + (if evs[|evs| - 1].0 == q then [evs[|evs| - 1].1] else [])
  }

  /** The entries `allProperties` receives: one per event, in order. */
  function Pushed(evs: seq<Event>): (r: seq<Entry>)
    ensures |r| == |evs| && forall k :: 0 <= k < |evs| ==> r[k] == Field(evs[k].0)
  {
    seq(|evs|, k requires 0 <= k < |evs| => Field(evs[k].0))
  }

  /** `resource.operations.map(op => ({name: op.displayName, value, description, action}))` */
  function OptionsOf(ops: seq<Operation>): (r: seq<OptionEntry>)
    ensures |r| == |ops|
    ensures forall k :: 0 <= k < |ops| ==>
              r[k] == OptionEntry(ops[k].displayName, ops[k].value, ops[k].description, ops[k].action)
  {
    seq(|ops|, k requires 0 <= k < |ops| =>
      OptionEntry(ops[k].displayName, ops[k].value, ops[k].description, ops[k].action))
  }

  /** One "Operation" selector per module, in map order, listing the module's operations in order. */
  function Selectors(modules: seq<(string, Resource)>): (r: seq<Entry>)
    ensures |r| == |modules|
    ensures forall k :: 0 <= k < |modules| ==> r[k] == Selector(modules[k].0, OptionsOf(modules[k].1.operations))
  {
    seq(|modules|, k requires 0 <= k < |modules| => Selector(modules[k].0, OptionsOf(modules[k].1.operations)))
  }

  lemma {:induction false} StampsForAppend(q: Property, a: seq<Event>, b: seq<Event>)
    ensures StampsFor(q, a + b) == StampsFor(q, a) + StampsFor(q, b)
  {
    if b == [] {
      assert a + b == a;
    } else {
      assert (a + b)[..|a + b| - 1] == a + b[..|b| - 1];
      StampsForAppend(q, a, b[..|b| - 1]);
    }
  }

  lemma {:induction false} ApplyAllAppend(d: Option<DisplayOptions>, a: seq<Stamp>, b: seq<Stamp>)
    ensures ApplyAll(d, a + b) == ApplyAll(ApplyAll(d, a), b)
  {
    if b == [] {
      assert a + b == a;
    } else {
      assert (a + b)[..|a + b| - 1] == a + b[..|b| - 1];
      ApplyAllAppend(d, a, b[..|b| - 1]);
    }
  }

  /** Applying the stamps of `a` and then those of `b` is applying those of `a + b`. */
  lemma Compose(q: Property, d: Option<DisplayOptions>, a: seq<Event>, b: seq<Event>)
    ensures ApplyAll(ApplyAll(d, StampsFor(q, a)), StampsFor(q, b)) == ApplyAll(d, StampsFor(q, a + b))
  {
    StampsForAppend(q, a, b);
    ApplyAllAppend(d, StampsFor(q, a), StampsFor(q, b));
  }

  /** One more event: only its own property receives its stamp. */
  lemma StampStep(q: Property, p: Property, s: Stamp, start: Option<DisplayOptions>,
                  current: Option<DisplayOptions>, evs: seq<Event>)
    requires current == ApplyAll(start, StampsFor(q, evs))
    ensures (if q == p then Apply(current, s) else current) == ApplyAll(start, StampsFor(q, evs + [(p, s)]))
  {
    StampsForAppend(q, evs, [(p, s)]);
    assert [(p, s)][..0] == [];
    if q == p {
      var ss := StampsFor(q, evs) + [s];
      assert ss[..|ss| - 1] == StampsFor(q, evs);
    } else {
      assert StampsFor(q, evs) + [] == StampsFor(q, evs);
    }
  }

  /** The selector of module i joins the selectors of the modules before it at the end. */
  lemma SelectorStep(mods: seq<(string, Resource)>, selectors: seq<(string, Entry)>, i: nat)
    requires DistinctKeys(mods) && i < |mods| && |selectors| == i
    requires forall k :: 0 <= k < i ==> selectors[k] == (mods[k].0, Selectors(mods)[k])
    ensures var r := MapSet(selectors, mods[i].0, Selector(mods[i].0, OptionsOf(mods[i].1.operations)));
            |r| == i + 1 && forall k :: 0 <= k <= i ==> r[k] == (mods[k].0, Selectors(mods)[k])
  {
    assert forall j :: 0 <= j < |selectors| ==> selectors[j].0 == mods[j].0 != mods[i].0;
  }

  lemma PushedAppend(a: seq<Event>, b: seq<Event>)
    ensures Pushed(a + b) == Pushed(a) + Pushed(b)
  {
  }

  lemma PropEventsSnoc(props: seq<Property>, s: Stamp, j: nat)
    requires j < |props|
    ensures PropEvents(props[..j + 1], s) == PropEvents(props[..j], s) + [(props[j], s)]
  {
  }

  lemma OperationEventsSnoc(resource: string, ops: seq<Operation>, k: nat)
    requires k < |ops|
    ensures OperationEvents(resource, ops[..k + 1]) == OperationEvents(resource, ops[..k]) + OperationPropEvents(resource, ops[k])
  {
    assert ops[..k + 1][..k] == ops[..k];
  }

  lemma {:induction false} OperationPropsIncluded(resource: string, ops: seq<Operation>, k: nat)
    requires k < |ops|
    ensures forall e :: e in OperationPropEvents(resource, ops[k]) ==> e in OperationEvents(resource, ops)
  {
    var n := |ops| - 1;
    if k < n {
      assert ops[..n][k] == ops[k];
      OperationPropsIncluded(resource, ops[..n], k);
    }
  }

  lemma {:induction false} ModulePropsIncluded(modules: seq<(string, Resource)>, k: nat)
    requires k < |modules|
    ensures forall e :: e in ModuleEvents(modules[k].0, modules[k].1) ==> e in Events(modules)
  {
    var n := |modules| - 1;
    if k < n {
      assert modules[..n][k] == modules[k];
      ModulePropsIncluded(modules[..n], k);
    }
  }

  // ---------------------------------------------------------------------------
  // The loops of `buildProperties`

  /**
   * Stamp each property of `props` with `s`, in order, and list them for
   * `allProperties`. Properties in `universe` that are not in `props`
   * are not touched.
   */
  method StampProperties(props: seq<Property>, s: Stamp, ghost universe: set<Property>)
    returns (pushed: seq<Entry>)
    requires forall k :: 0 <= k < |props| ==> props[k] in universe
    modifies universe
    ensures pushed == Pushed(PropEvents(props, s))
    ensures forall q :: q in universe ==>
              q.displayOptions == ApplyAll(old(q.displayOptions), StampsFor(q, PropEvents(props, s)))
  {
    pushed := [];
    var j := 0;
    while j < |props|
      invariant 0 <= j <= |props|
      invariant pushed == Pushed(PropEvents(props[..j], s))
      invariant forall q :: q in universe ==>
                  q.displayOptions == ApplyAll(old(q.displayOptions), StampsFor(q, PropEvents(props[..j], s)))
    {
      var prop := props[j];
      ghost var done := PropEvents(props[..j], s);
      PropEventsSnoc(props, s, j);
      PushedAppend(done, [(prop, s)]);
      label Before:
      prop.displayOptions := Apply(prop.displayOptions, s);
      forall q | q in universe
        ensures q.displayOptions == ApplyAll(old(q.displayOptions), StampsFor(q, done + [(prop, s)]))
      {
        StampStep(q, prop, s, old(q.displayOptions), old@Before(q.displayOptions), done);
      }
      pushed := pushed + [Field(prop)];
      j := j + 1;
    }
    assert props[..|props|] == props;
  }

  /** One operation's properties, if it has any, stamped with the resource and the operation's value. */
  method StampOperation(resource: string, op: Operation, ghost universe: set<Property>)
    returns (pushed: seq<Entry>)
    requires forall e :: e in OperationPropEvents(resource, op) ==> e.0 in universe
    modifies universe
    ensures pushed == Pushed(OperationPropEvents(resource, op))
    ensures forall q :: q in universe ==>
              q.displayOptions == ApplyAll(old(q.displayOptions), StampsFor(q, OperationPropEvents(resource, op)))
  {
    if op.properties.Some? {
      var props := op.properties.value;
      ghost var evs := PropEvents(props, OnOperation(resource, op.value));
      assert forall j :: 0 <= j < |props| ==> evs[j] in evs;
      pushed := StampProperties(props, OnOperation(resource, op.value), universe);
    } else {
      pushed := [];
    }
  }

  /** `resource.operations.forEach(...)`: stamp and list every operation's properties, operation by operation. */
  method StampOperations(resource: string, ops: seq<Operation>, ghost universe: set<Property>)
    returns (pushed: seq<Entry>)
    requires forall e :: e in OperationEvents(resource, ops) ==> e.0 in universe
    modifies universe
    ensures pushed == Pushed(OperationEvents(resource, ops))
    ensures forall q :: q in universe ==>
              q.displayOptions == ApplyAll(old(q.displayOptions), StampsFor(q, OperationEvents(resource, ops)))
  {
    pushed := [];
    var k := 0;
    while k < |ops|
      invariant 0 <= k <= |ops|
      invariant pushed == Pushed(OperationEvents(resource, ops[..k]))
      invariant forall q :: q in universe ==>
                  q.displayOptions == ApplyAll(old(q.displayOptions), StampsFor(q, OperationEvents(resource, ops[..k])))
    {
      ghost var before := OperationEvents(resource, ops[..k]);
      ghost var current := OperationPropEvents(resource, ops[k]);
      OperationEventsSnoc(resource, ops, k);
      OperationPropsIncluded(resource, ops, k);
      var more := StampOperation(resource, ops[k], universe);
      forall q | q in universe
        ensures q.displayOptions == ApplyAll(old(q.displayOptions), StampsFor(q, before + current))
      {
        Compose(q, old(q.displayOptions), before, current);
      }
      PushedAppend(before, current);
      pushed := pushed + more;
      k := k + 1;
    }
    assert ops[..|ops|] == ops;
  }

  /**
   * One module's turn: its resource-level properties, then its operations'
   * properties, stamped and listed in that order.
   */
  method StampModule(resourceName: string, resource: Resource, ghost universe: set<Property>)
    returns (pushed: seq<Entry>)
    requires forall e :: e in ModuleEvents(resourceName, resource) ==> e.0 in universe
    modifies universe
    ensures pushed == Pushed(ModuleEvents(resourceName, resource))
    ensures forall q :: q in universe ==>
              q.displayOptions == ApplyAll(old(q.displayOptions), StampsFor(q, ModuleEvents(resourceName, resource)))
  {
    var props := resource.properties;
    ghost var onResource := PropEvents(props, OnResource(resourceName));
    ghost var onOperations := OperationEvents(resourceName, resource.operations);
    assert forall j :: 0 <= j < |props| ==> onResource[j] in ModuleEvents(resourceName, resource);
    var fields := StampProperties(props, OnResource(resourceName), universe);
    label AfterFields:
    var opFields := StampOperations(resourceName, resource.operations, universe);
    forall q | q in universe
      ensures q.displayOptions == ApplyAll(old(q.displayOptions), StampsFor(q, onResource + onOperations))
    {
      Compose(q, old(q.displayOptions), onResource, onOperations);
    }
    PushedAppend(onResource, onOperations);
    pushed := fields + opFields;
  }

  /** The node. Only the parts its constructor builds are modelled. */
  class ModularNode {
    /** `this.modules`: resource name to module, in insertion order. */
    var modules: seq<(string, Resource)>
    /** `this.description.properties` */
    var properties: seq<Entry>

    /**
     * Register the five modules under their resources' names, then build
     * the properties: the static "Resource" property, one selector per
     * module and every field property, each stamped as its events say.
     */
    constructor (user: Resource, companies: Resource, clients: Resource, issued: Resource, suppliers: Resource)
      modifies PropsOf(Registered(user, companies, clients, issued, suppliers))
      ensures modules == Registered(user, companies, clients, issued, suppliers)
      ensures properties == [ResourceChoice] + Selectors(modules) + Pushed(Events(modules))
      ensures forall q :: q in PropsOf(modules) && old(allocated(q)) ==>
                q.displayOptions == ApplyAll(old(q.displayOptions), StampsFor(q, Events(modules)))
    {
      modules := Registered(user, companies, clients, issued, suppliers);
      properties := [ResourceChoice];
      new;
      BuildProperties();
    }

    /**
     * Add one selector per module and then every field property, stamping
     * the field properties' display options on the way.
     */
    method BuildProperties()
      requires DistinctKeys(modules)
      modifies this, PropsOf(modules)
      ensures modules == old(modules)
      ensures properties == old(properties) + Selectors(modules) + Pushed(Events(modules))
      ensures forall q :: q in PropsOf(modules) && old(allocated(q)) ==>
                q.displayOptions == ApplyAll(old(q.displayOptions), StampsFor(q, Events(modules)))
    {
      var mods := modules;
      var resourceOperations, allProperties := CollectModules(mods, PropsOf(mods));
      assert Values(resourceOperations) == Selectors(mods);
      properties := properties + Values(resourceOperations) + allProperties;
    }
  }

  /**
   * `this.modules.forEach(...)` in `buildProperties`: for each module in
   * map order, set its selector under its resource name, then stamp and
   * list its resource-level properties and its operations' properties.
   */
  method CollectModules(mods: seq<(string, Resource)>, ghost universe: set<Property>)
    returns (resourceOperations: seq<(string, Entry)>, allProperties: seq<Entry>)
    requires DistinctKeys(mods)
    requires forall e :: e in Events(mods) ==> e.0 in universe
    modifies universe
    ensures |resourceOperations| == |mods|
    ensures forall k :: 0 <= k < |mods| ==> resourceOperations[k] == (mods[k].0, Selectors(mods)[k])
    ensures allProperties == Pushed(Events(mods))
    ensures forall q :: q in universe ==>
              q.displayOptions == ApplyAll(old(q.displayOptions), StampsFor(q, Events(mods)))
  {
    resourceOperations := [];
    allProperties := [];
    var i := 0;
    while i < |mods|
      invariant 0 <= i <= |mods|
      invariant |resourceOperations| == i
      invariant forall k :: 0 <= k < i ==> resourceOperations[k] == (mods[k].0, Selectors(mods)[k])
      invariant allProperties == Pushed(Events(mods[..i]))
      invariant forall q :: q in universe ==>
                  q.displayOptions == ApplyAll(old(q.displayOptions), StampsFor(q, Events(mods[..i])))
    {
      var (resourceName, resource) := mods[i];
      ghost var before := Events(mods[..i]);
      ghost var current := ModuleEvents(resourceName, resource);
      EventsSnoc(mods, i);
      ModulePropsIncluded(mods, i);
      SelectorStep(mods, resourceOperations, i);
      resourceOperations := MapSet(resourceOperations, resourceName,
                                   Selector(resourceName, OptionsOf(resource.operations)));
      var fields := StampModule(resourceName, resource, universe);
      forall q | q in universe
        ensures q.displayOptions == ApplyAll(old(q.displayOptions), StampsFor(q, before + current))
      {
        Compose(q, old(q.displayOptions), before, current);
      }
      PushedAppend(before, current);
      allProperties := allProperties + fields;
      i := i + 1;
    }
    assert mods[..|mods|] == mods;
  }

  /** The module map after the constructor's five `set` calls. */
  function Registered(user: Resource, companies: Resource, clients: Resource, issued: Resource, suppliers: Resource)
    : (r: seq<(string, Resource)>)
    ensures DistinctKeys(r)
  {
    var m := MapSet([], user.name, user);
    var m := MapSet(m, companies.name, companies);
    var m := MapSet(m, clients.name, clients);
    var m := MapSet(m, issued.name, issued);
    MapSet(m, suppliers.name, suppliers)
  }

  /** With five distinct resource names the modules come in registration order. */
  lemma RegisteredInOrder(user: Resource, companies: Resource, clients: Resource, issued: Resource, suppliers: Resource)
    requires user.name !in {companies.name, clients.name, issued.name, suppliers.name}
    requires companies.name !in {clients.name, issued.name, suppliers.name}
    requires clients.name !in {issued.name, suppliers.name}
    requires issued.name != suppliers.name
    ensures Registered(user, companies, clients, issued, suppliers) ==
              [(user.name, user), (companies.name, companies), (clients.name, clients),
               (issued.name, issued), (suppliers.name, suppliers)]
  {
    var m1 := MapSet([], user.name, user);
    var m2 := MapSet(m1, companies.name, companies);
    var m3 := MapSet(m2, clients.name, clients);
    var m4 := MapSet(m3, issued.name, issued);
    assert m1 == [(user.name, user)];
    assert m2 == m1 + [(companies.name, companies)];
    assert m3 == m2 + [(clients.name, clients)];
    assert m4 == m3 + [(issued.name, issued)];
    assert MapSet(m4, suppliers.name, suppliers) == m4 + [(suppliers.name, suppliers)];
  }

  /** The User descriptor: no fields, two operations. */
  function UserDescriptor(): Resource {
    Resource("user", "User", [],
      [Operation("Get Info", "getInfo", "Get Info", "Get user information", "Get user information", None),
       Operation("List Companies", "listCompanies", "List Companies", "List user companies", "List user companies", None)])
  }

  /** The Company descriptor: a company ID field and a category field for "Get Plan Usage" only. */
  function CompanyDescriptor(companyId: Property, category: Property): Resource {
    Resource("company", "Company", [companyId],
      [Operation("Get Info", "getInfo", "Get Info", "Get company information", "Get company information", None),
       Operation("Get Plan Usage", "getPlanUsage", "Get Plan Usage", "Get company plan usage", "Get company plan usage",
                 Some([category]))])
  }

  /** The events of the Company descriptor: the company ID field, then the category field. */
  function CompanyEvents(companyId: Property, category: Property): seq<Event> {
    [(companyId, OnResource("company")), (category, OnOperation("company", "getPlanUsage"))]
  }

  /**
   * With the three other descriptors holding no fields, building a node
   * stamps the company ID field for the resource and the category field
   * for "Get Plan Usage", and nothing else.
   */
  lemma CompanyOnlyEvents(companyId: Property, category: Property, clients: Resource, issued: Resource, suppliers: Resource)
    requires clients.name == "client" && issued.name == "issuedDocument" && suppliers.name == "supplier"
    requires clients.properties == issued.properties == suppliers.properties == []
    requires clients.operations == issued.operations == suppliers.operations == []
    ensures Events(Registered(UserDescriptor(), CompanyDescriptor(companyId, category), clients, issued, suppliers))
              == CompanyEvents(companyId, category)
  {
    var user := UserDescriptor();
    var company := CompanyDescriptor(companyId, category);
    RegisteredInOrder(user, company, clients, issued, suppliers);
    var mods := Registered(user, company, clients, issued, suppliers);
    EventsOfFive(mods);
    UserEvents();
    CompanyModuleEvents(companyId, category);
    EmptyModuleEvents("client", clients);
    EmptyModuleEvents("issuedDocument", issued);
    EmptyModuleEvents("supplier", suppliers);
  }

  lemma EmptyModuleEvents(resource: string, r: Resource)
    requires r.properties == [] && r.operations == []
    ensures ModuleEvents(resource, r) == []
  {
    var none: seq<Event> := [];
    assert PropEvents([], OnResource(resource)) == none;
  }

  lemma EventsOfFive(mods: seq<(string, Resource)>)
    requires |mods| == 5
    ensures Events(mods) == ModuleEvents(mods[0].0, mods[0].1) + ModuleEvents(mods[1].0, mods[1].1) +
                            ModuleEvents(mods[2].0, mods[2].1) + ModuleEvents(mods[3].0, mods[3].1) +
                            ModuleEvents(mods[4].0, mods[4].1)
  {
    var m4 := mods[..4];
    var m3 := m4[..3];
    var m2 := m3[..2];
    var m1 := m2[..1];
    assert m1[..0] == [];
    assert Events(m1) == ModuleEvents(mods[0].0, mods[0].1);
    assert Events(m2) == Events(m1) + ModuleEvents(mods[1].0, mods[1].1);
    assert Events(m3) == Events(m2) + ModuleEvents(mods[2].0, mods[2].1);
    assert Events(m4) == Events(m3) + ModuleEvents(mods[3].0, mods[3].1);
  }

  lemma EventsSnoc(mods: seq<(string, Resource)>, k: nat)
    requires k < |mods|
    ensures Events(mods[..k + 1]) == Events(mods[..k]) + ModuleEvents(mods[k].0, mods[k].1)
  {
    assert mods[..k + 1][..k] == mods[..k];
  }

  lemma UserEvents()
    ensures ModuleEvents("user", UserDescriptor()) == []
  {
    var ops := UserDescriptor().operations;
    var none: seq<Event> := [];
    assert PropEvents([], OnResource("user")) == none;
    assert ops[..1][..0] == [] && ops[..2 - 1] == ops[..1];
    assert OperationEvents("user", ops[..1]) == none;
  }

  lemma CompanyModuleEvents(companyId: Property, category: Property)
    ensures ModuleEvents("company", CompanyDescriptor(companyId, category)) == CompanyEvents(companyId, category)
  {
    var ops := CompanyDescriptor(companyId, category).operations;
    var none: seq<Event> := [];
    assert ops[..1][..0] == [] && ops[..2 - 1] == ops[..1];
    assert OperationEvents("company", ops[..1]) == none;
    assert OperationEvents("company", ops) == [(category, OnOperation("company", "getPlanUsage"))];
    assert PropEvents([companyId], OnResource("company")) == [(companyId, OnResource("company"))];
  }

  /** Building one node stamps the category field once, and touches only the two Company fields. */
  lemma CompanyOnlyBuild(companyId: Property, category: Property, clients: Resource, issued: Resource, suppliers: Resource)
    requires companyId != category
    requires clients.name == "client" && issued.name == "issuedDocument" && suppliers.name == "supplier"
    requires clients.properties == issued.properties == suppliers.properties == []
    requires clients.operations == issued.operations == suppliers.operations == []
    ensures var mods := Registered(UserDescriptor(), CompanyDescriptor(companyId, category), clients, issued, suppliers);
            && PropsOf(mods) == {companyId, category}
            && StampsFor(category, Events(mods)) == [OnOperation("company", "getPlanUsage")]
  {
    CompanyOnlyEvents(companyId, category, clients, issued, suppliers);
    CompanyEventsStamp(companyId, category);
  }

  lemma CompanyEventsStamp(companyId: Property, category: Property)
    requires companyId != category
    ensures (set e | e in CompanyEvents(companyId, category) :: e.0) == {companyId, category}
    ensures StampsFor(category, CompanyEvents(companyId, category)) == [OnOperation("company", "getPlanUsage")]
  {
    var events := CompanyEvents(companyId, category);
    assert events[0] in events && events[1] in events;
    var none: seq<Event> := [];
    assert events[..1][..0] == none && events[..2 - 1] == events[..1];
    assert StampsFor(category, events[..1]) == [];
  }

  /**
   * One node built over the User and Company descriptors (the other three
   * without fields): the category field gains exactly one operation stamp.
   */
  method BuildOverCompany(companyId: Property, category: Property) returns (node: ModularNode)
    requires companyId != category
    modifies companyId, category
    ensures category.displayOptions == Apply(old(category.displayOptions), OnOperation("company", "getPlanUsage"))
  {
    var user := UserDescriptor();
    var company := CompanyDescriptor(companyId, category);
    var clients := Resource("client", "Client", [], []);
    var issued := Resource("issuedDocument", "Issued Document", [], []);
    var suppliers := Resource("supplier", "Supplier", [], []);
    CompanyOnlyBuild(companyId, category, clients, issued, suppliers);
    ghost var mods := Registered(user, company, clients, issued, suppliers);
    assert category in PropsOf(mods) && PropsOf(mods) <= {companyId, category};
    ApplyOne(category.displayOptions, OnOperation("company", "getPlanUsage"));
    node := new ModularNode(user, company, clients, issued, suppliers);
  }

  /**
   * Two nodes built over the same shared descriptors: the Company
   * "Category" field lists "getPlanUsage" once after the first node and
   * twice after the second, while its `show.resource` stays `["company"]`.
   */
  method BuildTwiceOverSharedDescriptors() returns (first: Json, second: Json, resource: Json)
    ensures first == Arr([Str("getPlanUsage")])
    ensures second == Arr([Str("getPlanUsage"), Str("getPlanUsage")])
    ensures resource == Arr([Str("company")])
  {
    var companyId := new Property("companyId", None);
    var category := new Property("category", None);
    var a := BuildOverCompany(companyId, category);
    OperationStamp(None, "company", "getPlanUsage");
    first := OptionalGet(Obj(ShowOf(category.displayOptions)), "operation");
    ghost var afterFirst := category.displayOptions;
    var b := BuildOverCompany(companyId, category);
    OperationStamp(afterFirst, "company", "getPlanUsage");
    second := OptionalGet(Obj(ShowOf(category.displayOptions)), "operation");
    resource := OptionalGet(Obj(ShowOf(category.displayOptions)), "resource");
  }
}
