/**
 * The issued-documents module: entity checks, line-item and payment
 * defaults, the document date, the request bodies for create and update,
 * and the dispatch of its five operations onto the SDK.
 */
module IssuedDocuments {
  import opened Js
  import opened Sdk
  import Credentials
  import Listing

  const MissingNameMessage: string :=
    "Entity (Client) name is required to create an issued document. Please fill in the client name in the Entity section."
  const MissingEntityMessage: string :=
    "Entity (Client) information is required to update an issued document. Please fill in at least the client name."

  const MissingName: JsError := Throw(NodeOperationError, MissingNameMessage)
  const MissingEntity: JsError := Throw(NodeOperationError, MissingEntityMessage)

  /** The VAT rate an item without VAT details is given. */
  const DefaultVat: Json := Obj(map["id" := Num(0.0), "value" := Num(22.0), "description" := Str("")])
  /** The payment terms a payment without terms details is given. */
  const DefaultTerms: Json := Obj(map["days" := Num(0.0), "type" := Str("standard")])

  // ---------------------------------------------------------------------------
  // `String.prototype.trim`

  /** The characters `trim` removes: ECMAScript white space and line terminators. */
  predicate IsSpace(c: char) {
    || c == '\t' || c == '\n' || c == '\U{000B}' || c == '\U{000C}' || c == '\r' || c == ' '
    || c == '\U{00A0}' || c == '\U{1680}' || ('\U{2000}' <= c <= '\U{200A}')
    || c == '\U{2028}' || c == '\U{2029}' || c == '\U{202F}' || c == '\U{205F}'
    || c == '\U{3000}' || c == '\U{FEFF}'
  }

  /** Every character of s is white space (so is the empty string). */
  predicate Blank(s: string) {
    forall i :: 0 <= i < |s| ==> IsSpace(s[i])
  }

  function TrimStart(s: string): (r: string)
    ensures r == "" <==> Blank(s)
    ensures r != "" ==> !IsSpace(r[0])
  {
    if s != "" && IsSpace(s[0]) then
      var r := TrimStart(s[1..]);
      assert Blank(s[1..]) ==> Blank(s) by {
        if Blank(s[1..]) {
          forall i | 0 <= i < |s| ensures IsSpace(s[i]) {
            if i > 0 { assert s[i] == s[1..][i - 1]; }
          }
        }
      }
      r
    else
      s
  }

  function TrimEnd(s: string): (r: string)
    ensures s != "" && !IsSpace(s[0]) ==> r != ""
  {
    if s != "" && IsSpace(s[|s| - 1]) then TrimEnd(s[..|s| - 1]) else s
  }

  /** `s.trim()` */
  function Trim(s: string): string {
    TrimEnd(TrimStart(s))
  }

  /** A name trims to nothing exactly when it is all white space. */
  lemma TrimEmptyIffBlank(s: string)
    ensures Trim(s) == "" <==> Blank(s)
  {
  }

  // ---------------------------------------------------------------------------
  // Entity checks

  /** `Object.keys(v).length` for a value that is neither null nor undefined. */
  function KeyCount(v: Json): nat {
    match v
    case Obj(m) => |m|
    case Arr(xs) => |xs|
    case Str(s) => |s|
    case _ => 0
  }

  /** The case in which create refuses the entity before calling the API. */
  predicate EntityNameMissing(entity: Json) {
    var details := OptionalGet(entity, "entityDetails");
    var name := OptionalGet(details, "name");
    || !Truthy(entity)
    || !Truthy(details)
    || !Truthy(name)
    || (name.Str? && Blank(name.s))
  }

  /**
   * Create's check: `!entity || !entity.entityDetails ||
   * !entity.entityDetails.name || entity.entityDetails.name.trim() === ''`.
   * A truthy name that is not a string has no `trim` and throws a TypeError.
   * On success the result is the entity details.
   */
  function CheckCreateEntity(entity: Json): (r: Result<Json>)
    ensures r == Err(MissingName) <==> EntityNameMissing(entity)
    ensures r.Err? && r != Err(MissingName) ==> r.error.kind == TypeError
    ensures r.Ok? ==> r.value == OptionalGet(entity, "entityDetails")
    ensures r.Ok? ==> var name := OptionalGet(r.value, "name"); name.Str? && !Blank(name.s)
  {
    if !Truthy(entity) then Err(MissingName)
    else
      var details := OptionalGet(entity, "entityDetails");
      if !Truthy(details) then Err(MissingName)
      else
        var name := OptionalGet(details, "name");
        if !Truthy(name) then Err(MissingName)
        else if !name.Str? then Err(Throw(TypeError, "entity.entityDetails.name.trim is not a function"))
        else
          TrimEmptyIffBlank(name.s);
          if Trim(name.s) == "" then Err(MissingName) else Ok(details)
  }

  /**
   * Update's check: `!entity || !entity.entityDetails ||
   * Object.keys(entity.entityDetails).length === 0`. The name is not looked at.
   */
  function CheckUpdateEntity(entity: Json): (r: Result<Json>)
    ensures r.Err? <==>
              !Truthy(entity) || !Truthy(OptionalGet(entity, "entityDetails"))
              || KeyCount(OptionalGet(entity, "entityDetails")) == 0
    ensures r.Err? ==> r.error == MissingEntity
    ensures r.Ok? ==> r.value == OptionalGet(entity, "entityDetails")
  {
    if !Truthy(entity) then Err(MissingEntity)
    else
      var details := OptionalGet(entity, "entityDetails");
      if !Truthy(details) || KeyCount(details) == 0 then Err(MissingEntity) else Ok(details)
  }

  /** A blank client name stops create but not update. */
  lemma BlankNameOnlyStopsCreate(spaces: string)
    requires Blank(spaces)
    ensures var e := Obj(map["entityDetails" := Obj(map["name" := Str(spaces)])]);
            CheckCreateEntity(e) == Err(MissingName) && CheckUpdateEntity(e).Ok?
  {
  }

  // ---------------------------------------------------------------------------
  // Line items and payments

  /** `{ ...x, [key]: x[key]?.[inner] || fallback }` */
  function WithDefault(x: Json, key: string, inner: string, fallback: Json): (r: Result<Json>)
    ensures r.Err? <==> Nullish(x)
    ensures r.Err? ==> r.error.kind == TypeError
  {
    var outer :- Member(x, key);
    Ok(Obj(SpreadOf(x)[key := Or(OptionalGet(outer, inner), fallback)]))
  }

  /**
   * An element keeps each of its own keys except `key`, whose value becomes
   * its `inner` sub-object when that is truthy and `fallback` otherwise.
   */
  lemma WithDefaultFields(x: Json, key: string, inner: string, fallback: Json)
    requires x.Obj?
    ensures var r := WithDefault(x, key, inner, fallback);
            && r.Ok? && r.value.Obj?
            && r.value.fields.Keys == x.fields.Keys + {key}
            && (forall k :: k in x.fields && k != key ==> r.value.fields[k] == x.fields[k])
            && var sub := OptionalGet(OptionalGet(x, key), inner);
               r.value.fields[key] == if Truthy(sub) then sub else fallback
  {
  }

  /** `xs.map(x => WithDefault(x, ...))`: one result per element, in order. */
  function MapWithDefault(xs: seq<Json>, key: string, inner: string, fallback: Json): (r: Result<seq<Json>>)
    ensures r.Ok? <==> forall i :: 0 <= i < |xs| ==> !Nullish(xs[i])
    ensures r.Err? ==> r.error.kind == TypeError
    ensures r.Ok? ==> |r.value| == |xs|
    ensures r.Ok? ==> forall i :: 0 <= i < |xs| ==> WithDefault(xs[i], key, inner, fallback) == Ok(r.value[i])
  {
    if xs == [] then Ok([])
    else
      var y :- WithDefault(xs[0], key, inner, fallback);
      var ys :- MapWithDefault(xs[1..], key, inner, fallback);
      assert forall i :: 1 <= i < |xs| ==> xs[i] == xs[1..][i - 1];
      Ok([y] + ys)
  }

  /** `(collection[listKey] || []).map(x => WithDefault(x, ...))` */
  function ProcessList(collection: Json, listKey: string, key: string, inner: string, fallback: Json): (r: Result<seq<Json>>)
    ensures r.Err? ==> r.error.kind == TypeError
    ensures var list := Or(OptionalGet(collection, listKey), Arr([]));
            r.Err? <==> Nullish(collection) || !list.Arr? || exists k :: 0 <= k < |list.elems| && Nullish(list.elems[k])
    ensures var list := Or(OptionalGet(collection, listKey), Arr([]));
            r.Ok? ==> && list.Arr? && |r.value| == |list.elems|
                      && forall k :: 0 <= k < |list.elems| ==> WithDefault(list.elems[k], key, inner, fallback) == Ok(r.value[k])
  {
    var v :- Member(collection, listKey);
    var list := Or(v, Arr([]));
    if !list.Arr? then Err(Throw(TypeError, listKey + ".map is not a function"))
    else MapWithDefault(list.elems, key, inner, fallback)
  }

  /** An unset list is an empty list. */
  lemma UnsetListIsEmpty(collection: Object, listKey: string, key: string, inner: string, fallback: Json)
    requires listKey !in collection
    ensures ProcessList(Obj(collection), listKey, key, inner, fallback) == Ok([])
  {
  }

  /** The line items of a request, each with its VAT settled. */
  function Items(p: Params): Result<seq<Json>> {
    ProcessList(Param(p, "itemsList", Obj(map[])), "item", "vat", "vatDetails", DefaultVat)
  }

  /** The payments of a request, each with its payment terms settled. */
  function Payments(p: Params): Result<seq<Json>> {
    ProcessList(Param(p, "paymentsList", Obj(map[])), "payment", "payment_terms", "termsDetails", DefaultTerms)
  }

  /**
   * Items keep their number and order; each keeps its own keys, and its
   * `vat` is its VAT details or, when those are missing, the 22% default.
   */
  lemma ItemsKeepOrderAndGetVat(p: Params, xs: seq<Json>)
    requires "itemsList" in p && p["itemsList"] == Obj(map["item" := Arr(xs)])
    requires forall i :: 0 <= i < |xs| ==> xs[i].Obj?
    ensures Items(p).Ok? && |Items(p).value| == |xs|
    ensures forall i :: 0 <= i < |xs| ==>
              var y := Items(p).value[i];
              var details := OptionalGet(OptionalGet(xs[i], "vat"), "vatDetails");
              && y.Obj? && y.fields.Keys == xs[i].fields.Keys + {"vat"}
              && (forall k :: k in xs[i].fields && k != "vat" ==> y.fields[k] == xs[i].fields[k])
              && y.fields["vat"] == if Truthy(details) then details else DefaultVat
  {
    var r := Items(p);
    forall i | 0 <= i < |xs|
      ensures var y := r.value[i];
              var details := OptionalGet(OptionalGet(xs[i], "vat"), "vatDetails");
              && y.Obj? && y.fields.Keys == xs[i].fields.Keys + {"vat"}
              && (forall k :: k in xs[i].fields && k != "vat" ==> y.fields[k] == xs[i].fields[k])
              && y.fields["vat"] == if Truthy(details) then details else DefaultVat
    {
      WithDefaultFields(xs[i], "vat", "vatDetails", DefaultVat);
    }
  }

  /**
   * Payments keep their number and order; each keeps its own keys, and its
   * `payment_terms` is its terms details or, when those are missing, the
   * standard immediate terms.
   */
  lemma PaymentsKeepOrderAndGetTerms(p: Params, xs: seq<Json>)
    requires "paymentsList" in p && p["paymentsList"] == Obj(map["payment" := Arr(xs)])
    requires forall i :: 0 <= i < |xs| ==> xs[i].Obj?
    ensures Payments(p).Ok? && |Payments(p).value| == |xs|
    ensures forall i :: 0 <= i < |xs| ==>
              var y := Payments(p).value[i];
              var details := OptionalGet(OptionalGet(xs[i], "payment_terms"), "termsDetails");
              && y.Obj? && y.fields.Keys == xs[i].fields.Keys + {"payment_terms"}
              && (forall k :: k in xs[i].fields && k != "payment_terms" ==> y.fields[k] == xs[i].fields[k])
              && y.fields["payment_terms"] == if Truthy(details) then details else DefaultTerms
  {
    var r := Payments(p);
    forall i | 0 <= i < |xs|
      ensures var y := r.value[i];
              var details := OptionalGet(OptionalGet(xs[i], "payment_terms"), "termsDetails");
              && y.Obj? && y.fields.Keys == xs[i].fields.Keys + {"payment_terms"}
              && (forall k :: k in xs[i].fields && k != "payment_terms" ==> y.fields[k] == xs[i].fields[k])
              && y.fields["payment_terms"] == if Truthy(details) then details else DefaultTerms
    {
      WithDefaultFields(xs[i], "payment_terms", "termsDetails", DefaultTerms);
    }
  }

  /** An item with no VAT gets `{id: 0, value: 22, description: ''}`. */
  lemma ItemWithoutVat(item: Object)
    requires "vat" !in item
    ensures WithDefault(Obj(item), "vat", "vatDetails", DefaultVat) == Ok(Obj(item["vat" := DefaultVat]))
  {
  }

  /** A payment with no terms gets `{days: 0, type: 'standard'}`. */
  lemma PaymentWithoutTerms(payment: Object)
    requires "payment_terms" !in payment
    ensures WithDefault(Obj(payment), "payment_terms", "termsDetails", DefaultTerms)
            == Ok(Obj(payment["payment_terms" := DefaultTerms]))
  {
  }

  // ---------------------------------------------------------------------------
  // Dates

  /** `iso.split('T')[0]`: everything before the first 'T'. */
  function DatePart(iso: string): (r: string)
    ensures r <= iso && 'T' !in r
    ensures |r| < |iso| ==> iso[|r|] == 'T'
  {
    if iso == "" || iso[0] == 'T' then "" else [iso[0]] + DatePart(iso[1..])
  }

  /**
   * `date ? new Date(date).toISOString().split('T')[0] : fallback`, where the
   * fallback is today's date on create and `undefined` on update. An invalid
   * date makes `toISOString` throw a RangeError.
   */
  function DocumentDate(date: Json, i: nat, env: Env, creating: bool): (r: Result<Json>)
    ensures !Truthy(date) && creating ==> r == Ok(Str(DatePart(env.now(i))))
    ensures !Truthy(date) && !creating ==> r == Ok(Undefined)
    ensures Truthy(date) ==> (r.Err? <==> env.iso(date).None?)
    ensures Truthy(date) && r.Ok? ==> r == Ok(Str(DatePart(env.iso(date).value)))
    ensures r.Err? ==> r.error.kind == RangeError
  {
    if Truthy(date) then
      match env.iso(date)
      case None => Err(Throw(RangeError, "Invalid time value"))
      case Some(s) => Ok(Str(DatePart(s)))
    else if creating then Ok(Str(DatePart(env.now(i))))
    else Ok(Undefined)
  }

  /** A full ISO timestamp is cut to its calendar date. */
  lemma DatePartOfTimestamp(day: string, time: string)
    requires 'T' !in day
    ensures DatePart(day + "T" + time) == day
  {
    var s := day + "T" + time;
    var r := DatePart(s);
    assert s[|day|] == 'T';
    assert forall k :: 0 <= k < |day| ==> s[k] == day[k];
    assert r == s[..|r|];
    assert s[..|day|] == day;
  }

  // ---------------------------------------------------------------------------
  // Request bodies

  /** The keys the node itself puts in a create body. */
  const CreateKeys: set<string> := {"type"} + UpdateKeys
  /** The keys the node itself puts in an update body. */
  const UpdateKeys: set<string> := {"entity", "date", "number", "subject", "items_list", "payments_list"}

  function AdditionalFields(p: Params): Object {
    SpreadOf(Param(p, "additionalFields", Obj(map[])))
  }

  /** The keys both bodies share, before the additional fields are spread in. */
  function UpdateBase(p: Params, details: Json, items: seq<Json>, payments: seq<Json>, date: Json): (r: Object)
    ensures r.Keys == UpdateKeys
    ensures r["entity"] == details && r["date"] == date
    ensures r["items_list"] == Arr(items) && r["payments_list"] == Arr(payments)
  {
    map["entity" := details,
        "date" := date,
        "number" := Param(p, "number", Undefined),
        "subject" := Param(p, "subject", Str("")),
        "items_list" := Arr(items),
        "payments_list" := Arr(payments)]
  }

  /** The document sent by "create", or what stops it before the call. */
  function CreateDocument(p: Params, i: nat, env: Env): (r: Result<Object>)
  {
    var details :- CheckCreateEntity(Param(p, "entity", Undefined));
    var items :- Items(p);
    var payments :- Payments(p);
    var date :- DocumentDate(Param(p, "date", Undefined), i, env, true);
    Ok(Merge(Merge(map["type" := Param(p, "documentType", Undefined)], UpdateBase(p, details, items, payments, date)),
             AdditionalFields(p)))
  }

  /** The document sent by "update", or what stops it before the call. */
  function UpdateDocument(p: Params, i: nat, env: Env): (r: Result<Object>)
  {
    var details :- CheckUpdateEntity(Param(p, "entity", Undefined));
    var items :- Items(p);
    var payments :- Payments(p);
    var date :- DocumentDate(Param(p, "date", Undefined), i, env, false);
    Ok(Merge(UpdateBase(p, details, items, payments, date), AdditionalFields(p)))
  }

  /**
   * A create body holds the node's seven keys and the additional fields,
   * and every additional field wins over the node's own value.
   */
  lemma CreateDocumentShape(p: Params, i: nat, env: Env)
    requires CreateDocument(p, i, env).Ok?
    ensures var doc := CreateDocument(p, i, env).value;
            && doc.Keys == CreateKeys + AdditionalFields(p).Keys
            && forall k :: k in AdditionalFields(p) ==> doc[k] == AdditionalFields(p)[k]
  {
    CreateDocumentParts(p, i, env);
    MergedBody("type", Param(p, "documentType", Undefined), CreateShared(p, i, env), AdditionalFields(p));
  }

  /**
   * Unless an additional field replaces them, a create body's entity is
   * the form's entity details and its rows are the settled items and
   * payments.
   */
  lemma CreateDocumentOwnValues(p: Params, i: nat, env: Env)
    requires CreateDocument(p, i, env).Ok?
    ensures var doc := CreateDocument(p, i, env).value;
            var extra := AdditionalFields(p);
            && ("entity" !in extra ==> doc["entity"] == OptionalGet(Param(p, "entity", Undefined), "entityDetails"))
            && ("items_list" !in extra ==> doc["items_list"] == Arr(Items(p).value))
            && ("payments_list" !in extra ==> doc["payments_list"] == Arr(Payments(p).value))
  {
    CreateDocumentParts(p, i, env);
    MergedBody("type", Param(p, "documentType", Undefined), CreateShared(p, i, env), AdditionalFields(p));
  }

  /** The key `key` set to `v`, then `shared`, overridden by `extra`. */
  lemma MergedBody(key: string, v: Json, shared: Object, extra: Object)
    ensures var doc := Merge(Merge(map[key := v], shared), extra);
            && doc.Keys == {key} + shared.Keys + extra.Keys
            && (forall k :: k in extra ==> doc[k] == extra[k])
            && (forall k :: k in shared && k !in extra ==> doc[k] == shared[k])
  {
  }

  /** The date of a create body, unless an additional field replaces it: the given date's day, or today's. */
  lemma CreateDocumentDate(p: Params, i: nat, env: Env)
    requires CreateDocument(p, i, env).Ok? && "date" !in AdditionalFields(p)
    ensures CreateDocument(p, i, env).value["date"] == DocumentDate(Param(p, "date", Undefined), i, env, true).value
    ensures !Truthy(Param(p, "date", Undefined)) ==> CreateDocument(p, i, env).value["date"] == Str(DatePart(env.now(i)))
  {
    CreateDocumentParts(p, i, env);
  }

  /** The node's own keys of a create body other than `type`. */
  function CreateShared(p: Params, i: nat, env: Env): (r: Object)
    requires CreateDocument(p, i, env).Ok?
    ensures r.Keys == UpdateKeys
  {
    UpdateBase(p, CheckCreateEntity(Param(p, "entity", Undefined)).value, Items(p).value, Payments(p).value,
               DocumentDate(Param(p, "date", Undefined), i, env, true).value)
  }

  lemma CreateDocumentParts(p: Params, i: nat, env: Env)
    requires CreateDocument(p, i, env).Ok?
    ensures CheckCreateEntity(Param(p, "entity", Undefined)).Ok? && Items(p).Ok? && Payments(p).Ok?
    ensures DocumentDate(Param(p, "date", Undefined), i, env, true).Ok?
    ensures CreateDocument(p, i, env).value ==
              Merge(Merge(map["type" := Param(p, "documentType", Undefined)], CreateShared(p, i, env)), AdditionalFields(p))
  {
    var details := CheckCreateEntity(Param(p, "entity", Undefined));
    var items, payments := Items(p), Payments(p);
    var date := DocumentDate(Param(p, "date", Undefined), i, env, true);
    assert details.Ok? && items.Ok? && payments.Ok? && date.Ok?;
    var shared := UpdateBase(p, details.value, items.value, payments.value, date.value);
    assert CreateDocument(p, i, env) == Ok(Merge(Merge(map["type" := Param(p, "documentType", Undefined)], shared), AdditionalFields(p)));
  }

  /**
   * An update body holds the node's six keys (no `type`) and the additional
   * fields, which win; an unset date stays `undefined` instead of today.
   */
  lemma UpdateDocumentShape(p: Params, i: nat, env: Env)
    requires UpdateDocument(p, i, env).Ok?
    ensures var doc := UpdateDocument(p, i, env).value;
            var extra := AdditionalFields(p);
            && doc.Keys == UpdateKeys + extra.Keys
            && (forall k :: k in extra ==> doc[k] == extra[k])
            && ("entity" !in extra ==> doc["entity"] == OptionalGet(Param(p, "entity", Undefined), "entityDetails"))
            && ("date" !in extra && !Truthy(Param(p, "date", Undefined)) ==> doc["date"] == Undefined)
  {
    UpdateDocumentParts(p, i, env);
  }

  /** The node's own keys of an update body. */
  function UpdateShared(p: Params, i: nat, env: Env): (r: Object)
    requires UpdateDocument(p, i, env).Ok?
    ensures r.Keys == UpdateKeys
  {
    UpdateBase(p, CheckUpdateEntity(Param(p, "entity", Undefined)).value, Items(p).value, Payments(p).value,
               DocumentDate(Param(p, "date", Undefined), i, env, false).value)
  }

  lemma UpdateDocumentParts(p: Params, i: nat, env: Env)
    requires UpdateDocument(p, i, env).Ok?
    ensures CheckUpdateEntity(Param(p, "entity", Undefined)).Ok? && Items(p).Ok? && Payments(p).Ok?
    ensures DocumentDate(Param(p, "date", Undefined), i, env, false).Ok?
    ensures UpdateDocument(p, i, env).value == Merge(UpdateShared(p, i, env), AdditionalFields(p))
  {
    var details := CheckUpdateEntity(Param(p, "entity", Undefined));
    var items, payments := Items(p), Payments(p);
    var date := DocumentDate(Param(p, "date", Undefined), i, env, false);
    assert details.Ok? && items.Ok? && payments.Ok? && date.Ok?;
    var shared := UpdateBase(p, details.value, items.value, payments.value, date.value);
    assert UpdateDocument(p, i, env) == Ok(Merge(shared, AdditionalFields(p)));
  }

  /** Create refuses a missing or blank client name, and only then with that error. */
  lemma CreateRefusesMissingName(p: Params, i: nat, env: Env)
    ensures CreateDocument(p, i, env) == Err(MissingName) <==> EntityNameMissing(Param(p, "entity", Undefined))
  {
    var entity := Param(p, "entity", Undefined);
    if !EntityNameMissing(entity) && CheckCreateEntity(entity).Ok? {
      var r := CreateDocument(p, i, env);
      assert r.Err? ==> r.error.kind != NodeOperationError;
    }
  }

  /**
   * An entity named "Acme", with no items, payments or date given, passes
   * the check; the body keeps the entity as it was given, no rows, and
   * today's date, unless additional fields replace them.
   */
  lemma AcmeIsAccepted(p: Params, i: nat, env: Env)
    requires "entity" in p && p["entity"] == Obj(map["entityDetails" := Obj(map["name" := Str("Acme")])])
    requires "itemsList" !in p && "paymentsList" !in p && "date" !in p
    ensures CreateDocument(p, i, env).Ok?
    ensures var doc := CreateDocument(p, i, env).value;
            "entity" !in AdditionalFields(p) ==> "entity" in doc && OptionalGet(doc["entity"], "name") == Str("Acme")
    ensures var doc := CreateDocument(p, i, env).value;
            "items_list" !in AdditionalFields(p) ==> "items_list" in doc && doc["items_list"] == Arr([])
    ensures var doc := CreateDocument(p, i, env).value;
            "date" !in AdditionalFields(p) ==> "date" in doc && doc["date"] == Str(DatePart(env.now(i)))
  {
    AcmePasses();
    assert Items(p) == Ok([]) && Payments(p) == Ok([]);
    assert CreateDocument(p, i, env).Ok?;
    CreateDocumentShape(p, i, env);
    CreateDocumentOwnValues(p, i, env);
    if "date" !in AdditionalFields(p) {
      CreateDocumentDate(p, i, env);
    }
  }

  lemma AcmePasses()
    ensures CheckCreateEntity(Obj(map["entityDetails" := Obj(map["name" := Str("Acme")])]))
            == Ok(Obj(map["name" := Str("Acme")]))
  {
    assert "Acme"[0] == 'A' && !IsSpace('A');
    assert !Blank("Acme");
  }


  // ---------------------------------------------------------------------------
  // The module's execute

  /**
   * `IssuedDocumentsModule.execute(context, operation, i)`: resolve the
   * token, then run the operation. Only create and update can fail before
   * the SDK is called.
   */
  function Execute(op: string, p: Params, i: nat, creds: Object, env: Env): (r: Outcome)
    ensures r.request.Some? ==> Credentials.ResolveToken(creds).Some?
                                && r.request.value.token == Credentials.ResolveToken(creds).value
  {
    match Credentials.ResolveToken(creds)
    case None => Outcome(Err(Throw(NodeOperationError, Credentials.MissingTokenMessage)), None)
    case Some(token) =>
      var companyId := Param(p, "companyId", Undefined);
      var documentId := Param(p, "documentId", Undefined);
      if op == "create" then
        match CreateDocument(p, i, env)
        case Err(e) => Outcome(Err(e), None)
        case Ok(doc) => Call(i, Request(token, CreateIssuedDocument(companyId, doc)), ReturnBody, env)
      else if op == "get" then
        Call(i, Request(token, GetIssuedDocument(companyId, documentId)), ReturnBody, env)
      else if op == "getAll" then
        Call(i, Request(token, ListIssuedDocuments(companyId, "invoice")),
             ReturnList(Param(p, "returnAll", Bool(false)), Param(p, "limit", Num(50.0))), env)
      else if op == "update" then
        match UpdateDocument(p, i, env)
        case Err(e) => Outcome(Err(e), None)
        case Ok(doc) => Call(i, Request(token, ModifyIssuedDocument(companyId, documentId, doc)), ReturnBody, env)
      else if op == "delete" then
        Call(i, Request(token, DeleteIssuedDocument(companyId, documentId)), ReturnDeleted(documentId), env)
      else
        Outcome(Err(Throw(PlainError, "Unknown operation: " + op)), None)
  }

  /**
   * Create sends the create body for the company, update sends the update
   * body for `documentId`; a body that cannot be built stops the operation
   * with its error before any request.
   */
  lemma CreateAndUpdateSendDocuments(p: Params, i: nat, creds: Object, env: Env)
    requires Credentials.ResolveToken(creds).Some?
    ensures var token := Credentials.ResolveToken(creds).value;
            var companyId := Param(p, "companyId", Undefined);
            var created := CreateDocument(p, i, env);
            && (created.Ok? ==>
                  Execute("create", p, i, creds, env).request == Some(Request(token, CreateIssuedDocument(companyId, created.value))))
            && (created.Err? ==> Execute("create", p, i, creds, env) == Outcome(Err(created.error), None))
    ensures var token := Credentials.ResolveToken(creds).value;
            var companyId := Param(p, "companyId", Undefined);
            var updated := UpdateDocument(p, i, env);
            && (updated.Ok? ==>
                  Execute("update", p, i, creds, env).request
                  == Some(Request(token, ModifyIssuedDocument(companyId, Param(p, "documentId", Undefined), updated.value))))
            && (updated.Err? ==> Execute("update", p, i, creds, env) == Outcome(Err(updated.error), None))
  {
  }

  /** A refused entity stops create before any request is made. */
  lemma RefusedEntityMakesNoRequest(p: Params, i: nat, creds: Object, env: Env)
    requires Credentials.ResolveToken(creds).Some?
    requires EntityNameMissing(Param(p, "entity", Undefined))
    ensures Execute("create", p, i, creds, env) == Outcome(Err(MissingName), None)
  {
    CreateRefusesMissingName(p, i, env);
  }

  /**
   * "Get Many" always lists invoices, whatever document types exist, and
   * returns at most `limit` of them (50 unless set) unless "Return All" is set.
   */
  lemma GetAllListsInvoices(p: Params, i: nat, creds: Object, env: Env)
    requires Credentials.ResolveToken(creds).Some?
    ensures var r := Execute("getAll", p, i, creds, env);
            && r.request == Some(Request(Credentials.ResolveToken(creds).value,
                                         ListIssuedDocuments(Param(p, "companyId", Undefined), "invoice")))
            && (r.result.Ok? ==>
                  && env.api(i, r.request.value).Response?
                  && var list := Listing.ListBody(env.api(i, r.request.value).body).value;
                     r.result.value == Listing.Truncate(list, Param(p, "returnAll", Bool(false)),
                                                        Param(p, "limit", Num(50.0))))
  {
  }

  /** A delete that the API accepts yields `{success: true, deleted: documentId}`. */
  lemma DeleteReportsId(p: Params, i: nat, creds: Object, env: Env)
    requires Credentials.ResolveToken(creds).Some?
    requires Execute("delete", p, i, creds, env).request.Some?
    requires env.api(i, Execute("delete", p, i, creds, env).request.value).Response?
    ensures Execute("delete", p, i, creds, env).result == Ok(DeleteResult(Param(p, "documentId", Undefined)))
  {
  }

  /** Any other operation throws "Unknown operation" without a request. */
  lemma UnknownOperationThrows(op: string, p: Params, i: nat, creds: Object, env: Env)
    requires op !in {"create", "get", "getAll", "update", "delete"}
    requires Credentials.ResolveToken(creds).Some?
    ensures Execute(op, p, i, creds, env) == Outcome(Err(Throw(PlainError, "Unknown operation: " + op)), None)
  {
  }
}
