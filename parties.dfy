/**
 * The request body shared by the client and supplier modules (and the
 * legacy node's client branch): the name field with the additional fields
 * spread over it.
 */
module Parties {
  import opened Js

  /** `{ name: name, ...additionalFields }` */
  function NamedPayload(name: Json, additionalFields: Json): Object {
    Merge(map["name" := name], SpreadOf(additionalFields))
  }

  /**
   * The body holds `name` and every additional field; an additional field
   * called `name` replaces the form's name, every other key is the form's.
   */
  lemma AdditionalFieldsWin(name: Json, extra: Object)
    ensures var body := NamedPayload(name, Obj(extra));
            && body.Keys == {"name"} + extra.Keys
            && (forall k :: k in extra ==> body[k] == extra[k])
            && ("name" !in extra ==> body["name"] == name)
  {
  }

  /**
   * Additional fields left at their default `{}`, unset, or not an object
   * leave the body `{name}`.
   */
  lemma NoAdditionalFields(name: Json, extra: Json)
    requires !extra.Obj? || extra == Obj(map[])
    ensures NamedPayload(name, extra) == map["name" := name]
  {
  }
}
