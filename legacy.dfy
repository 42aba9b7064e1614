/** The earlier revision of the engine (model.py). Its metamodel build,
    name resolution, derived fields, constraints and matchers are those of
    fame/model.py and fame/matchers.py and share their model; what differs is
    field validation: `Field.match` substitutes the default itself, the check
    reads the raw stored value, a message reports that raw value, and the
    prefix is computed before anything is checked. */
module Legacy {
  import opened Values
  import opened Matchers
  import opened Schema
  import opened Engine

  /** `Field.match`: a None value is replaced by the default before the
      matcher is applied, so a stored None with a matching default is valid. */
  predicate FieldMatch(f: Field, value: Value)
    ensures value.Null? ==> (FieldMatch(f, value) <==> Matches(f.matcher, f.default))
    ensures !value.Null? ==> (FieldMatch(f, value) <==> Matches(f.matcher, value))
  {
    Matches(f.matcher, if value.Null? then f.default else value)
  }

  /** Checking the raw stored value with `Field.match` accepts exactly the
      fields the later revision accepts after `Field.get_value`. */
  lemma FieldMatchAgrees(f: Field, data: Data)
    ensures FieldMatch(f, Get(data, f.name)) <==> FieldOk(f, data)
  {
  }

  /** The message for each field whose raw value fails `Field.match`; the
      message reports the raw value. */
  function FieldMessages(prefix: string, fields: seq<Field>, data: Data): seq<string>
  {
    if |fields| == 0 then []
    else
      var f := fields[|fields| - 1];
      var value := Get(data, f.name);
      FieldMessages(prefix, fields[..|fields| - 1], data)
        + (if FieldMatch(f, value) then [] else [FieldMessage(prefix, f, value)])
  }

  function Messages(prefix: string, fields: seq<Field>, constraints: seq<Constraint>, data: Data): seq<string>
  {
    FieldMessages(prefix, fields, data) + ConstraintMessages(prefix, constraints, data)
  }

  /** Both revisions report the same number of field violations, and the same
      messages when no field has a default other than None; otherwise only the
      value after `got` can differ (None here, the default there). */
  lemma {:induction false} FieldMessagesAgree(prefix: string, fields: seq<Field>, data: Data)
    ensures |FieldMessages(prefix, fields, data)| == |Schema.FieldMessages(prefix, fields, data)|
    ensures (forall k :: 0 <= k < |fields| ==> fields[k].default.Null?) ==>
              FieldMessages(prefix, fields, data) == Schema.FieldMessages(prefix, fields, data)
  {
    if |fields| > 0 {
      var init := fields[..|fields| - 1];
      assert forall k :: 0 <= k < |init| ==> init[k] == fields[k];
      FieldMessagesAgree(prefix, init, data);
      FieldMatchAgrees(fields[|fields| - 1], data);
    }
  }

  /** The two revisions agree on validity. */
  lemma SameValidity(prefix: string, fields: seq<Field>, constraints: seq<Constraint>, data: Data)
    ensures Messages(prefix, fields, constraints, data) == [] <==>
              Schema.Messages(prefix, fields, constraints, data) == []
    ensures |Messages(prefix, fields, constraints, data)| == |Schema.Messages(prefix, fields, constraints, data)|
  {
    FieldMessagesAgree(prefix, fields, data);
  }

  /** `Metamodel.error_messages` of this revision: the prefix is computed
      first, so `entity.name` is read and cached even for a valid entity;
      then fields are checked against their raw values, then constraints. */
  method ErrorMessages(meta: Metamodel, e: Entity) returns (msgs: seq<string>)
    requires meta.Valid() && meta.Built() && e.Valid() && e.meta == meta
    modifies meta, e
    ensures unchanged(meta) && e.Valid()
    ensures e.data == old(e.data) && e.computed == old(e.computed)
    ensures msgs == Messages(Prefix(meta.typeName, meta.fields, old(e.attrs), e.data, e.address),
                             meta.fields, meta.constraints, e.data)
    ensures e.attrs == PrefixCache(meta.fields, old(e.attrs), e.data)
  {
    var prefix := meta.MessagePrefix(e);
    var fields, constraints := meta.fields, meta.constraints;
    msgs := [];
    for i := 0 to |fields|
      invariant msgs == FieldMessages(prefix, fields[..i], e.data)
    {
      var f := fields[i];
      var value := Get(e.data, f.name);
      if !FieldMatch(f, value) {
        msgs := msgs + [FieldMessage(prefix, f, value)];
      }
      assert fields[..i + 1][..i] == fields[..i];
    }
    assert fields[..|fields|] == fields;
    ghost var fieldMsgs := msgs;
    for j := 0 to |constraints|
      invariant msgs == fieldMsgs + ConstraintMessages(prefix, constraints[..j], e.data)
    {
      var message := ErrorMessage(constraints[j], e.data);
      if message.Some? && message.value != "" {
        msgs := msgs + [prefix + " " + message.value];
      }
      assert constraints[..j + 1][..j] == constraints[..j];
    }
    assert constraints[..|constraints|] == constraints;
  }

  /** `Model.is_valid` of this revision, reached from an entity: the
      metamodel is built on first access; the entity is valid exactly when
      every declared field's raw value passes `Field.match` and no
      constraint is violated, which is exactly when the later revision
      finds it valid. */
  method IsValid(e: Entity) returns (b: bool)
    requires e.Valid() && e.meta.Valid()
    modifies e, e.meta
    ensures e.Valid() && e.meta.Valid() && e.meta.Built() && e.data == old(e.data)
    ensures old(e.meta.Built()) ==> unchanged(e.meta)
    ensures !old(e.meta.Built()) ==> BuiltFrom(e.meta, old(e.meta.pending), e.model)
    ensures e.meta.constraints == old(e.meta.constraints)
    ensures e.attrs == PrefixCache(e.meta.fields, old(e.attrs), e.data) && e.computed == old(e.computed)
    ensures b <==>
              (forall k :: 0 <= k < |e.meta.fields| ==>
                 FieldMatch(e.meta.fields[k], Get(e.data, e.meta.fields[k].name))) &&
              (forall k :: 0 <= k < |e.meta.constraints| ==> !Violated(e.meta.constraints[k], e.data))
    ensures b <==>
              (forall k :: 0 <= k < |e.meta.fields| ==> FieldOk(e.meta.fields[k], e.data)) &&
              (forall k :: 0 <= k < |e.meta.constraints| ==> !Violated(e.meta.constraints[k], e.data))
  {
    var meta := e.meta;
    meta.Access(e.model);
    ghost var prefix := Prefix(meta.typeName, meta.fields, e.attrs, e.data, e.address);
    var msgs := ErrorMessages(meta, e);
    SameValidity(prefix, meta.fields, meta.constraints, e.data);
    NoMessages(prefix, meta.fields, meta.constraints, e.data);
    forall k | 0 <= k < |meta.fields|
      ensures FieldMatch(meta.fields[k], Get(e.data, meta.fields[k].name)) <==> FieldOk(meta.fields[k], e.data)
    {
      FieldMatchAgrees(meta.fields[k], e.data);
    }
    b := |msgs| == 0;
  }
}
