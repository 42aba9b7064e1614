/** The stateful part of fame/model.py: a record type's Metamodel, built
    from its schema routine on first access and never again, and the entities
    that resolve names against it, memoizing derived fields in their data
    store and strictly read values on themselves. */
module Engine {
  import opened Values
  import opened Matchers
  import opened Schema

  class Metamodel {
    /** `pending_initialization`: the schema routine, until the build runs it. */
    var pending: Option<seq<FieldDecl>>
    var typeName: string
    var fields: seq<Field>
    var derivedFields: map<string, DerivedField>
    var constraints: seq<Constraint>
    /** How many times the schema routine has run. */
    ghost var builds: nat

    /** The routine runs once: not at all while pending, once when built. */
    ghost predicate Valid()
      reads this
    {
      && builds == (if pending.Some? then 0 else 1)
      && UniqueNames(fields)
    }

    predicate Built()
      reads this
    {
      pending.None?
    }

    /** `Metamodel.__init__`, run by the `@schema` decoration: the routine is
        captured, not run, and there are no constraints yet. */
    constructor (schema: seq<FieldDecl>)
      ensures Valid() && !Built() && builds == 0
      ensures pending == Some(schema) && constraints == [] && fields == []
    {
      pending := Some(schema);
      typeName := "";
      fields := [];
      derivedFields := map[];
      constraints := [];
      builds := 0;
    }

    /** `Constraint.__call__`: the constraint joins the end of the list. */
    method AddConstraint(c: Constraint)
      modifies this`constraints
      ensures constraints == old(constraints) + [c]
    {
      constraints := constraints + [c];
    }

    /** `field`: registers a field under its name, replacing an earlier one. */
    method AddField(d: FieldDecl)
      requires Valid()
      modifies this`fields
      ensures Valid() && fields == Register(old(fields), d)
    {
      fields := Register(fields, d);
    }

    /** `finish_initialization`: run the schema routine on an empty field
        table, collect the record type's derived fields and discard the
        routine. */
    method FinishInitialization(model: RecordType)
      requires Valid() && !Built()
      modifies this
      ensures Valid() && Built() && builds == 1
      ensures typeName == model.name && derivedFields == model.derived
      ensures fields == Registered(old(pending).value)
      ensures constraints == old(constraints)
    {
      typeName := model.name;
      fields := [];
      var schema := pending.value;
      for i := 0 to |schema|
        invariant fields == Registered(schema[..i])
        invariant Valid() && pending == old(pending) && builds == old(builds)
        invariant typeName == model.name && constraints == old(constraints)
      {
        AddField(schema[i]);
        assert schema[..i + 1][..i] == schema[..i];
      }
      assert schema[..|schema|] == schema;
      derivedFields := model.derived;
      pending := None;
      builds := builds + 1;
    }

    /** `__get__`: the first access to the metamodel builds it; every later
        access finds it built and changes nothing. */
    method Access(model: RecordType)
      requires Valid()
      modifies this
      ensures Valid() && Built() && builds == 1
      ensures old(Built()) ==> unchanged(this)
      ensures !old(Built()) ==>
                typeName == model.name && derivedFields == model.derived &&
                fields == Registered(old(pending).value)
      ensures constraints == old(constraints)
    {
      if pending.Some? {
        FinishInitialization(model);
      }
    }

    /** `get_field_value`: a declared field first, then a derived field;
        otherwise strict access fails and lenient access reads the raw entry.
        Only a derived field's first read changes the entity. */
    method GetFieldValue(e: Entity, name: string, strict: bool) returns (r: Result<Value>)
      requires Built() && e.Valid()
      modifies e`data, e`computed
      ensures e.Valid()
      ensures (r, e.data) == Resolve(fields, derivedFields, old(e.data), name, strict)
      ensures e.data.Keys == old(e.data.Keys) ==> e.computed == old(e.computed)
      ensures FindField(fields, name).None? && name in derivedFields &&
              derivedFields[name].name !in old(e.data) ==>
                e.computed == old(e.computed) + [derivedFields[name].name]
    {
      var found := FindField(fields, name);
      if found.Some? {
        return Ok(FieldValue(found.value, e.data));
      }
      if name in derivedFields {
        var v := GetDerivedValue(derivedFields[name], e);
        return Ok(v);
      }
      if strict {
        return Err(UnknownField(name));
      }
      return Ok(Get(e.data, name));
    }

    /** `error_messages_prefix`: reads `entity.name` strictly, which caches
        it on the entity, when the type declares a `name` field. */
    method MessagePrefix(e: Entity) returns (p: string)
      requires Valid() && Built() && e.Valid() && e.meta == this
      modifies this, e
      ensures unchanged(this) && e.Valid()
      ensures e.data == old(e.data) && e.computed == old(e.computed)
      ensures p == Prefix(typeName, fields, old(e.attrs), e.data, e.address)
      ensures e.attrs == PrefixCache(fields, old(e.attrs), e.data)
    {
      if FindField(fields, "name").Some? {
        var r := e.Attr("name");
        p := typeName + " '" + ToStr(if r.Ok? then r.value else Null) + "'";
      } else {
        p := typeName + " at " + e.address;
      }
    }

    /** `error_messages`: one message per field whose value fails its
        matcher, then one per violated constraint, in order. The prefix is
        computed when a message is emitted. */
    method ErrorMessages(e: Entity) returns (msgs: seq<string>)
      requires Valid() && Built() && e.Valid() && e.meta == this
      modifies this, e
      ensures unchanged(this) && e.Valid()
      ensures e.data == old(e.data) && e.computed == old(e.computed)
      ensures msgs == Messages(Prefix(typeName, fields, old(e.attrs), e.data, e.address),
                               fields, constraints, e.data)
      ensures e.attrs == if msgs == [] then old(e.attrs) else PrefixCache(fields, old(e.attrs), e.data)
    {
      ghost var attrs0 := e.attrs;
      ghost var prefix0 := Prefix(typeName, fields, attrs0, e.data, e.address);
      PrefixStable(typeName, fields, attrs0, e.data, e.address);
      msgs := [];
      for i := 0 to |fields|
        invariant unchanged(this) && e.Valid()
        invariant e.data == old(e.data) && e.computed == old(e.computed)
        invariant msgs == FieldMessages(prefix0, fields[..i], e.data)
        invariant e.attrs == if msgs == [] then attrs0 else PrefixCache(fields, attrs0, e.data)
      {
        var f := fields[i];
        var value := FieldValue(f, e.data);
        if !Matches(f.matcher, value) {
          var prefix := MessagePrefix(e);
          msgs := msgs + [FieldMessage(prefix, f, value)];
        }
        assert fields[..i + 1][..i] == fields[..i];
      }
      assert fields[..|fields|] == fields;
      ghost var fieldMsgs := msgs;
      for j := 0 to |constraints|
        invariant unchanged(this) && e.Valid()
        invariant e.data == old(e.data) && e.computed == old(e.computed)
        invariant msgs == fieldMsgs + ConstraintMessages(prefix0, constraints[..j], e.data)
        invariant e.attrs == if msgs == [] then attrs0 else PrefixCache(fields, attrs0, e.data)
      {
        var message := ErrorMessage(constraints[j], e.data);
        if message.Some? && message.value != "" {
          var prefix := MessagePrefix(e);
          msgs := msgs + [prefix + " " + message.value];
        }
        assert constraints[..j + 1][..j] == constraints[..j];
      }
      assert constraints[..|constraints|] == constraints;
    }

    /** `Model.options_for`, a class method: reaching the metamodel builds it. */
    method OptionsFor(model: RecordType, name: string) returns (r: Result<seq<string>>)
      requires Valid()
      modifies this
      ensures Valid() && Built() && (old(Built()) ==> unchanged(this))
      ensures !old(Built()) ==> BuiltFrom(this, old(pending), model)
      ensures constraints == old(constraints)
      ensures r == OptionsOf(fields, name)
    {
      Access(model);
      r := OptionsOf(fields, name);
    }
  }

  /** The metamodel holds what a build from `pending` for `model` produces:
      the fields the schema routine registers, the record type's derived
      fields and its name. */
  ghost predicate BuiltFrom(meta: Metamodel, pending: Option<seq<FieldDecl>>, model: RecordType)
    reads meta
  {
    && pending.Some?
    && meta.fields == Registered(pending.value)
    && meta.derivedFields == model.derived
    && meta.typeName == model.name
  }

  /** `DerivedField.get_value`: the initializer runs, and its result is
      stored, only when the name is not yet a key of the entity's data. */
  method GetDerivedValue(d: DerivedField, e: Entity) returns (v: Value)
    requires e.Valid()
    modifies e`data, e`computed
    ensures e.Valid()
    ensures e.data == Memoize(d, old(e.data)) && v == e.data[d.name]
    ensures e.computed == if d.name in old(e.data) then old(e.computed) else old(e.computed) + [d.name]
  {
    if d.name !in e.data {
      var value := d.initializer(e.data);
      e.data := e.data[d.name := value];
      e.computed := e.computed + [d.name];
    }
    v := e.data[d.name];
  }

  /** An instance of a record type (`Model`): its own data store, and the
      values strict access has cached on it. */
  class Entity {
    const meta: Metamodel
    const model: RecordType
    /** Stands for `hex(id(entity))`. */
    const address: string
    var data: Data
    var attrs: map<string, Value>
    /** The derived fields whose initializer has run for this entity, in order. */
    ghost var computed: seq<string>

    /** Every initializer logged in `computed` left its value in the store,
        and none is logged twice, so none ran twice on this store. The log
        belongs to the store: a client that replaces `data` starts a new log
        (it must, to keep `Valid`), and an initializer whose value the new
        store lacks then runs again, as `DerivedField.get_value` does. */
    ghost predicate Valid()
      reads this
    {
      && (forall k :: 0 <= k < |computed| ==> computed[k] in data)
      && (forall i, j :: 0 <= i < j < |computed| ==> computed[i] != computed[j])
    }

    /** `Model.__init__(**data)`: any data is accepted. */
    constructor (meta: Metamodel, model: RecordType, address: string, data: Data)
      ensures Valid()
      ensures this.meta == meta && this.model == model && this.address == address
      ensures this.data == data && attrs == map[] && computed == []
    {
      this.meta := meta;
      this.model := model;
      this.address := address;
      this.data := data;
      attrs := map[];
      computed := [];
    }

    /** Strict access, `entity.<name>`: a value cached by an earlier strict
        read is returned as it is, whatever the data store holds now;
        otherwise the name is resolved strictly and a value found is cached. */
    method Attr(name: string) returns (r: Result<Value>)
      requires Valid() && meta.Valid()
      modifies this, meta
      ensures Valid() && meta.Valid() && meta.constraints == old(meta.constraints)
      ensures name in old(attrs) ==> r == Ok(old(attrs)[name]) && unchanged(this) && unchanged(meta)
      ensures name !in old(attrs) ==>
                meta.Built() && (old(meta.Built()) ==> unchanged(meta)) &&
                (!old(meta.Built()) ==> BuiltFrom(meta, old(meta.pending), model)) &&
                (r, data) == Resolve(meta.fields, meta.derivedFields, old(data), name, true) &&
                attrs == (if r.Ok? then old(attrs)[name := r.value] else old(attrs))
      ensures data.Keys == old(data.Keys) ==> computed == old(computed)
      ensures name !in old(attrs) && FindField(meta.fields, name).None? && name in meta.derivedFields &&
              meta.derivedFields[name].name !in old(data) ==>
                computed == old(computed) + [meta.derivedFields[name].name]
    {
      if name in attrs {
        return Ok(attrs[name]);
      }
      meta.Access(model);
      r := meta.GetFieldValue(this, name, true);
      if r.Ok? {
        attrs := attrs[name := r.value];
      }
    }

    /** Lenient access, `entity[name]`: never fails, caches nothing. */
    method Item(name: string) returns (v: Value)
      requires Valid() && meta.Valid()
      modifies this`data, this`computed, meta
      ensures Valid() && meta.Valid() && meta.Built() && meta.constraints == old(meta.constraints)
      ensures old(meta.Built()) ==> unchanged(meta)
      ensures !old(meta.Built()) ==> BuiltFrom(meta, old(meta.pending), model)
      ensures (Ok(v), data) == Resolve(meta.fields, meta.derivedFields, old(data), name, false)
      ensures data.Keys == old(data.Keys) ==> computed == old(computed)
      ensures FindField(meta.fields, name).None? && name in meta.derivedFields &&
              meta.derivedFields[name].name !in old(data) ==>
                computed == old(computed) + [meta.derivedFields[name].name]
    {
      meta.Access(model);
      var r := meta.GetFieldValue(this, name, false);
      v := if r.Ok? then r.value else Null;
    }

    /** `Model.error_messages`: delegates to the metamodel, built first. */
    method ErrorMessages() returns (msgs: seq<string>)
      requires Valid() && meta.Valid()
      modifies this, meta
      ensures Valid() && meta.Valid() && meta.Built()
      ensures old(meta.Built()) ==> unchanged(meta)
      ensures !old(meta.Built()) ==> BuiltFrom(meta, old(meta.pending), model)
      ensures meta.constraints == old(meta.constraints)
      ensures data == old(data) && computed == old(computed)
      ensures msgs == Messages(Prefix(meta.typeName, meta.fields, old(attrs), data, address),
                               meta.fields, meta.constraints, data)
      ensures attrs == if msgs == [] then old(attrs) else PrefixCache(meta.fields, old(attrs), data)
    {
      meta.Access(model);
      msgs := meta.ErrorMessages(this);
    }

    /** `Model.is_valid`: true exactly when there is no violation message,
        that is, when every declared field matches after default substitution
        and no constraint is violated. */
    method IsValid() returns (b: bool)
      requires Valid() && meta.Valid()
      modifies this, meta
      ensures Valid() && meta.Valid() && meta.Built() && data == old(data)
      ensures old(meta.Built()) ==> unchanged(meta)
      ensures !old(meta.Built()) ==> BuiltFrom(meta, old(meta.pending), model)
      ensures meta.constraints == old(meta.constraints)
      ensures computed == old(computed)
      ensures attrs == if b then old(attrs) else PrefixCache(meta.fields, old(attrs), data)
      ensures b <==>
                (forall k :: 0 <= k < |meta.fields| ==> FieldOk(meta.fields[k], data)) &&
                (forall k :: 0 <= k < |meta.constraints| ==> !Violated(meta.constraints[k], data))
    {
      var msgs := ErrorMessages();
      NoMessages(Prefix(meta.typeName, meta.fields, old(attrs), data, address),
                 meta.fields, meta.constraints, data);
      b := |msgs| == 0;
    }
  }
}
