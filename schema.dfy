/** The schema vocabulary of fame/model.py as values, and the pure rules the
    engine follows: default substitution, field registration, name
    resolution with derived-field memoization, constraint messages and the
    list of violation messages. */
module Schema {
  import opened Values
  import opened Matchers

  datatype Error =
    | UnknownField(name: string)       // AttributeError from strict access
    | NoSuchField(name: string)        // KeyError from `options_for`
    | NotAnOptionsField(name: string)  // AttributeError: the matcher has no `options`

  datatype Result<T> = Ok(value: T) | Err(error: Error)

  /** A declared field: its name, its matcher and its default. */
  datatype Field = Field(name: string, matcher: Matcher, default: Value)

  /** One `m.field(name, type_or_matcher, default=...)` call of a schema routine. */
  datatype FieldDecl = FieldDecl(name: string, typeDecl: TypeDecl, default: Value)

  /** A derived field: its name and the routine that computes its value. */
  datatype DerivedField = DerivedField(name: string, initializer: Data -> Value)

  /** A constraint: its message template and its predicate, which returns
      None when the constraint holds. */
  datatype Constraint = Constraint(message: string, check: Data -> Value)

  /** What the engine reads from a record type's class: its name and the
      derived fields among its members, keyed by member name. */
  datatype RecordType = RecordType(name: string, derived: map<string, DerivedField>)

  /** `Field(name, type_declaration, default)`. */
  function MakeField(d: FieldDecl): Field
  {
    Field(d.name, AsMatcher(d.typeDecl), d.default)
  }

  // ---------------------------------------------------------------------
  // Field.get_value

  /** `Field.get_value`: the stored value, or the default when the name is
      absent or maps to None. The result is None exactly when both are. */
  function FieldValue(f: Field, data: Data): (v: Value)
    ensures v.Null? <==> Get(data, f.name).Null? && f.default.Null?
  {
    var stored := Get(data, f.name);
    if stored.Null? then f.default else stored
  }

  /** Default substitution applies to an absent name and to a stored None
      alike; any other stored value, falsy ones included, comes back as it is;
      and storing the resolved value back changes nothing. */
  lemma DefaultSubstitution(f: Field, data: Data)
    ensures f.name !in data ==> FieldValue(f, data) == f.default
    ensures f.name in data && data[f.name].Null? ==> FieldValue(f, data) == f.default
    ensures f.name in data && !data[f.name].Null? ==> FieldValue(f, data) == data[f.name]
    ensures FieldValue(f, data[f.name := FieldValue(f, data)]) == FieldValue(f, data)
  {
  }

  // ---------------------------------------------------------------------
  // The `fields` dictionary of a metamodel

  /** The position of the field called `name`, if any. */
  function IndexOf(fields: seq<Field>, name: string): (r: Option<nat>)
    ensures r.Some? ==> r.value < |fields| && fields[r.value].name == name
    ensures r.Some? ==> forall k :: 0 <= k < r.value ==> fields[k].name != name
    ensures r.None? ==> forall k :: 0 <= k < |fields| ==> fields[k].name != name
  {
    if |fields| == 0 then None
    else if fields[0].name == name then Some(0)
    else match IndexOf(fields[1..], name)
      case None => None
      case Some(i) => Some(i + 1)
  }

  /** `fields[name]`, or nothing when no such field is declared. */
  function FindField(fields: seq<Field>, name: string): (r: Option<Field>)
    ensures r.Some? <==> exists k :: 0 <= k < |fields| && fields[k].name == name
    ensures r.Some? ==> r.value.name == name && r.value in fields
  {
    match IndexOf(fields, name)
    case None => None
    case Some(i) => Some(fields[i])
  }

  ghost predicate UniqueNames(fields: seq<Field>)
  {
    forall i, j :: 0 <= i < j < |fields| ==> fields[i].name != fields[j].name
  }

  /** `fields[name] = Field(...)`: a new name is added at the end, a name
      already present has its field replaced where it stands. */
  function Register(fields: seq<Field>, d: FieldDecl): (r: seq<Field>)
    ensures FindField(r, d.name) == Some(MakeField(d))
    ensures forall n :: n != d.name ==> FindField(r, n) == FindField(fields, n)
    ensures UniqueNames(fields) ==> UniqueNames(r)
  {
    match IndexOf(fields, d.name)
    case Some(i) =>
      var r := fields[i := MakeField(d)];
      assert forall n :: IndexOf(r, n) == IndexOf(fields, n) by {
        forall n ensures IndexOf(r, n) == IndexOf(fields, n) {
          IndexOfSameNames(r, fields, n);
        }
      }
      r
    case None =>
      var r := fields + [MakeField(d)];
      assert r[|fields|].name == d.name;
      assert forall n :: n != d.name ==> IndexOf(r, n) == IndexOf(fields, n) by {
        forall n | n != d.name ensures IndexOf(r, n) == IndexOf(fields, n) {
          IndexOfAppend(fields, MakeField(d), n);
        }
      }
      r
  }

  /** Registration order: a new name joins the end of the table; a name
      already present keeps its place, and every other entry stays as it is. */
  lemma RegisterPosition(fields: seq<Field>, d: FieldDecl)
    ensures (forall k :: 0 <= k < |fields| ==> fields[k].name != d.name) ==>
              Register(fields, d) == fields + [MakeField(d)]
    ensures forall i :: 0 <= i < |fields| && fields[i].name == d.name && UniqueNames(fields) ==>
              Register(fields, d) == fields[i := MakeField(d)]
  {
    forall i | 0 <= i < |fields| && fields[i].name == d.name && UniqueNames(fields)
      ensures Register(fields, d) == fields[i := MakeField(d)]
    {
      assert IndexOf(fields, d.name).Some?;
    }
  }

  lemma {:induction false} IndexOfSameNames(a: seq<Field>, b: seq<Field>, n: string)
    requires |a| == |b|
    requires forall k :: 0 <= k < |a| ==> (a[k].name == n <==> b[k].name == n)
    ensures IndexOf(a, n) == IndexOf(b, n)
  {
    if |a| > 0 && a[0].name != n { IndexOfSameNames(a[1..], b[1..], n); }
  }

  lemma {:induction false} IndexOfAppend(a: seq<Field>, f: Field, n: string)
    requires f.name != n
    ensures IndexOf(a + [f], n) == IndexOf(a, n)
  {
    if |a| > 0 && a[0].name != n {
      assert (a + [f])[1..] == a[1..] + [f];
      IndexOfAppend(a[1..], f, n);
    }
  }

  /** The fields a schema routine registers, its declarations run in order. */
  function Registered(schema: seq<FieldDecl>): seq<Field>
  {
    if |schema| == 0 then [] else Register(Registered(schema[..|schema| - 1]), schema[|schema| - 1])
  }

  /** A schema routine that declares each name once registers one field per
      declaration, in declaration order. */
  lemma {:induction false} RegisteredInOrder(schema: seq<FieldDecl>)
    requires forall i, j :: 0 <= i < j < |schema| ==> schema[i].name != schema[j].name
    ensures |Registered(schema)| == |schema|
    ensures forall k :: 0 <= k < |schema| ==> Registered(schema)[k] == MakeField(schema[k])
  {
    if |schema| > 0 {
      var init := schema[..|schema| - 1];
      RegisteredInOrder(init);
      RegisterPosition(Registered(init), schema[|schema| - 1]);
    }
  }

  /** The last declaration of `name` in a schema routine, if any. */
  function LastDecl(schema: seq<FieldDecl>, name: string): (r: Option<FieldDecl>)
    ensures r.Some? <==> exists k :: 0 <= k < |schema| && schema[k].name == name
  {
    if |schema| == 0 then None
    else if schema[|schema| - 1].name == name then Some(schema[|schema| - 1])
    else
      var r := LastDecl(schema[..|schema| - 1], name);
      assert forall k :: 0 <= k < |schema| - 1 ==> schema[..|schema| - 1][k] == schema[k];
      r
  }

  /** Building registers exactly the declared names, each once, with the
      field of its last declaration. */
  lemma {:induction false} RegisteredFields(schema: seq<FieldDecl>, name: string)
    ensures UniqueNames(Registered(schema))
    ensures FindField(Registered(schema), name).Some? <==> LastDecl(schema, name).Some?
    ensures LastDecl(schema, name).Some? ==>
              FindField(Registered(schema), name) == Some(MakeField(LastDecl(schema, name).value))
  {
    if |schema| > 0 {
      RegisteredFields(schema[..|schema| - 1], name);
    }
  }

  // ---------------------------------------------------------------------
  // DerivedField.get_value and Metamodel.get_field_value

  /** The data store after `DerivedField.get_value`: the initializer runs,
      and its result is stored under the field's name, only when that name
      is not yet a key; no other key changes. */
  function Memoize(d: DerivedField, data: Data): (r: Data)
    ensures d.name in r
    ensures d.name in data ==> r == data
    ensures d.name !in data ==> r == data[d.name := d.initializer(data)]
  {
    if d.name in data then data else data[d.name := d.initializer(data)]
  }

  /** Once memoized, a derived field is never computed again. */
  lemma MemoizeOnce(d: DerivedField, data: Data)
    ensures Memoize(d, Memoize(d, data)) == Memoize(d, data)
    ensures forall other: Data :: d.name in other ==> Memoize(d, other)[d.name] == other[d.name]
  {
  }

  /** `get_field_value(entity, name, strict)`: the value and the data store
      afterwards. A declared field comes first, a derived field second; an
      unknown name fails strictly and reads the raw entry leniently. */
  function Resolve(fields: seq<Field>, derived: map<string, DerivedField>, data: Data,
                   name: string, strict: bool): (Result<Value>, Data)
  {
    match FindField(fields, name)
    case Some(f) => (Ok(FieldValue(f, data)), data)
    case None =>
      if name in derived then
        var d := derived[name];
        var after := Memoize(d, data);
        (Ok(after[d.name]), after)
      else if strict then (Err(UnknownField(name)), data)
      else (Ok(Get(data, name)), data)
  }

  /** Resolution order: a declared field shadows a derived field of the same
      name and never touches the store; a derived field yields its memoized
      value. */
  lemma ResolutionOrder(fields: seq<Field>, derived: map<string, DerivedField>, data: Data,
                        name: string, strict: bool)
    ensures FindField(fields, name).Some? ==>
              Resolve(fields, derived, data, name, strict).1 == data &&
              Resolve(fields, derived, data, name, strict).0
                == Ok(FieldValue(FindField(fields, name).value, data))
    ensures FindField(fields, name).None? && name in derived ==>
              var after := Resolve(fields, derived, data, name, strict).1;
              var d := derived[name];
              d.name in after && Resolve(fields, derived, data, name, strict).0 == Ok(after[d.name])
  {
  }

  /** Strict and lenient access agree wherever strict access succeeds;
      strict access fails exactly for names neither declared nor derived, and
      there lenient access reads the raw entry, None when absent. */
  lemma StrictAndLenient(fields: seq<Field>, derived: map<string, DerivedField>, data: Data, name: string)
    ensures Resolve(fields, derived, data, name, true).0.Err? <==>
              FindField(fields, name).None? && name !in derived
    ensures Resolve(fields, derived, data, name, true).0.Err? ==>
              Resolve(fields, derived, data, name, true) == (Err(UnknownField(name)), data) &&
              Resolve(fields, derived, data, name, false) == (Ok(Get(data, name)), data)
    ensures Resolve(fields, derived, data, name, true).0.Ok? ==>
              Resolve(fields, derived, data, name, false) == Resolve(fields, derived, data, name, true)
  {
  }

  /** Resolving a name again on the store a resolution left behind gives the
      same value and changes nothing more: derived values are computed at most
      once. The only key a resolution may add is the derived field's own. */
  lemma ResolveOnce(fields: seq<Field>, derived: map<string, DerivedField>, data: Data,
                    name: string, strict: bool)
    ensures var (r, after) := Resolve(fields, derived, data, name, strict);
      Resolve(fields, derived, after, name, strict) == (r, after)
    ensures var after := Resolve(fields, derived, data, name, strict).1;
      after == data ||
      (FindField(fields, name).None? && name in derived && derived[name].name !in data &&
       after == data[derived[name].name := derived[name].initializer(data)])
  {
  }

  // ---------------------------------------------------------------------
  // Constraint.error_message

  /** `Constraint.error_message`: nothing when the predicate returns None;
      otherwise a tuple result fills the template's placeholders in order,
      and any other result is wrapped into a one-element tuple first. */
  function ErrorMessage(c: Constraint, data: Data): (r: Option<string>)
    ensures r.None? <==> c.check(data).Null?
  {
    var values := c.check(data);
    if values.Null? then None
    else if values.Tuple? then Some(Format(c.message, values.elems))
    else Some(Format(c.message, [values]))
  }

  /** A single value returned by the predicate, falsy ones such as False
      included, fills the first placeholder; a tuple fills them one by one. */
  lemma ErrorMessageInterpolates(c: Constraint, data: Data, before: string, after: string)
    requires c.message == before + "{}" + after && PlaceholderFree(before)
    ensures var v := c.check(data);
      !v.Null? && !v.Tuple? ==> ErrorMessage(c, data) == Some(before + ToStr(v) + Format(after, []))
    ensures var v := c.check(data);
      v.Tuple? && |v.elems| > 0 ==>
        ErrorMessage(c, data) == Some(before + ToStr(v.elems[0]) + Format(after, v.elems[1..]))
  {
    var v := c.check(data);
    if !v.Null? && !v.Tuple? {
      FormatFirstPlaceholder(before, after, v, []);
      assert [v] + [] == [v];
    } else if v.Tuple? && |v.elems| > 0 {
      FormatFirstPlaceholder(before, after, v.elems[0], v.elems[1..]);
      assert [v.elems[0]] + v.elems[1..] == v.elems;
    }
  }

  // ---------------------------------------------------------------------
  // Metamodel.error_messages and its prefix

  /** The prefix starts with the type name; it quotes the entity's `name`
      when the type declares a field called `name`, and otherwise names the
      entity's identity. `attrs` are the values strict access has cached on
      the entity, which `entity.name` reads first. */
  function Prefix(typeName: string, fields: seq<Field>, attrs: map<string, Value>, data: Data,
                  address: string): string
  {
    match FindField(fields, "name")
    case Some(f) =>
      typeName + " '" + ToStr(if "name" in attrs then attrs["name"] else FieldValue(f, data)) + "'"
    case None => typeName + " at " + address
  }

  /** The cached attributes after the prefix has been computed once: reading
      `entity.name` strictly caches it. */
  function PrefixCache(fields: seq<Field>, attrs: map<string, Value>, data: Data): map<string, Value>
  {
    match FindField(fields, "name")
    case Some(f) => if "name" in attrs then attrs else attrs["name" := FieldValue(f, data)]
    case None => attrs
  }

  /** Computing the prefix again after caching gives the same prefix. */
  lemma PrefixStable(typeName: string, fields: seq<Field>, attrs: map<string, Value>, data: Data,
                     address: string)
    ensures Prefix(typeName, fields, PrefixCache(fields, attrs, data), data, address)
              == Prefix(typeName, fields, attrs, data, address)
    ensures PrefixCache(fields, PrefixCache(fields, attrs, data), data) == PrefixCache(fields, attrs, data)
  {
  }

  predicate FieldOk(f: Field, data: Data)
  {
    Matches(f.matcher, FieldValue(f, data))
  }

  function FieldMessage(prefix: string, f: Field, value: Value): string
  {
    prefix + " expected field '" + f.name + "' to be " + Describe(f.matcher) + ", got " + ToStr(value)
  }

  /** The message for each field whose value, after default substitution,
      fails its matcher, in field order. */
  function FieldMessages(prefix: string, fields: seq<Field>, data: Data): seq<string>
  {
    if |fields| == 0 then []
    else
      var f := fields[|fields| - 1];
      FieldMessages(prefix, fields[..|fields| - 1], data)
        + (if FieldOk(f, data) then [] else [FieldMessage(prefix, f, FieldValue(f, data))])
  }

  /** One more field adds its message after the others' exactly when its
      value, after default substitution, fails its matcher. */
  lemma FieldReported(prefix: string, fields: seq<Field>, f: Field, data: Data)
    ensures FieldMessages(prefix, fields + [f], data)
              == FieldMessages(prefix, fields, data)
                 + (if FieldOk(f, data) then [] else [FieldMessage(prefix, f, FieldValue(f, data))])
  {
    assert (fields + [f])[..|fields|] == fields;
  }

  /** A constraint is violated when it yields a message that is not empty
      (`if error_message:` skips an empty one). */
  predicate Violated(c: Constraint, data: Data)
  {
    var m := ErrorMessage(c, data);
    m.Some? && m.value != ""
  }

  /** The message for each violated constraint, in declaration order. */
  function ConstraintMessages(prefix: string, constraints: seq<Constraint>, data: Data): seq<string>
  {
    if |constraints| == 0 then []
    else
      var c := constraints[|constraints| - 1];
      ConstraintMessages(prefix, constraints[..|constraints| - 1], data)
        + (if Violated(c, data) then [prefix + " " + ErrorMessage(c, data).value] else [])
  }

  /** All field messages, then all constraint messages. */
  function Messages(prefix: string, fields: seq<Field>, constraints: seq<Constraint>, data: Data): seq<string>
  {
    FieldMessages(prefix, fields, data) + ConstraintMessages(prefix, constraints, data)
  }

  /** A message is reported for a field exactly when that field fails. */
  lemma {:induction false} FieldMessagesExact(prefix: string, fields: seq<Field>, data: Data, m: string)
    ensures m in FieldMessages(prefix, fields, data) <==>
              exists k :: 0 <= k < |fields| && !FieldOk(fields[k], data) &&
                m == FieldMessage(prefix, fields[k], FieldValue(fields[k], data))
  {
    if |fields| > 0 {
      var init := fields[..|fields| - 1];
      FieldMessagesExact(prefix, init, data, m);
      assert forall k :: 0 <= k < |init| ==> init[k] == fields[k];
      if m in FieldMessages(prefix, fields, data) && m !in FieldMessages(prefix, init, data) {
        assert !FieldOk(fields[|fields| - 1], data);
      }
    }
  }

  ghost function FailingFields(fields: seq<Field>, data: Data): set<nat>
  {
    set k: nat | k < |fields| && !FieldOk(fields[k], data)
  }

  ghost function ViolatedConstraints(constraints: seq<Constraint>, data: Data): set<nat>
  {
    set k: nat | k < |constraints| && Violated(constraints[k], data)
  }

  /** One message per failing field: no field is skipped or reported twice. */
  lemma {:induction false} FieldMessagesCount(prefix: string, fields: seq<Field>, data: Data)
    ensures |FieldMessages(prefix, fields, data)| == |FailingFields(fields, data)|
  {
    if |fields| > 0 {
      var n := |fields| - 1;
      var init := fields[..n];
      FieldMessagesCount(prefix, init, data);
      FailingStep(fields, data);
    }
  }

  lemma FailingStep(fields: seq<Field>, data: Data)
    requires |fields| > 0
    ensures var n := |fields| - 1;
      FailingFields(fields, data)
        == FailingFields(fields[..n], data) + (if FieldOk(fields[n], data) then {} else {n})
    ensures |fields| - 1 !in FailingFields(fields[..|fields| - 1], data)
  {
    var n := |fields| - 1;
    assert forall k :: 0 <= k < n ==> fields[..n][k] == fields[k];
  }

  /** One message per violated constraint. */
  lemma {:induction false} ConstraintMessagesCount(prefix: string, constraints: seq<Constraint>, data: Data)
    ensures |ConstraintMessages(prefix, constraints, data)| == |ViolatedConstraints(constraints, data)|
  {
    if |constraints| > 0 {
      var n := |constraints| - 1;
      ConstraintMessagesCount(prefix, constraints[..n], data);
      ViolatedStep(constraints, data);
    }
  }

  lemma ViolatedStep(constraints: seq<Constraint>, data: Data)
    requires |constraints| > 0
    ensures var n := |constraints| - 1;
      ViolatedConstraints(constraints, data)
        == ViolatedConstraints(constraints[..n], data) + (if Violated(constraints[n], data) then {n} else {})
    ensures |constraints| - 1 !in ViolatedConstraints(constraints[..|constraints| - 1], data)
  {
    var n := |constraints| - 1;
    assert forall k :: 0 <= k < n ==> constraints[..n][k] == constraints[k];
  }

  /** Constraint messages follow declaration order: the messages of a longer
      list of constraints extend those of its prefix. */
  lemma {:induction false} ConstraintMessagesAppend(prefix: string, first: seq<Constraint>,
                                                    second: seq<Constraint>, data: Data)
    ensures ConstraintMessages(prefix, first + second, data)
              == ConstraintMessages(prefix, first, data) + ConstraintMessages(prefix, second, data)
    decreases |second|
  {
    if |second| == 0 {
      assert first + second == first;
    } else {
      var n := |second| - 1;
      assert (first + second)[..|first + second| - 1] == first + second[..n];
      ConstraintMessagesAppend(prefix, first, second[..n], data);
    }
  }

  /** One more constraint adds its message after the others' exactly when
      the message is not empty, and nothing when the predicate returns None. */
  lemma ConstraintReported(prefix: string, constraints: seq<Constraint>, c: Constraint, data: Data)
    ensures var m := ErrorMessage(c, data);
      ConstraintMessages(prefix, constraints + [c], data)
        == ConstraintMessages(prefix, constraints, data)
           + (if m.Some? && m.value != "" then [prefix + " " + m.value] else [])
  {
    assert (constraints + [c])[..|constraints|] == constraints;
  }

  /** There is no short-circuiting: an entity with N failing fields and M
      violated constraints gets exactly N + M messages, field messages first. */
  lemma MessagesCount(prefix: string, fields: seq<Field>, constraints: seq<Constraint>, data: Data)
    ensures |Messages(prefix, fields, constraints, data)|
              == |FailingFields(fields, data)| + |ViolatedConstraints(constraints, data)|
    ensures Messages(prefix, fields, constraints, data)[..|FailingFields(fields, data)|]
              == FieldMessages(prefix, fields, data)
  {
    FieldMessagesCount(prefix, fields, data);
    ConstraintMessagesCount(prefix, constraints, data);
  }

  /** No message at all exactly when every field matches after default
      substitution and no constraint is violated. */
  lemma NoMessages(prefix: string, fields: seq<Field>, constraints: seq<Constraint>, data: Data)
    ensures Messages(prefix, fields, constraints, data) == [] <==>
              (forall k :: 0 <= k < |fields| ==> FieldOk(fields[k], data)) &&
              (forall k :: 0 <= k < |constraints| ==> !Violated(constraints[k], data))
  {
    MessagesCount(prefix, fields, constraints, data);
    if forall k :: 0 <= k < |fields| ==> FieldOk(fields[k], data) {
      assert FailingFields(fields, data) == {};
    } else {
      var k :| 0 <= k < |fields| && !FieldOk(fields[k], data);
      assert k in FailingFields(fields, data);
    }
    if forall k :: 0 <= k < |constraints| ==> !Violated(constraints[k], data) {
      assert ViolatedConstraints(constraints, data) == {};
    } else {
      var k :| 0 <= k < |constraints| && Violated(constraints[k], data);
      assert k in ViolatedConstraints(constraints, data);
    }
  }

  // ---------------------------------------------------------------------
  // Model.options_for

  /** `metamodel.fields[name].matcher.options`: the declared options of the
      field's matcher, which are exactly the strings the field accepts; an
      undeclared name is a KeyError, a field with another kind of matcher an
      AttributeError. */
  function OptionsOf(fields: seq<Field>, name: string): (r: Result<seq<string>>)
    ensures FindField(fields, name).None? <==> r == Err(NoSuchField(name))
    ensures r.Ok? ==>
              (FindField(fields, name).Some? &&
               forall v :: Matches(FindField(fields, name).value.matcher, v) <==> v.Str? && v.s in r.value)
    ensures FindField(fields, name).Some? && !FindField(fields, name).value.matcher.Options? ==>
              r == Err(NotAnOptionsField(name))
    ensures FindField(fields, name).Some? && FindField(fields, name).value.matcher.Options? ==>
              r == Ok(FindField(fields, name).value.matcher.options)
  {
    match FindField(fields, name)
    case None => Err(NoSuchField(name))
    case Some(f) => if f.matcher.Options? then Ok(f.matcher.options) else Err(NotAnOptionsField(name))
  }
}
