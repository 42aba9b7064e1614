# py-fame schema engine, modelled in Dafny

py-fame is a small Python library for declaring record types with a schema
and checking entities against it. A record type (a `Model` subclass)
declares its fields in a schema routine. Each field has a type declaration
(a Python type or a *matcher*) and a default. The type can also add
*derived fields*, computed from the entity on first use and memoized, and
*constraints*, each a message template with a predicate that returns the
values to interpolate. The schema routine runs once per type, the first time
anything touches the type's `metamodel`. An entity holds an arbitrary data
dictionary and is read in two ways. Strict attribute access
(`entity.name`) fails for undeclared names and caches what it reads on the
entity. Lenient item access (`entity['name']`) falls back to the raw
dictionary. Validation yields one message per failing field, then one per
violated constraint.

The model has six modules:

- `Values` (values.dfy): the dynamically typed values an entity stores, plus
  Python's `str()` of a value and the `{}` substitution of `str.format`.
- `Matchers` (matchers.dfy): matchers as a recursive datatype, with
  acceptance (`Matches`), description (`Describe`) and `as_matcher`.
- `Schema` (schema.dfy): the pure specification of the engine: fields and
  defaults, field registration and the build's result, name resolution with
  derived-field memoization, constraint messages, the message prefix,
  validation messages, and `options_for`.
- `Engine` (engine.dfy): the stateful engine.
  - `Metamodel` is a class with a pending schema routine, a field table,
    derived fields, constraints and a ghost build counter.
  - `Entity` is a class with a mutable data store, a cache of strictly read
    values and a ghost log of the derived fields computed for it.
  - Each method is proved against the `Schema` functions.
- `Legacy` (legacy.dfy): the earlier revision in model.py.
  - It shares the metamodel build, resolution, derived fields, constraints
    and matchers with the later revision.
  - It differs in field validation: the check reads the raw stored value
    through `Field.match`, which substitutes the default itself, and the
    message prefix is computed before anything is checked.
  - It is proved to agree with the later revision on which entities are
    valid and on how many messages they get.
  - The earlier revision's `__get__` (model.py:82-85),
    `initialize_metamodel_once` (model.py:87-96), `get_field_value`
    (model.py:101-105) and `DerivedField.get_value` (model.py:185-189) do
    what the later revision's do. They are modelled by the same `Engine`
    members.
- `Scenarios` (scenarios.dfy): the record types of the test suite (`Example`
  and `Broken`) and what the model yields for the entities the tests build.
  - The stateful tests are the client methods `SharedMetamodel`,
    `StrictReadIsCached` (a strictly read field keeps its value after the
    data store is replaced), and `DerivedStrictFirst`, `DerivedLenientFirst`,
    `DerivedLenientTwice` and `DerivedStrictCached`, the four sequences of
    reads in the derived-field memoization test. In each, `callonce` is
    computed by the first read only.

Regular-expression search is abstract. A `RegExp` matcher carries its
pattern text and a `search: string -> bool` function that stands for the
compiled expression's search. The test suite's pattern `^https?://` is
modelled by `Scenarios.StartsWithHttp`. Constraint predicates and derived
field initializers are function values over the entity's data.

The model fixes three Python behaviours that the source leaves implicit:

- A Python `bool` is an `int`, so an `int` field accepts `True` and `False`.
- `str` and `unicode` share one string representation. This is why
  `as_matcher` widening `str` to `basestring` changes only the description.
- Python 2 dictionaries have no defined order. The model keeps the field
  table in registration order, and re-registering a name replaces the field
  where it stands.

## Model

| member | source | states |
|---|---|---|
| Values.FormatLiteral | fame/model.py:176 | a template without `{}` formats to itself, whatever the values |
| Values.FormatFirstPlaceholder | fame/model.py:176 | the first `{}` after placeholder-free text takes `str()` of the first value, and the rest of the template gets the remaining values |
| Matchers.AsMatcher | fame/matchers.py:4-7 | a matcher passes through unchanged; a bare type becomes a type matcher accepting exactly its instances (for `int`: bools and integers within `sys.maxint`), `str` described as `basestring` |
| Matchers.ArrayAccepts | fame/matchers.py:27-29 | an array matcher accepts exactly the lists whose every element the inner matcher accepts (so the empty list), and no non-list |
| Matchers.NullableAccepts | fame/matchers.py:40-41 | a nullable matcher accepts None, and answers as its inner matcher for every other value |
| Matchers.OptionsAccepts | fame/matchers.py:52-53 | an options matcher accepts a value iff it equals one of the declared strings |
| Matchers.RegExpAccepts | fame/matchers.py:64-66 | a regexp matcher rejects every non-string, and accepts a string iff the pattern search finds a match |
| Matchers.AnythingAndReserved | fame/matchers.py:74-84 | the anything matcher accepts every value, the reserved matcher none |
| Matchers.DescribeUnwraps | fame/matchers.py:31-44 | array and nullable descriptions wrap the inner description: stripping the tag and the closing parenthesis gives it back |
| Matchers.DescribeExamples | tests/test__model.py:115-117 | `array(str)` is described `array(basestring)`; `nullable(regexp("^https?://"))` is described `nullable(regexp(^https?://))` |
| Schema.FieldValue | fame/model.py:114-116 | `Field.get_value` yields None exactly when both the stored value and the default are None |
| Schema.DefaultSubstitution | fame/model.py:114-116 | an absent name and a stored None both give the default; any other stored value, falsy ones included, is returned; writing the result back changes nothing |
| Schema.Register | fame/model.py:48-49 | after `field`, looking up the name finds the new field; every other name finds what it found before; names stay unique |
| Schema.RegisterPosition | fame/model.py:48-49 | a new name is appended at the end of the table; a name already present is replaced in its position and nothing else moves |
| Schema.RegisteredInOrder | fame/model.py:37-40 | a schema routine declaring each name once yields one field per declaration, in declaration order |
| Schema.RegisteredFields | fame/model.py:37-40 | after the routine, names are unique; a name has a field iff the routine declares it; that field is built from its last declaration |
| Schema.Memoize | fame/model.py:133-137 | `DerivedField.get_value`: the stored value is kept when present; otherwise exactly the initializer's result is added under the field's name |
| Schema.MemoizeOnce | fame/model.py:133-137 | a memoized derived value is never recomputed: memoizing again changes nothing, and a stored value is returned as it is |
| Schema.ResolutionOrder | fame/model.py:51-53 | a declared field shadows a derived field of the same name and leaves the store untouched; a derived field yields its memoized value |
| Schema.StrictAndLenient | fame/model.py:51-55 | strict resolution fails iff the name is neither declared nor derived; there lenient resolution returns the raw entry; elsewhere both agree |
| Schema.ResolveOnce | fame/model.py:51-55 | resolving again on the resulting store gives the same result and store; the only key resolution may add is the derived field's |
| Schema.ErrorMessage | fame/model.py:172-176 | `Constraint.error_message` gives no message exactly when the predicate returns None |
| Schema.ErrorMessageInterpolates | fame/model.py:172-176 | a single result (False included) fills the first placeholder; a tuple fills the placeholders in order |
| Schema.PrefixStable | fame/model.py:57-61 | computing the prefix caches `name` on the entity; computing it again gives the same prefix and caches nothing more |
| Schema.FieldReported | fame/model.py:64-68 | a further field adds its message after the others' exactly when its value, after default substitution, fails its matcher |
| Schema.ConstraintReported | fame/model.py:69-73 | a further constraint adds its message after the others' exactly when the message exists and is not empty |
| Schema.FieldMessagesExact | fame/model.py:64-68 | a message is in the field messages iff it is the message of some failing field |
| Schema.FieldMessagesCount | fame/model.py:64-68 | there are exactly as many field messages as failing fields |
| Schema.ConstraintMessagesCount | fame/model.py:69-73 | there are exactly as many constraint messages as violated constraints |
| Schema.ConstraintMessagesAppend | fame/model.py:69-73 | constraint messages follow declaration order: a longer constraint list extends the messages of its prefix |
| Schema.MessagesCount | fame/model.py:63-73 | N failing fields and M violated constraints give exactly N + M messages, the field messages first |
| Schema.NoMessages | fame/model.py:91-92 | there is no message iff every field matches after default substitution and no constraint is violated |
| Schema.OptionsOf | fame/model.py:101-103 | `options_for` returns the declared options of an options field, as declared and in order; an undeclared name or a non-options field is an error |
| Engine.Metamodel.constructor | fame/model.py:24-29 | the routine is captured, not run; no fields and no constraints yet |
| Engine.Metamodel.AddConstraint | fame/model.py:163-167 | a decorated constraint joins the end of the metamodel's list |
| Engine.Metamodel.AddField | fame/model.py:48-49 | the field table becomes the registration of the declaration, names kept unique |
| Engine.Metamodel.FinishInitialization | fame/model.py:37-46 | the build runs the routine exactly once, leaves the registered table, takes the type's name and derived fields, and discards the routine |
| Engine.Metamodel.Access | fame/model.py:31-35 | the first access builds the metamodel; every later access changes nothing; it is built once in all |
| Engine.Metamodel.GetFieldValue | fame/model.py:51-55 | the result and the new store are those of `Resolve`; the derived-field log grows only when a derived value is first computed |
| Engine.Metamodel.MessagePrefix | fame/model.py:57-61 | the prefix quotes the entity's strictly read `name` when a `name` field is declared, else the entity's address; `name` is then cached |
| Engine.Metamodel.ErrorMessages | fame/model.py:63-73 | the messages are `Messages` over the table and constraints; the prefix (and its caching of `name`) happens only when some message is emitted |
| Engine.Metamodel.OptionsFor | fame/model.py:101-103 | `options_for` builds a pending metamodel from its routine, the type's name and derived fields, keeping its constraints, and returns `OptionsOf` the field table |
| Engine.GetDerivedValue | fame/model.py:133-137 | the store becomes `Memoize` of the old store; the initializer is logged as run only when the name was absent |
| Engine.Entity.constructor | fame/model.py:80-81 | any data is accepted; nothing is cached or computed yet |
| Engine.Entity.Attr | fame/model.py:83-86 | a cached value is returned whatever the store holds now and nothing changes; otherwise the metamodel is built from its routine if pending, the name is resolved strictly through it, and a value found is cached |
| Engine.Entity.Item | fame/model.py:88-89 | the metamodel is built from its routine if pending; lenient resolution then never fails and caches nothing |
| Engine.Entity.ErrorMessages | fame/model.py:94-95 | the metamodel is built from its routine if pending, keeping its constraints; the messages are `Messages` of the built table and those constraints; the store and the derived-field log are unchanged; `name` is cached only when a message is emitted |
| Engine.Entity.IsValid | fame/model.py:91-92 | the metamodel is built from its routine if pending, keeping its constraints; valid iff every field matches after default substitution and no constraint is violated; an invalid entity has `name` cached, a valid one is left as it was |
| Legacy.FieldMatch | model.py:156-158 | `Field.match` substitutes the default for None before matching, and matches any other value as it is |
| Legacy.FieldMatchAgrees | model.py:156-162 | matching the raw value with `Field.match` accepts exactly what matching `get_value`'s result accepts |
| Legacy.FieldMessagesAgree | model.py:112-115 | the earlier revision reports as many field messages as the later one, and the same messages when no default is set |
| Legacy.SameValidity | model.py:137-138 | both revisions agree on whether an entity has messages, and on how many |
| Legacy.ErrorMessages | model.py:107-119 | raw values are checked and reported; the prefix is computed first, so `name` is cached even for a valid entity |
| Legacy.IsValid | model.py:137-141 | the metamodel is built from its routine if pending, keeping its constraints; valid iff every raw value passes `Field.match` and no constraint is violated, which is exactly the later revision's validity; `name` is cached either way and nothing else on the entity changes |
| Scenarios.ExampleBuild | tests/test__model.py:15-27 | the Example routine registers its five fields in declaration order |
| Scenarios.ExampleOptions | tests/test__model.py:200-203 | `options_for('subject')` returns the five declared subjects; other names are errors |
| Scenarios.SubjectDescribed | tests/test__model.py:116 | the subject field is described `options('user', 'visitor', 'email', 'listing', 'market')` |
| Scenarios.PercentViolated | tests/test__model.py:39-42 | an exposure of 200 yields `expected percent_exposed to not exceed 100, got 200` |
| Scenarios.ExampleRejects | tests/test__model.py:109-118 | that entity gets exactly four messages: subject, treatments, design (`got False`), then the constraint |
| Scenarios.ExampleAccepts | tests/test__model.py:77-86 | a complete Example, with an extra entry or with empty treatments, has no message |
| Scenarios.DesignChecks | tests/test__model.py:184-197 | the design accepts None and an `http(s)` URL, and rejects `covfefe` and `9000` |
| Scenarios.ExampleAccess | tests/test__model.py:89-106 | strict reads give declared fields and defaults, and fail for undeclared names; lenient reads give the raw entry or None |
| Scenarios.ExampleDerived | tests/test__model.py:129-140 | `is_miscellanous` is False for subject `user`, and is stored after the read |
| Scenarios.OptionsForSubject | tests/test__model.py:200-203 | `options_for('subject')` on a metamodel not yet built builds it and returns the five subjects in declared order |
| Scenarios.FreshValid | fame/model.py:91-95 | on a metamodel not yet built, with one constraint registered, an entity passing every field check of the built type and that constraint is valid on first access, in both revisions |
| Scenarios.FreshExampleValid | tests/test__model.py:77-86 | a complete Example is valid on the first access to a fresh metamodel, in both revisions |
| Scenarios.LongExposureRejected | fame/matchers.py:15-16 | an exposure beyond `sys.maxint` fails the `int` check, while 100 and the default pass |
| Scenarios.BrokenMessages | tests/test__model.py:174-181 | Broken gets `exepected to not return False` and `exepected to not return foo and bar`, in order |
| Scenarios.SharedMetamodel | tests/test__model.py:61-74 | two entities reach one metamodel, built by the first access only, with five fields, one constraint and two derived fields |

## Left out

- Decorator and descriptor mechanics are not modelled. This covers `@schema`, `@derived_field`, `@constraint` and `__get__` binding on the class. The model calls the corresponding operations directly.
- The `most_recent_metamodel` global is not modelled. `AddConstraint` is called on the metamodel explicitly.
- Regular expressions are not interpreted: a `RegExp` matcher carries an abstract search function.
- `hex(id(entity))` is not modelled. An entity's address is a given string.
- Values.Format: only automatically numbered `{}` fields are modelled. A template with more `{}` than values renders the surplus as empty text, where Python raises `IndexError`.
- String escaping in `repr`, the `u` prefix of unicode values in Python 2, and floating-point rendering are not modelled.
- The `**options` keyword arguments a field accepts and stores unused are not modelled.
- Exceptions raised by user code in schema routines, initializers or constraints are not modelled.
- Initializers and constraint predicates see only the data store. A predicate that reads `self.x` strictly also caches `x` on the entity in Python; the model does not.
- Engine.Entity.IsValid: computes every message, where Python's `any` stops at the first one. Only the first message can cache `name`, so the entity ends in the same state, as the method's contract on `attrs` states.
- Matchers.AsMatcher: `int` and `long` are told apart by value only, with `sys.maxint` of a 64-bit build. A small `long` such as `100L` counts as an `int` here, and the `L` suffix that `repr` gives a long inside a list is not rendered.
- Engine.Entity.Attr: a strict read of a name the record type declares as a derived field goes, in the source, through `DerivedField.__get__` (fame/model.py:128-131) rather than `__getattr__`. That read does not build the metamodel, and it returns the derived value even when a declared field has the same name. The model resolves every strict read through the metamodel. This agrees with the source whenever the metamodel is built for the entity's record type and no declared field shares the derived field's name.
- Engine.GetDerivedValue: initializers are functions of the data store. In the source, an initializer that reads another derived field through `self.<derived field>` memoizes that field into the store as well (fame/model.py:128-137), so the store can gain two keys. `Memoize` adds exactly one.
- Matchers.Kind: `as_matcher` accepts any Python type, but only `int`, `bool`, `str`, `basestring`, `list`, `tuple` and `object` can be written as type tags. Types such as `long`, `float`, `unicode` and `dict` are not modelled.
- Engine.Entity.ErrorMessages: constraint predicates are functions of the data store. In the source, a predicate that reads `self.<derived field>` also memoizes that field into the store (fame/model.py:136). The model's contract that the store is unchanged does not cover that case.
- Floating-point values are not modelled. `Other` stands for values that are not numbers, so `Scenarios.ExceedsHundred` ranks them above every number.
- Attributes set directly on an entity are not modelled. Such an attribute shadows `__getattr__` and makes strict access to an undeclared name succeed.
- `__repr__` of the metamodel and of fields is not modelled. The later revision's `Field.__repr__` reads a `type_matcher` attribute that the later `Field` no longer has.
- The earlier revision's `DerivedField.__get__` is not modelled. It calls a `get` method that does not exist, so the lookup falls back to `__getattr__`, which the model does model.
- The earlier revision's `__get__` memoizes on the instance only, and fails when reached from the class itself. The model's `Access` does not distinguish the receiver.
- setup.py and fame/__init__.py, which only package and re-export the library, are not part of this model.
