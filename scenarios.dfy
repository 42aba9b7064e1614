/** The record types of the test suite (tests/test__model.py) written in the
    model, and what the engine makes of the entities the tests create. */
module Scenarios {
  import opened Values
  import opened Matchers
  import opened Schema
  import opened Engine
  import Legacy

  /** `search` of the compiled `^https?://`: the text starts with `http://`
      or `https://`. */
  predicate StartsWithHttp(s: string)
  {
    (|s| >= 7 && s[..7] == "http://") || (|s| >= 8 && s[..8] == "https://")
  }

  const Subjects: seq<string> := ["user", "visitor", "email", "listing", "market"]

  /** The Example type's schema routine, one declaration per `m.field` call. */
  function ExampleSchema(): seq<FieldDecl>
  {
    [ FieldDecl("name", TypeTag(KStr), Null),
      FieldDecl("subject", Given(Options(Subjects)), Null),
      FieldDecl("treatments", Given(ArrayOf(TypeTag(KStr))), Null),
      FieldDecl("percent_exposed", TypeTag(KInt), Int(100)),
      FieldDecl("design", Given(NullableOf(Given(RegExp("^https?://", StartsWithHttp)))), Null) ]
  }

  /** The Example type's field table, as it should be after the build. */
  function ExampleFields(): seq<Field>
  {
    [ Field("name", TypeMatch(KBaseString), Null),
      Field("subject", Options(Subjects), Null),
      Field("treatments", Array(TypeMatch(KBaseString)), Null),
      Field("percent_exposed", TypeMatch(KInt), Int(100)),
      Field("design", Nullable(RegExp("^https?://", StartsWithHttp)), Null) ]
  }

  /** The build registers the five fields in declaration order, `str`
      widened to the general string type. */
  lemma ExampleBuild()
    ensures Registered(ExampleSchema()) == ExampleFields()
  {
    var s := ExampleSchema();
    ExampleNamesDistinct();
    RegisteredInOrder(s);
    ExampleDeclarations();
    var r := Registered(s);
    assert |r| == |ExampleFields()|;
    assert forall k :: 0 <= k < |r| ==> r[k] == ExampleFields()[k];
  }

  lemma ExampleNamesDistinct()
    ensures forall i, j :: 0 <= i < j < |ExampleSchema()| ==>
              ExampleSchema()[i].name != ExampleSchema()[j].name
  {
    var s := ExampleSchema();
    assert s[0].name == "name" && s[1].name == "subject" && s[2].name == "treatments";
    assert s[3].name == "percent_exposed" && s[4].name == "design";
  }

  lemma ExampleDeclarations()
    ensures |ExampleSchema()| == |ExampleFields()|
    ensures forall k :: 0 <= k < |ExampleSchema()| ==> MakeField(ExampleSchema()[k]) == ExampleFields()[k]
  {
    var s := ExampleSchema();
    assert MakeField(s[0]) == ExampleFields()[0];
    assert MakeField(s[1]) == ExampleFields()[1];
    assert MakeField(s[2]) == ExampleFields()[2];
    assert MakeField(s[3]) == ExampleFields()[3];
    assert MakeField(s[4]) == ExampleFields()[4];
  }

  /** `Example.options_for('subject')` gives back the declared options. */
  lemma ExampleOptions()
    ensures OptionsOf(ExampleFields(), "subject") == Ok(Subjects)
    ensures OptionsOf(ExampleFields(), "covfefe") == Err(NoSuchField("covfefe"))
    ensures OptionsOf(ExampleFields(), "name") == Err(NotAnOptionsField("name"))
  {
    assert ExampleFields()[1].name == "subject";
    assert ExampleFields()[0].name == "name";
  }

  /** `percent_exposed > 100` under Python 2's mixed-type ordering: None
      sorts below every number, a bool compares as 0 or 1, and a value that
      is not a number sorts above every number (an `Other` value is such a
      non-number). */
  predicate ExceedsHundred(v: Value)
  {
    match v
    case Null => false
    case Bool(_) => false
    case Int(i) => i > 100
    case _ => true
  }

  /** The Example constraint's predicate: the exposure when it exceeds 100,
      None otherwise. */
  function PercentCheck(data: Data): Value
  {
    var v := FieldValue(ExampleFields()[3], data);
    if ExceedsHundred(v) then v else Null
  }

  const ExampleConstraint: Constraint :=
    Constraint("expected percent_exposed to not exceed 100, got {}", PercentCheck)

  /** The derived field `is_miscellanous`. */
  function IsMiscellanous(data: Data): Value
  {
    Bool(FieldValue(ExampleFields()[1], data) !in [Str("user"), Str("visitor")])
  }

  /** The derived field `callonce`; the test's guard against a second call
      is what the entity's log of computed fields records. */
  function CallOnce(data: Data): Value
  {
    Bool(true)
  }

  function ExampleType(): RecordType
  {
    RecordType("Example", map[
      "is_miscellanous" := DerivedField("is_miscellanous", IsMiscellanous),
      "callonce" := DerivedField("callonce", CallOnce)])
  }

  lemma ExampleDerivedCount()
    ensures |ExampleType().derived| == 2
  {
    assert ExampleType().derived.Keys == {"is_miscellanous", "callonce"};
  }

  /** The data of the test whose entity must not validate. */
  function RejectedData(): Data
  {
    map["name" := Str("button_color"), "percent_exposed" := Int(200), "design" := Bool(false)]
  }

  lemma PercentPieces()
    ensures PlaceholderFree("expected ") && PlaceholderFree("percent_")
    ensures PlaceholderFree("exposed ") && PlaceholderFree("to not ")
    ensures PlaceholderFree("exceed ") && PlaceholderFree("100, got ")
  {
  }

  lemma PercentJoined()
    ensures "expected " + "percent_" + "exposed " + "to not " + "exceed " + "100, got "
              == "expected percent_exposed to not exceed 100, got "
  {
  }

  /** The template's text before its placeholder holds no other placeholder. */
  lemma PercentTemplate()
    ensures ExampleConstraint.message == "expected percent_exposed to not exceed 100, got " + "{}" + ""
    ensures PlaceholderFree("expected percent_exposed to not exceed 100, got ")
  {
    PercentPieces();
    PlaceholderFreeConcat("expected ", "percent_");
    PlaceholderFreeConcat("expected " + "percent_", "exposed ");
    PlaceholderFreeConcat("expected " + "percent_" + "exposed ", "to not ");
    PlaceholderFreeConcat("expected " + "percent_" + "exposed " + "to not ", "exceed ");
    PlaceholderFreeConcat("expected " + "percent_" + "exposed " + "to not " + "exceed ", "100, got ");
    PercentJoined();
  }

  lemma PercentInterpolated()
    ensures ErrorMessage(ExampleConstraint, RejectedData())
              == Some("expected percent_exposed to not exceed 100, got " + ToStr(Int(200)) + Format("", []))
  {
    PercentTemplate();
    ErrorMessageInterpolates(ExampleConstraint, RejectedData(),
                             "expected percent_exposed to not exceed 100, got ", "");
  }

  lemma PercentText()
    ensures "expected percent_exposed to not exceed 100, got " + ToStr(Int(200)) + Format("", [])
              == "expected percent_exposed to not exceed 100, got 200"
  {
    assert ToStr(Int(200)) == "200";
  }

  /** An exposure of 200 violates the constraint, and the message reports it. */
  lemma PercentViolated()
    ensures ErrorMessage(ExampleConstraint, RejectedData())
              == Some("expected percent_exposed to not exceed 100, got 200")
  {
    PercentInterpolated();
    PercentText();
  }

  /** Which of the Example's fields the rejected data fails. */
  lemma RejectedFields()
    ensures var f := ExampleFields(); var data := RejectedData();
      FieldOk(f[0], data) && !FieldOk(f[1], data) && !FieldOk(f[2], data) &&
      FieldOk(f[3], data) && !FieldOk(f[4], data)
    ensures FieldValue(ExampleFields()[1], RejectedData()) == Null
    ensures FieldValue(ExampleFields()[2], RejectedData()) == Null
    ensures FieldValue(ExampleFields()[4], RejectedData()) == Bool(false)
  {
    var f := ExampleFields();
    var data := RejectedData();
    assert FieldValue(f[4], data) == Bool(false);
    RegExpAccepts("^https?://", StartsWithHttp, Bool(false));
  }

  /** A passing field adds no message. */
  lemma PassingField(prefix: string, fs: seq<Field>, f: Field, data: Data, before: seq<string>)
    requires FieldMessages(prefix, fs, data) == before && FieldOk(f, data)
    ensures FieldMessages(prefix, fs + [f], data) == before
  {
    FieldReported(prefix, fs, f, data);
  }

  /** A failing field adds its message at the end. */
  lemma FailingField(prefix: string, fs: seq<Field>, f: Field, data: Data, before: seq<string>)
    requires FieldMessages(prefix, fs, data) == before && !FieldOk(f, data)
    ensures FieldMessages(prefix, fs + [f], data) == before + [FieldMessage(prefix, f, FieldValue(f, data))]
  {
    FieldReported(prefix, fs, f, data);
  }

  /** Five fields of which the second, third and fifth fail. */
  lemma SecondThirdFifthFail(prefix: string, f: seq<Field>, data: Data)
    requires |f| == 5
    requires FieldOk(f[0], data) && !FieldOk(f[1], data) && !FieldOk(f[2], data)
    requires FieldOk(f[3], data) && !FieldOk(f[4], data)
    ensures FieldMessages(prefix, f, data)
              == [ FieldMessage(prefix, f[1], FieldValue(f[1], data)),
                   FieldMessage(prefix, f[2], FieldValue(f[2], data)),
                   FieldMessage(prefix, f[4], FieldValue(f[4], data)) ]
  {
    var m1 := FieldMessage(prefix, f[1], FieldValue(f[1], data));
    var m2 := FieldMessage(prefix, f[2], FieldValue(f[2], data));
    var m4 := FieldMessage(prefix, f[4], FieldValue(f[4], data));
    assert f[..0] + [f[0]] == f[..1] && f[..1] + [f[1]] == f[..2] && f[..2] + [f[2]] == f[..3];
    assert f[..3] + [f[3]] == f[..4] && f[..4] + [f[4]] == f;
    PassingField(prefix, f[..0], f[0], data, []);
    FailingField(prefix, f[..1], f[1], data, []);
    FailingField(prefix, f[..2], f[2], data, [m1]);
    PassingField(prefix, f[..3], f[3], data, [m1, m2]);
    FailingField(prefix, f[..4], f[4], data, [m1, m2]);
    assert [m1, m2] + [m4] == [m1, m2, m4];
  }

  lemma RejectedFieldMessages(prefix: string)
    ensures var f := ExampleFields();
      FieldMessages(prefix, f, RejectedData())
        == [ FieldMessage(prefix, f[1], Null),
             FieldMessage(prefix, f[2], Null),
             FieldMessage(prefix, f[4], Bool(false)) ]
  {
    RejectedFields();
    SecondThirdFifthFail(prefix, ExampleFields(), RejectedData());
  }

  lemma RejectedConstraintMessages(prefix: string)
    ensures ConstraintMessages(prefix, [ExampleConstraint], RejectedData())
              == [prefix + " " + "expected percent_exposed to not exceed 100, got 200"]
  {
    PercentViolated();
    ConstraintReported(prefix, [], ExampleConstraint, RejectedData());
    assert [] + [ExampleConstraint] == [ExampleConstraint];
  }

  /** An Example with a name, a too large exposure and a design that is not
      a string gets four messages: the missing subject and treatments, the
      design, then the constraint. */
  lemma ExampleRejects(prefix: string)
    ensures var f := ExampleFields();
      Messages(prefix, f, [ExampleConstraint], RejectedData())
        == [ FieldMessage(prefix, f[1], Null),
             FieldMessage(prefix, f[2], Null),
             FieldMessage(prefix, f[4], Bool(false)),
             prefix + " " + "expected percent_exposed to not exceed 100, got 200" ]
  {
    RejectedFieldMessages(prefix);
    RejectedConstraintMessages(prefix);
  }

  lemma SubjectsQuoted()
    ensures QuoteAll(Subjects) == ["'user'", "'visitor'", "'email'", "'listing'", "'market'"]
  {
    var q := QuoteAll(Subjects);
    assert q[0] == "'" + "user" + "'";
    assert q[1] == "'" + "visitor" + "'";
    assert q[2] == "'" + "email" + "'";
    assert q[3] == "'" + "listing" + "'";
    assert q[4] == "'" + "market" + "'";
    Quoted("user", "'user'");
    Quoted("visitor", "'visitor'");
    Quoted("email", "'email'");
    Quoted("listing", "'listing'");
    Quoted("market", "'market'");
  }

  lemma Quoted(s: string, q: string)
    requires |q| == |s| + 2 && q[0] == '\'' && q[|q| - 1] == '\'' && q[1..|q| - 1] == s
    ensures "'" + s + "'" == q
  {
    assert forall k :: 0 <= k < |q| ==> ("'" + s + "'")[k] == q[k];
  }

  lemma SubjectsJoined()
    ensures Join(", ", QuoteAll(Subjects))
              == "'user'" + ", " + ("'visitor'" + ", " + ("'email'" + ", " + ("'listing'" + ", " + "'market'")))
  {
    SubjectsQuoted();
    var q := ["'user'", "'visitor'", "'email'", "'listing'", "'market'"];
    assert q[1..][1..] == q[2..] && q[2..][1..] == q[3..] && q[3..][1..] == q[4..];
  }

  /** The subject field's description, as the test suite expects it. */
  lemma SubjectDescribed()
    ensures Describe(ExampleFields()[1].matcher)
              == "options" + ("(" + ("'user'" + ", " + ("'visitor'" + ", " + ("'email'" + ", " +
                 ("'listing'" + ", " + "'market'")))) + ")")
  {
    SubjectsJoined();
    assert |QuoteAll(Subjects)| == 5;
  }

  /** With the exposure left to its default of 100, the constraint holds. */
  lemma DefaultExposureAllowed(data: Data)
    requires "percent_exposed" !in data
    ensures ErrorMessage(ExampleConstraint, data).None?
  {
    assert FieldValue(ExampleFields()[3], data) == Int(100);
  }

  /** A complete Example validates, whatever extra entries its data holds,
      and so does one whose treatments are an empty list. */
  lemma ExampleAccepts(prefix: string)
    ensures Messages(prefix, ExampleFields(), [ExampleConstraint],
                     map["name" := Str("button_color"), "subject" := Str("user"),
                         "treatments" := List([Str("control"), Str("treatment")]),
                         "whatnot" := Str("gibberish")]) == []
    ensures Messages(prefix, ExampleFields(), [ExampleConstraint],
                     map["name" := Str("gibberish"), "subject" := Str("user"),
                         "treatments" := List([])]) == []
  {
    CompleteAccepted(prefix, map["name" := Str("button_color"), "subject" := Str("user"),
                                 "treatments" := List([Str("control"), Str("treatment")]),
                                 "whatnot" := Str("gibberish")]);
    CompleteAccepted(prefix, map["name" := Str("gibberish"), "subject" := Str("user"),
                                 "treatments" := List([])]);
  }

  /** Data with a string name, subject `user`, string treatments and no
      exposure or design has no message. */
  lemma CompleteAccepted(prefix: string, data: Data)
    requires "name" in data && data["name"].Str? && Get(data, "subject") == Str("user")
    requires "treatments" in data && data["treatments"].List?
    requires forall k :: 0 <= k < |data["treatments"].items| ==> data["treatments"].items[k].Str?
    requires "percent_exposed" !in data && "design" !in data
    ensures Messages(prefix, ExampleFields(), [ExampleConstraint], data) == []
  {
    var f := ExampleFields();
    DefaultExposureAllowed(data);
    ArrayAccepts(TypeMatch(KBaseString), data["treatments"]);
    assert forall k :: 0 <= k < |f| ==> FieldOk(f[k], data);
    NoMessages(prefix, f, [ExampleConstraint], data);
  }

  /** The design must be None or a string the pattern finds a match in. */
  lemma DesignChecks()
    ensures FieldOk(ExampleFields()[4], map[])
    ensures FieldOk(ExampleFields()[4], map["design" := Str("https://www.airbnb.com")])
    ensures !FieldOk(ExampleFields()[4], map["design" := Str("covfefe")])
    ensures !FieldOk(ExampleFields()[4], map["design" := Int(9000)])
    ensures ToStr(Int(9000)) == "9000"
  {
    var f := ExampleFields()[4];
    assert StartsWithHttp("https://www.airbnb.com");
    assert "covfefe"[0] != "http://"[0];
    assert !StartsWithHttp("covfefe");
    assert FieldValue(f, map["design" := Str("covfefe")]) == Str("covfefe");
    assert FieldValue(f, map["design" := Int(9000)]) == Int(9000);
    RegExpAccepts("^https?://", StartsWithHttp, Int(9000));
    RegExpAccepts("^https?://", StartsWithHttp, Str("covfefe"));
  }

  /** The data of the tests that read fields back. */
  function AccessData(): Data
  {
    map["name" := Str("button_color"), "subject" := Str("user"), "whatnot" := Str("gibberish")]
  }

  /** Strict access reads declared fields, with their defaults, and derived
      fields, and fails for an undeclared name even when the data holds it;
      lenient access returns the raw entry or None instead. */
  lemma ExampleAccess()
    ensures var f, derived, data := ExampleFields(), ExampleType().derived, AccessData();
      && Resolve(f, derived, data, "name", true) == (Ok(Str("button_color")), data)
      && Resolve(f, derived, data, "percent_exposed", true) == (Ok(Int(100)), data)
      && Resolve(f, derived, data, "percent_exposed", false) == (Ok(Int(100)), data)
      && Resolve(f, derived, data, "whatnot", true) == (Err(UnknownField("whatnot")), data)
      && Resolve(f, derived, data, "whatnot", false) == (Ok(Str("gibberish")), data)
      && Resolve(f, derived, data, "covfefe", false) == (Ok(Null), data)
  {
    DeclaredAccess();
    UndeclaredAccess();
  }

  lemma DeclaredAccess()
    ensures var f, derived, data := ExampleFields(), ExampleType().derived, AccessData();
      && Resolve(f, derived, data, "name", true) == (Ok(Str("button_color")), data)
      && Resolve(f, derived, data, "percent_exposed", true) == (Ok(Int(100)), data)
      && Resolve(f, derived, data, "percent_exposed", false) == (Ok(Int(100)), data)
  {
    var f := ExampleFields();
    assert f[0].name == "name" && f[3].name == "percent_exposed";
  }

  lemma UndeclaredAccess()
    ensures var f, derived, data := ExampleFields(), ExampleType().derived, AccessData();
      && Resolve(f, derived, data, "whatnot", true) == (Err(UnknownField("whatnot")), data)
      && Resolve(f, derived, data, "whatnot", false) == (Ok(Str("gibberish")), data)
      && Resolve(f, derived, data, "covfefe", false) == (Ok(Null), data)
  {
  }

  /** A derived field is computed from the data and then stored in it. */
  lemma ExampleDerived()
    ensures var f, derived, data := ExampleFields(), ExampleType().derived, AccessData();
      Resolve(f, derived, data, "is_miscellanous", true)
        == (Ok(Bool(false)), data["is_miscellanous" := Bool(false)])
  {
    assert FieldValue(ExampleFields()[1], AccessData()) == Str("user");
  }

  /** The Broken type: no fields, and two constraints that always fire. */
  function ReturnsFalse(data: Data): Value { Bool(false) }
  function ReturnsPair(data: Data): Value { Tuple([Str("foo"), Str("bar")]) }

  const BrokenFirst: Constraint := Constraint("exepected to not return {}", ReturnsFalse)
  const BrokenSecond: Constraint := Constraint("exepected to not return {} and {}", ReturnsPair)

  lemma BrokenTemplates()
    ensures PlaceholderFree("exepected to not return ")
    ensures BrokenFirst.message == "exepected to not return " + "{}" + ""
    ensures BrokenSecond.message == "exepected to not return " + "{}" + " and {}"
  {
    assert PlaceholderFree("exepected to ") && PlaceholderFree("not return ");
    PlaceholderFreeConcat("exepected to ", "not return ");
    assert "exepected to " + "not return " == "exepected to not return ";
  }

  lemma BrokenFirstInterpolated()
    ensures ErrorMessage(BrokenFirst, map[])
              == Some("exepected to not return " + ToStr(Bool(false)) + Format("", []))
  {
    BrokenTemplates();
    ErrorMessageInterpolates(BrokenFirst, map[], "exepected to not return ", "");
  }

  /** A False result is not None, so the first constraint reports it. */
  lemma BrokenFirstMessage()
    ensures ErrorMessage(BrokenFirst, map[]) == Some("exepected to not return " + "False")
  {
    BrokenFirstInterpolated();
    assert ToStr(Bool(false)) == "False";
    assert Format("", []) == "";
    assert "exepected to not return " + "False" + "" == "exepected to not return " + "False";
  }

  lemma BrokenSecondInterpolated()
    ensures ErrorMessage(BrokenSecond, map[])
              == Some("exepected to not return " + ToStr(Str("foo")) + Format(" and {}", [Str("bar")]))
  {
    BrokenTemplates();
    ErrorMessageInterpolates(BrokenSecond, map[], "exepected to not return ", " and {}");
    assert [Str("foo"), Str("bar")][1..] == [Str("bar")];
  }

  lemma SecondPlaceholder()
    ensures Format(" and {}", [Str("bar")]) == " and " + "bar"
  {
    assert " and {}" == " and " + "{}" + "";
    FormatFirstPlaceholder(" and ", "", Str("bar"), []);
    assert [Str("bar")] + [] == [Str("bar")];
  }

  /** A tuple result fills the placeholders one by one. */
  lemma BrokenSecondMessage()
    ensures ErrorMessage(BrokenSecond, map[]) == Some("exepected to not return " + "foo" + (" and " + "bar"))
  {
    BrokenSecondInterpolated();
    SecondPlaceholder();
  }

  /** A Broken entity gets both constraint messages, in declaration order. */
  lemma BrokenMessages(prefix: string)
    ensures Messages(prefix, [], [BrokenFirst, BrokenSecond], map[])
              == [ prefix + " " + ("exepected to not return " + "False"),
                   prefix + " " + ("exepected to not return " + "foo" + (" and " + "bar")) ]
  {
    BrokenFirstMessage();
    BrokenSecondMessage();
    BothReported(prefix, BrokenFirst, BrokenSecond, map[],
                 "exepected to not return " + "False",
                 "exepected to not return " + "foo" + (" and " + "bar"));
  }

  /** Two constraints that both yield a non-empty message give those two
      messages, in order. */
  lemma BothReported(prefix: string, c1: Constraint, c2: Constraint, data: Data, m1: string, m2: string)
    requires ErrorMessage(c1, data) == Some(m1) && m1 != ""
    requires ErrorMessage(c2, data) == Some(m2) && m2 != ""
    ensures Messages(prefix, [], [c1, c2], data) == [prefix + " " + m1, prefix + " " + m2]
  {
    ConstraintReported(prefix, [], c1, data);
    ConstraintReported(prefix, [c1], c2, data);
    assert [] + [c1] == [c1];
    assert [c1] + [c2] == [c1, c2];
  }

  /** `Example.metamodel` reached from two entities: one metamodel, built
      by the first access only, with five fields, one constraint and two
      derived fields. */
  method SharedMetamodel() returns (meta: Metamodel, m1: Entity, m2: Entity)
    ensures meta.Valid() && meta.Built() && meta.builds == 1
    ensures meta.fields == ExampleFields() && meta.derivedFields == ExampleType().derived
    ensures meta.constraints == [ExampleConstraint]
    ensures m1 != m2 && m1.meta == meta && m2.meta == meta && m1.model == ExampleType()
    ensures m1.Valid() && m1.data == map["subject" := Str("email")] && m1.attrs == map[] && m1.computed == []
    ensures m2.Valid() && m2.data == map[] && m2.attrs == map[] && m2.computed == []
  {
    meta := new Metamodel(ExampleSchema());
    meta.AddConstraint(ExampleConstraint);
    m1 := new Entity(meta, ExampleType(), "0x1", map["subject" := Str("email")]);
    m2 := new Entity(meta, ExampleType(), "0x2", map[]);
    m1.meta.Access(m1.model);
    assert meta.builds == 1;
    m2.meta.Access(m2.model);
    ExampleBuild();
    ExampleDerivedCount();
  }

  /** A field read strictly is cached on the entity: replacing the data store
      afterwards does not change what the entity answers. */
  method StrictReadIsCached(meta: Metamodel, m: Entity)
    requires meta.Valid() && meta.Built() && meta.fields == ExampleFields()
    requires m.meta == meta && m.Valid() && m.data == map["subject" := Str("email")]
    requires m.attrs == map[] && m.computed == []
    modifies meta, m
  {
    var r := m.Attr("subject");
    assert ExampleFields()[1].name == "subject";
    assert r == Ok(Str("email"));
    m.data := map[];
    r := m.Attr("subject");
    assert r == Ok(Str("email"));
  }

  /** `callonce` read strictly, then leniently: computed by the first read only. */
  method DerivedStrictFirst(meta: Metamodel)
    requires meta.Valid() && meta.Built() && meta.fields == ExampleFields()
    requires meta.derivedFields == ExampleType().derived
    modifies meta
  {
    assert FindField(ExampleFields(), "callonce").None?;
    var m := new Entity(meta, ExampleType(), "0x1", map[]);
    var r := m.Attr("callonce");
    assert r == Ok(Bool(true)) && m.computed == ["callonce"];
    var v := m.Item("callonce");
    assert v == Bool(true) && m.computed == ["callonce"];
  }

  /** `callonce` read leniently, then strictly: computed by the first read only. */
  method DerivedLenientFirst(meta: Metamodel)
    requires meta.Valid() && meta.Built() && meta.fields == ExampleFields()
    requires meta.derivedFields == ExampleType().derived
    modifies meta
  {
    assert FindField(ExampleFields(), "callonce").None?;
    var m := new Entity(meta, ExampleType(), "0x2", map[]);
    var v := m.Item("callonce");
    assert v == Bool(true) && m.computed == ["callonce"];
    var r := m.Attr("callonce");
    assert r == Ok(Bool(true)) && m.computed == ["callonce"];
  }

  /** `callonce` read leniently twice: computed by the first read only. */
  method DerivedLenientTwice(meta: Metamodel)
    requires meta.Valid() && meta.Built() && meta.fields == ExampleFields()
    requires meta.derivedFields == ExampleType().derived
    modifies meta
  {
    assert FindField(ExampleFields(), "callonce").None?;
    var m := new Entity(meta, ExampleType(), "0x3", map[]);
    var v := m.Item("callonce");
    assert v == Bool(true) && m.computed == ["callonce"];
    v := m.Item("callonce");
    assert v == Bool(true) && m.computed == ["callonce"];
  }

  /** `callonce` read strictly, the store replaced, then read strictly again:
      the second read is answered from the entity's cache, so the new store
      is neither read nor written and the initializer does not run. */
  method DerivedStrictCached(meta: Metamodel)
    requires meta.Valid() && meta.Built() && meta.fields == ExampleFields()
    requires meta.derivedFields == ExampleType().derived
    modifies meta
  {
    assert FindField(ExampleFields(), "callonce").None?;
    var m := new Entity(meta, ExampleType(), "0x4", map[]);
    var r := m.Attr("callonce");
    assert r == Ok(Bool(true)) && m.computed == ["callonce"];
    m.data := map[];
    m.computed := [];
    r := m.Attr("callonce");
    assert r == Ok(Bool(true)) && m.computed == [] && m.data == map[];
  }

  /** `Example.options_for('subject')` on a metamodel nobody has accessed
      yet: the access builds it, and the declared options come back in
      order. */
  method OptionsForSubject() returns (r: Result<seq<string>>)
    ensures r == Ok(Subjects)
  {
    var meta := new Metamodel(ExampleSchema());
    meta.AddConstraint(ExampleConstraint);
    r := meta.OptionsFor(ExampleType(), "subject");
    ExampleBuild();
    ExampleOptions();
  }

  /** The complete Example of the validation test passes every field check
      and its constraint. */
  lemma CompleteValid()
    ensures forall k :: 0 <= k < |ExampleFields()| ==> FieldOk(ExampleFields()[k], CompleteData())
    ensures !Violated(ExampleConstraint, CompleteData())
  {
    CompleteAccepted("", CompleteData());
    NoMessages("", ExampleFields(), [ExampleConstraint], CompleteData());
  }

  function CompleteData(): Data
  {
    map["name" := Str("button_color"), "subject" := Str("user"),
        "treatments" := List([Str("control"), Str("treatment")])]
  }

  /** `is_valid()` on a metamodel nobody has accessed yet: the check builds
      the metamodel from its routine, keeps the constraint registered before,
      and finds valid an entity that passes every check of the built type. */
  method FreshValid(schema: seq<FieldDecl>, c: Constraint, model: RecordType, data: Data)
    returns (b: bool, legacy: bool)
    requires forall k :: 0 <= k < |Registered(schema)| ==> FieldOk(Registered(schema)[k], data)
    requires !Violated(c, data)
    ensures b && legacy
  {
    var meta := new Metamodel(schema);
    meta.AddConstraint(c);
    var e := new Entity(meta, model, "0x1", data);
    b := e.IsValid();
    meta := new Metamodel(schema);
    meta.AddConstraint(c);
    e := new Entity(meta, model, "0x2", data);
    legacy := Legacy.IsValid(e);
  }

  /** The complete Example is valid on first access, in both revisions. */
  method FreshExampleValid() returns (b: bool, legacy: bool)
    ensures b && legacy
  {
    ExampleBuild();
    CompleteValid();
    b, legacy := FreshValid(ExampleSchema(), ExampleConstraint, ExampleType(), CompleteData());
  }

  /** An exposure beyond `sys.maxint` is a Python 2 `long`, not an `int`:
      the field check rejects it, while 100 passes. */
  lemma LongExposureRejected()
    ensures !FieldOk(ExampleFields()[3], map["percent_exposed" := Int(100000000000000000000)])
    ensures FieldOk(ExampleFields()[3], map["percent_exposed" := Int(100)])
    ensures FieldOk(ExampleFields()[3], map[])
  {
  }

}
