/** Matchers: a predicate over a value paired with a stable description
    (fame/matchers.py; model.py carries identical copies of the type, array,
    nullable and options matchers and of `as_matcher`). */
module Matchers {
  import opened Values

  /** The Python types a `TypeMatcher` can be built from. `KStr` is `str`,
      `KBaseString` the common base of `str` and `unicode`. */
  datatype Kind = KInt | KBool | KStr | KBaseString | KList | KTuple | KObject

  /** `type.__name__`. */
  function KindName(k: Kind): string
  {
    match k
    case KInt => "int"
    case KBool => "bool"
    case KStr => "str"
    case KBaseString => "basestring"
    case KList => "list"
    case KTuple => "tuple"
    case KObject => "object"
  }

  /** `sys.maxint` of a 64-bit Python 2 build. */
  const MaxInt: int := 0x7FFF_FFFF_FFFF_FFFF

  /** An integer that Python 2 holds as an `int`; any other integer is a
      `long`, which is not an instance of `int`. */
  predicate IsMachineInt(i: int)
  {
    -MaxInt - 1 <= i <= MaxInt
  }

  /** `isinstance(v, k)`. A bool is an instance of int, because Python's
      bool subclasses int, and an integer is one only within the machine
      range; both string kinds accept every string, because the model has a
      single string representation. Every value is an object. */
  predicate IsInstance(v: Value, k: Kind)
  {
    match k
    case KInt => (v.Int? && IsMachineInt(v.i)) || v.Bool?
    case KBool => v.Bool?
    case KStr => v.Str?
    case KBaseString => v.Str?
    case KList => v.List?
    case KTuple => v.Tuple?
    case KObject => true
  }

  datatype Matcher =
    | TypeMatch(kind: Kind)
    | Array(inner: Matcher)
    | Nullable(inner: Matcher)
    | Options(options: seq<string>)
      /** `pattern` is the source text; `search` stands for the compiled
          expression's `search`, which the model does not interpret. */
    | RegExp(pattern: string, search: string -> bool)
    | Anything
    | Reserved

  /** What a field is declared with: a bare type, or a matcher already built. */
  datatype TypeDecl = TypeTag(tag: Kind) | Given(matcher: Matcher)

  /** `as_matcher`: a bare type becomes a type matcher, `str` widened to the
      general string type; any other declaration is already a matcher and is
      passed through unchanged. */
  function AsMatcher(d: TypeDecl): (m: Matcher)
    ensures d.Given? ==> m == d.matcher
    ensures d.TypeTag? ==> m.TypeMatch? && forall v :: Matches(m, v) == IsInstance(v, d.tag)
    ensures d.TypeTag? ==> Describe(m) == if d.tag == KStr then "basestring" else KindName(d.tag)
  {
    match d
    case TypeTag(k) => TypeMatch(if k == KStr then KBaseString else k)
    case Given(m) => m
  }

  /** `ArrayMatcher(d)`, `NullableMatcher(d)`: the constructors pass their
      argument through `as_matcher`. */
  function ArrayOf(d: TypeDecl): Matcher { Array(AsMatcher(d)) }
  function NullableOf(d: TypeDecl): Matcher { Nullable(AsMatcher(d)) }

  /** `matcher(value)`, read as a truth value. */
  predicate Matches(m: Matcher, v: Value)
    decreases m, 0, 0
  {
    match m
    case TypeMatch(k) => IsInstance(v, k)
    case Array(inner) => v.List? && AllMatch(inner, v.items)
    case Nullable(inner) => v.Null? || Matches(inner, v)
    case Options(os) => v.Str? && v.s in os
    case RegExp(_, search) => v.Str? && search(v.s)
    case Anything => true
    case Reserved => false
  }

  /** `all(inner(each) for each in values)`. */
  predicate AllMatch(inner: Matcher, values: seq<Value>)
    decreases inner, 1, |values|
  {
    |values| == 0 || (Matches(inner, values[0]) && AllMatch(inner, values[1..]))
  }

  /** `str(matcher)`, the text embedded in validation messages. */
  function Describe(m: Matcher): string
  {
    match m
    case TypeMatch(k) => KindName(k)
    case Array(inner) => "array(" + Describe(inner) + ")"
    case Nullable(inner) => "nullable(" + Describe(inner) + ")"
    case Options(os) => "options" + TupleText(QuoteAll(os))
    case RegExp(pattern, _) => "regexp(" + pattern + ")"
    case Anything => "anything"
    case Reserved => "reserved"
  }

  /** An array matcher rejects every non-list and accepts a list exactly when
      every element matches the inner matcher; so the empty list is accepted. */
  lemma ArrayAccepts(inner: Matcher, v: Value)
    ensures Matches(Array(inner), v) <==>
              v.List? && forall k :: 0 <= k < |v.items| ==> Matches(inner, v.items[k])
    ensures Matches(Array(inner), List([]))
  {
    if v.List? { AllMatchEvery(inner, v.items); }
  }

  lemma {:induction false} AllMatchEvery(inner: Matcher, values: seq<Value>)
    ensures AllMatch(inner, values) <==> forall k :: 0 <= k < |values| ==> Matches(inner, values[k])
  {
    if |values| > 0 {
      AllMatchEvery(inner, values[1..]);
      assert forall k :: 1 <= k < |values| ==> values[k] == values[1..][k - 1];
    }
  }

  /** A nullable matcher accepts None and otherwise answers exactly what its
      inner matcher answers. */
  lemma NullableAccepts(inner: Matcher, v: Value)
    ensures Matches(Nullable(inner), Null)
    ensures !v.Null? ==> (Matches(Nullable(inner), v) <==> Matches(inner, v))
  {
  }

  /** An options matcher accepts a value exactly when it equals one of the
      declared options. */
  lemma OptionsAccepts(os: seq<string>, v: Value)
    ensures Matches(Options(os), v) <==> exists k :: 0 <= k < |os| && v == Str(os[k])
  {
    if Matches(Options(os), v) {
      var k :| 0 <= k < |os| && os[k] == v.s;
      assert v == Str(os[k]);
    }
  }

  /** A regular-expression matcher rejects every non-string, whatever its
      pattern, and answers the pattern search for strings. */
  lemma RegExpAccepts(pattern: string, search: string -> bool, v: Value)
    ensures !v.Str? ==> !Matches(RegExp(pattern, search), v)
    ensures v.Str? ==> (Matches(RegExp(pattern, search), v) <==> search(v.s))
  {
  }

  /** The anything matcher accepts every value, the reserved matcher none. */
  lemma AnythingAndReserved(v: Value)
    ensures Matches(Anything, v)
    ensures !Matches(Reserved, v)
  {
  }

  /** Descriptions compose by wrapping: removing a wrapper's tag and its
      closing parenthesis gives back the inner matcher's description. */
  lemma DescribeUnwraps(inner: Matcher)
    ensures var d := Describe(Array(inner));
      d[..6] == "array(" && d[|d| - 1] == ')' && d[6..|d| - 1] == Describe(inner)
    ensures var d := Describe(Nullable(inner));
      d[..9] == "nullable(" && d[|d| - 1] == ')' && d[9..|d| - 1] == Describe(inner)
  {
  }

  /** The descriptions the test suite expects for the example's fields. */
  lemma DescribeExamples(search: string -> bool)
    ensures Describe(ArrayOf(TypeTag(KStr))) == "array(basestring)"
    ensures Describe(NullableOf(Given(RegExp("^https?://", search)))) == "nullable(regexp(^https?://))"
  {
    DescribeArrayExample();
    DescribeNullableExample(search);
  }

  lemma DescribeArrayExample()
    ensures Describe(ArrayOf(TypeTag(KStr))) == "array(basestring)"
  {
    assert ArrayOf(TypeTag(KStr)) == Array(TypeMatch(KBaseString));
    assert "array(" + "basestring" + ")" == "array(basestring)";
  }

  lemma DescribeNullableExample(search: string -> bool)
    ensures Describe(NullableOf(Given(RegExp("^https?://", search)))) == "nullable(regexp(^https?://))"
  {
    var inner := RegExp("^https?://", search);
    assert Describe(inner) == "regexp(" + "^https?://" + ")";
    assert "regexp(" + "^https?://" + ")" == "regexp(^https?://)";
    assert "nullable(" + "regexp(^https?://)" + ")" == "nullable(regexp(^https?://))";
  }
}
