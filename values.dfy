/** The dynamically typed values an entity stores, and the two renderings
    the engine embeds in its messages: Python's `str()` of a value and the
    positional `str.format` substitution used by constraint templates. */
module Values {

  datatype Option<T> = None | Some(value: T)

  /** A Python value as the engine sees it. `Tuple` is what a constraint
      predicate returns to fill several placeholders; `Other` stands for any
      value of a type the engine never inspects and that is not a number
      (dicts, objects); floats are not modelled. */
  datatype Value =
    | Null
    | Bool(b: bool)
    | Int(i: int)
    | Str(s: string)
    | List(items: seq<Value>)
    | Tuple(elems: seq<Value>)
    | Other(tag: nat)

  /** An entity's data store: a Python dict from names to values. */
  type Data = map<string, Value>

  /** `data.get(key)`: the stored value, or None when the key is absent. */
  function Get(data: Data, key: string): (v: Value)
    ensures key !in data ==> v == Null
    ensures key in data ==> v == data[key]
  {
    if key in data then data[key] else Null
  }

  function Digit(d: nat): char
    requires d < 10
  {
    "0123456789"[d]
  }

  function NatToString(n: nat): (r: string)
    ensures |r| > 0
  {
    if n < 10 then [Digit(n)] else NatToString(n / 10) + [Digit(n % 10)]
  }

  /** Decimal rendering of an integer, with a leading minus sign when negative. */
  function IntToString(n: int): (r: string)
    ensures |r| > 0
    ensures (r[0] == '-') <==> n < 0
  {
    if n < 0 then "-" + NatToString(-n)
    else
      var r := NatToString(n);
      assert r[0] in "0123456789" by { NatDigits(n); }
      r
  }

  lemma {:induction false} NatDigits(n: nat)
    ensures forall k :: 0 <= k < |NatToString(n)| ==> NatToString(n)[k] in "0123456789"
  {
    if n >= 10 { NatDigits(n / 10); }
  }

  function Join(sep: string, parts: seq<string>): string
  {
    if |parts| == 0 then ""
    else if |parts| == 1 then parts[0]
    else parts[0] + sep + Join(sep, parts[1..])
  }

  /** `repr(s)` of a string: quoted with single quotes (escaping is not modelled). */
  function QuoteString(s: string): string
  {
    "'" + s + "'"
  }

  /** The `repr` of each string of a sequence, in order. */
  function QuoteAll(os: seq<string>): (r: seq<string>)
    ensures |r| == |os|
    ensures forall k :: 0 <= k < |os| ==> r[k] == QuoteString(os[k])
  {
    if |os| == 0 then [] else [QuoteString(os[0])] + QuoteAll(os[1..])
  }

  /** The parenthesised rendering of a tuple from its element renderings:
      a one-element tuple carries a trailing comma. */
  function TupleText(parts: seq<string>): string
  {
    "(" + Join(", ", parts) + (if |parts| == 1 then "," else "") + ")"
  }

  /** `str(v)`: how a value appears after `got` in a field message and in a
      formatted constraint message. */
  function ToStr(v: Value): string
    decreases v, 0
  {
    match v
    case Null => "None"
    case Bool(b) => if b then "True" else "False"
    case Int(i) => IntToString(i)
    case Str(s) => s
    case List(items) => "[" + Join(", ", seq(|items|, k requires 0 <= k < |items| => Repr(items[k]))) + "]"
    case Tuple(elems) => TupleText(seq(|elems|, k requires 0 <= k < |elems| => Repr(elems[k])))
    case Other(_) => "<object>"
  }

  /** `repr(v)`: strings are quoted, everything else renders as with `str`. */
  function Repr(v: Value): string
    decreases v, 1
  {
    if v.Str? then QuoteString(v.s) else ToStr(v)
  }

  /** True iff `t` contains no automatically numbered placeholder `{}`. */
  predicate PlaceholderFree(t: string)
  {
    forall k :: 0 <= k < |t| - 1 ==> !(t[k] == '{' && t[k + 1] == '}')
  }

  lemma TailPlaceholderFree(t: string)
    requires |t| > 0 && PlaceholderFree(t)
    ensures PlaceholderFree(t[1..])
  {
    forall k | 0 <= k < |t| - 2
      ensures !(t[1..][k] == '{' && t[1..][k + 1] == '}')
    {
      assert t[1..][k] == t[k + 1] && t[1..][k + 1] == t[k + 2];
    }
  }

  /** Two placeholder-free texts stay placeholder-free when joined, unless
      the seam itself forms `{}`. */
  lemma PlaceholderFreeConcat(a: string, b: string)
    requires PlaceholderFree(a) && PlaceholderFree(b)
    requires |a| > 0 && |b| > 0 ==> !(a[|a| - 1] == '{' && b[0] == '}')
    ensures PlaceholderFree(a + b)
  {
    var t := a + b;
    forall k | 0 <= k < |t| - 1
      ensures !(t[k] == '{' && t[k + 1] == '}')
    {
      if k + 1 < |a| {
        assert t[k] == a[k] && t[k + 1] == a[k + 1];
      } else if k >= |a| {
        assert t[k] == b[k - |a|] && t[k + 1] == b[k + 1 - |a|];
      }
    }
  }

  /** `t.format(*args)` for templates whose only replacement fields are `{}`:
      the k-th placeholder, scanning left to right, becomes `str(args[k])`. */
  function Format(t: string, args: seq<Value>): string
    decreases |t|
  {
    if |t| == 0 then ""
    else if |t| >= 2 && t[0] == '{' && t[1] == '}' then
      (if |args| > 0 then ToStr(args[0]) else "") + Format(t[2..], if |args| > 0 then args[1..] else [])
    else [t[0]] + Format(t[1..], args)
  }

  /** A template without placeholders formats to itself, whatever the values. */
  lemma {:induction false} FormatLiteral(t: string, args: seq<Value>)
    requires PlaceholderFree(t)
    ensures Format(t, args) == t
  {
    if |t| > 0 {
      assert |t| >= 2 ==> !(t[0] == '{' && t[1] == '}');
      TailPlaceholderFree(t);
      FormatLiteral(t[1..], args);
    }
  }

  /** The first placeholder after a placeholder-free text takes the first
      value; the rest of the template is formatted with the remaining values. */
  lemma {:induction false} FormatFirstPlaceholder(s: string, t: string, v: Value, rest: seq<Value>)
    requires PlaceholderFree(s)
    ensures Format(s + "{}" + t, [v] + rest) == s + ToStr(v) + Format(t, rest)
  {
    if |s| == 0 {
      assert s + "{}" + t == "{}" + t;
      FormatPlaceholderHead(t, v, rest);
    } else {
      FormatLiteralHead(s, t, [v] + rest);
      TailPlaceholderFree(s);
      FormatFirstPlaceholder(s[1..], t, v, rest);
      assert s + ToStr(v) + Format(t, rest) == [s[0]] + (s[1..] + ToStr(v) + Format(t, rest));
    }
  }

  lemma FormatPlaceholderHead(t: string, v: Value, rest: seq<Value>)
    ensures Format("{}" + t, [v] + rest) == ToStr(v) + Format(t, rest)
  {
    var whole := "{}" + t;
    assert whole[0] == '{' && whole[1] == '}';
    assert whole[2..] == t;
    assert ([v] + rest)[1..] == rest;
  }

  lemma FormatLiteralHead(s: string, t: string, args: seq<Value>)
    requires |s| > 0 && PlaceholderFree(s)
    ensures Format(s + "{}" + t, args) == [s[0]] + Format(s[1..] + "{}" + t, args)
  {
    var whole := s + "{}" + t;
    assert whole[0] == s[0];
    assert whole[1] == if |s| == 1 then '{' else s[1];
    assert |s| >= 2 ==> !(s[0] == '{' && s[1] == '}');
    assert whole[1..] == s[1..] + "{}" + t;
  }
}
