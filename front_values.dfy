/**
 * The JSON values the front end receives, read the way its JavaScript reads
 * them: optional chaining (`a?.b?.c`), the `x || fallback` idiom, `String(x)`
 * as template literals and CSV cells apply it, and `Object.values`.
 */
module FrontValues {
  import opened Wrappers
  import opened DriverValues
  import Text

  /** `o?.[key]`: a field of an object reached through a possibly missing value. */
  function Member(o: Option<Value>, key: string): (r: Option<Value>)
    ensures o.None? ==> r.None?
    ensures o.Some? ==> r == Field(o.value, key)
  {
    match o
    case None => None
    case Some(v) => Field(v, key)
  }

  /** `v[outer]?.[inner]`, as in `user.metadata?.riskLevel`. */
  function Nested(v: Value, outer: string, inner: string): Option<Value> {
    Member(Field(v, outer), inner)
  }

  /** A possibly missing value is truthy. */
  predicate Present(o: Option<Value>) {
    o.Some? && Truthy(o.value)
  }

  /** `x || 'N/A'`: the value itself when truthy, the placeholder otherwise. */
  function OrNA(o: Option<Value>): (r: Value)
    ensures Truthy(r)
    ensures Present(o) ==> r == o.value
    ensures !Present(o) ==> r == Str("N/A")
  {
    if Present(o) then o.value else Str("N/A")
  }

  /** `a || b` on two possibly missing values. */
  function Or(a: Option<Value>, b: Option<Value>): (r: Option<Value>)
    ensures Present(a) ==> r == a
    ensures !Present(a) ==> r == b
  {
    if Present(a) then a else b
  }

  /** `String(v)` for a value that is there. Arrays render as their items joined by
      commas; any other object renders as `[object Object]`. */
  function Render(v: Value): string
    decreases v, 1
  {
    match v
    case Null => "null"
    case Bool(b) => if b then "true" else "false"
    case Num(n) => Text.IntToString(n)
    case Str(s) => s
    case Integer(i) => Text.IntToString(i)
    case Temporal(_, text) => text
    case Arr(xs) => JoinValues(xs, ",")
    case Obj(_) => "[object Object]"
  }

  /** How `Array.prototype.join` renders one item: null as the empty string. */
  function ItemString(v: Value): string
    decreases v, 2
  {
    if v.Null? then "" else Render(v)
  }

  /** `values.join(sep)`. */
  function JoinValues(vs: seq<Value>, sep: string): string
    decreases vs, 3
  {
    Text.Join(seq(|vs|, i requires 0 <= i < |vs| => ItemString(vs[i])), sep)
  }

  /** `String(x)` where `x` may be missing (`undefined`). */
  function RenderOption(o: Option<Value>): string {
    match o
    case None => "undefined"
    case Some(v) => Render(v)
  }

  /** A string is rendered as itself, a natural number as digits that read back as it. */
  lemma RenderReadsBack(s: string, n: nat)
    ensures Render(Str(s)) == s
    ensures Text.DigitsValue(Render(Num(n))) == n
  {
    Text.NatToStringRoundTrip(n);
  }

  /** `Object.values(v)`: the values of an object's fields, an array's items, a string's
      characters; nothing for any other value. */
  function ObjectValues(v: Value): (r: seq<Value>)
    ensures v.Arr? ==> r == v.items
    ensures v.Obj? ==> |r| == |v.fields| && forall i :: 0 <= i < |r| ==> r[i] == v.fields[i].1
    ensures v.Str? ==> |r| == |v.s| && forall i :: 0 <= i < |r| ==> r[i] == Str([v.s[i]])
    ensures !v.Arr? && !v.Obj? && !v.Str? ==> r == []
  {
    match v
    case Arr(xs) => xs
    case Obj(fs) => FieldValues(fs)
    case Str(s) => seq(|s|, i requires 0 <= i < |s| => Str([s[i]]))
    case _ => []
  }

  /** The field holds a string. */
  function StringField(v: Value, key: string): (r: Option<string>)
    ensures r.Some? <==> Field(v, key).Some? && Field(v, key).value.Str?
    ensures r.Some? ==> Field(v, key) == Some(Str(r.value))
  {
    match Field(v, key)
    case Some(Str(s)) => Some(s)
    case _ => None
  }
}
