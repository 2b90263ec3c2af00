/**
 * The value tree that the Neo4j JavaScript driver hands back, and the two
 * helpers of the database gateway that turn it into plain JSON-like objects:
 * `convertNeo4jIntegers` (a fresh object filled key by key, recursing into
 * nested objects) and `recordsToObjects` (one object per record, nodes and
 * relationships replaced by their properties).
 *
 * Objects are association lists in `for...in` order; an array is walked by
 * `for...in` over its index keys "0", "1", ... . `JSON.parse` is a parameter
 * (`None` stands for a parse that throws).
 */
module DriverValues {
  import opened Wrappers
  import Text

  datatype TemporalKind = DateTime | Date | Time | LocalDateTime | LocalTime

  datatype Value =
    | Null
    | Bool(b: bool)
    | Num(n: int)                               // a JavaScript number (integral in this model)
    | Str(s: string)
    | Integer(i: int)                           // the driver's 64-bit Integer object
    | Temporal(kind: TemporalKind, text: string) // a driver temporal object and its ISO text
    | Arr(items: seq<Value>)
    | Obj(fields: seq<(string, Value)>)

  type Parser = string -> Option<Value>

  /** JavaScript truthiness of a value. */
  predicate Truthy(v: Value) {
    match v
    case Null => false
    case Bool(b) => b
    case Num(n) => n != 0
    case Str(s) => s != ""
    case _ => true
  }

  /** No driver Integer and no temporal object anywhere inside. */
  predicate Plain(v: Value)
    decreases v
  {
    match v
    case Integer(_) => false
    case Temporal(_, _) => false
    case Arr(xs) => forall i :: 0 <= i < |xs| ==> Plain(xs[i])
    case Obj(fs) => forall i :: 0 <= i < |fs| ==> Plain(fs[i].1)
    case _ => true
  }

  function Keys(fs: seq<(string, Value)>): (ks: seq<string>)
    ensures |ks| == |fs|
    ensures forall i :: 0 <= i < |fs| ==> ks[i] == fs[i].0
  {
    if fs == [] then [] else Keys(fs[..|fs| - 1]) + [fs[|fs| - 1].0]
  }

  /** `obj[key]` on an association list: the first entry with that key. */
  function Lookup(fs: seq<(string, Value)>, key: string): (r: Option<Value>)
    ensures r.Some? <==> key in Keys(fs)
  {
    if fs == [] then None
    else if fs[0].0 == key then Some(fs[0].1)
    else
      assert Keys(fs)[1..] == Keys(fs[1..]);
      Lookup(fs[1..], key)
  }

  /** `v[key]` read off a value: the field of an object, undefined (`None`) on anything else. */
  function Field(v: Value, key: string): Option<Value> {
    if v.Obj? then Lookup(v.fields, key) else None
  }

  /** `Object.values` of an association list, in key order. */
  function FieldValues(fs: seq<(string, Value)>): (vs: seq<Value>)
    ensures |vs| == |fs|
    ensures forall i :: 0 <= i < |fs| ==> vs[i] == fs[i].1
  {
    if fs == [] then [] else FieldValues(fs[..|fs| - 1]) + [fs[|fs| - 1].1]
  }

  /** The keys a `for...in` loop visits on an array of length n. */
  function IndexKeys(n: nat): (ks: seq<string>)
    ensures |ks| == n
    ensures forall i :: 0 <= i < n ==> ks[i] == Text.NatToString(i)
  {
    if n == 0 then [] else IndexKeys(n - 1) + [Text.NatToString(n - 1)]
  }

  // ---------------------------------------------------------------------------
  // convertNeo4jIntegers

  /** What the converter stores under `key` for the value found there. */
  function ConvertEntry(key: string, v: Value, parse: Parser): (r: Value)
    ensures key != "metadata" ==> !r.Arr? && !r.Integer? && !r.Temporal?
    decreases v, 1
  {
    match v
    case Integer(i) => Num(i)
    case Temporal(_, text) => Str(text)
    case Arr(_) => Converted(v, parse)
    case Obj(_) => Converted(v, parse)
    case Str(s) => if key == "metadata" then parse(s).GetOr(Obj([])) else v
    case _ => v
  }

  /** The result of `convertNeo4jIntegers(v)`. */
  function Converted(v: Value, parse: Parser): (r: Value)
    ensures v.Obj? || v.Arr? ==> r.Obj?
    decreases v, 0
  {
    match v
    case Obj(fs) => Obj(ConvertFields(fs, parse))
    case Arr(xs) => Obj(ConvertItems(xs, parse))
    case _ => v
  }

  function ConvertFields(fs: seq<(string, Value)>, parse: Parser): (r: seq<(string, Value)>)
    ensures |r| == |fs|
    decreases fs, 2
  {
    if fs == [] then []
    else
      var last := fs[|fs| - 1];
      assert last in fs;
      match last
      case (key, x) =>
        assert x < last;
        ConvertFields(fs[..|fs| - 1], parse) + [(key, ConvertEntry(key, x, parse))]
  }

  function ConvertItems(xs: seq<Value>, parse: Parser): (r: seq<(string, Value)>)
    ensures |r| == |xs|
    decreases xs, 2
  {
    if xs == [] then []
    else
      var key := Text.NatToString(|xs| - 1);
      assert xs[|xs| - 1] in xs;
      ConvertItems(xs[..|xs| - 1], parse) + [(key, ConvertEntry(key, xs[|xs| - 1], parse))]
  }

  /** An array as the index-keyed object that `for...in` sees. */
  function IndexKeyed(xs: seq<Value>): (fs: seq<(string, Value)>)
    ensures |fs| == |xs|
    ensures forall i :: 0 <= i < |xs| ==> fs[i] == (Text.NatToString(i), xs[i])
  {
    if xs == [] then [] else IndexKeyed(xs[..|xs| - 1]) + [(Text.NatToString(|xs| - 1), xs[|xs| - 1])]
  }

  /** The walk of the converter, as a method: a fresh list filled key by key. */
  method ConvertNeo4jIntegers(v: Value, parse: Parser) returns (r: Value)
    ensures r == Converted(v, parse)
    decreases v, 0
  {
    if !v.Obj? && !v.Arr? {
      return v;
    }
    var entries := if v.Obj? then v.fields else IndexKeyed(v.items);
    var converted: seq<(string, Value)> := [];
    var i := 0;
    while i < |entries|
      invariant 0 <= i <= |entries|
      invariant converted == ConvertFields(entries[..i], parse)
    {
      var key := entries[i].0;
      var value := entries[i].1;
      assert v.Obj? ==> value == v.fields[i].1 && v.fields[i] in v.fields;
      assert v.Arr? ==> value == v.items[i] && v.items[i] in v.items;
      var c := ConvertValue(key, value, parse);
      ConvertFieldsPrefix(entries, i, parse);
      converted := converted + [(key, c)];
      i := i + 1;
    }
    assert entries[..i] == entries;
    if v.Arr? {
      ArraysBecomeIndexKeyed(v.items, parse);
    }
    r := Obj(converted);
  }

  lemma ConvertFieldsPrefix(fs: seq<(string, Value)>, i: nat, parse: Parser)
    requires i < |fs|
    ensures ConvertFields(fs[..i + 1], parse) == ConvertFields(fs[..i], parse) + [(fs[i].0, ConvertEntry(fs[i].0, fs[i].1, parse))]
  {
    assert fs[..i + 1][..i] == fs[..i];
  }

  /** The body of the converter's loop for one key and its value. */
  method ConvertValue(key: string, value: Value, parse: Parser) returns (c: Value)
    ensures c == ConvertEntry(key, value, parse)
    decreases value, 1
  {
    match value {
      case Integer(n) => c := Num(n);
      case Temporal(_, text) => c := Str(text);
      case Arr(_) => c := ConvertNeo4jIntegers(value, parse);
      case Obj(_) => c := ConvertNeo4jIntegers(value, parse);
      case Str(s) =>
        c := value;
        if key == "metadata" {
          var parsed := parse(s);
          c := if parsed.Some? then parsed.value else Obj([]);
        }
      case _ => c := value;
    }
  }

  /** The converter's output has exactly the input's keys, in order. */
  lemma {:induction false} ConvertKeepsKeys(fs: seq<(string, Value)>, parse: Parser)
    ensures Keys(ConvertFields(fs, parse)) == Keys(fs)
  {
    if fs != [] {
      ConvertKeepsKeys(fs[..|fs| - 1], parse);
    }
  }

  /** An array comes out as the object keyed "0", "1", ... holding the converted items. */
  lemma {:induction false} ArraysBecomeIndexKeyed(xs: seq<Value>, parse: Parser)
    ensures ConvertItems(xs, parse) == ConvertFields(IndexKeyed(xs), parse)
  {
    if xs != [] {
      ArraysBecomeIndexKeyed(xs[..|xs| - 1], parse);
      assert IndexKeyed(xs)[..|xs| - 1] == IndexKeyed(xs[..|xs| - 1]);
    }
  }

  lemma ConvertedArrayKeys(xs: seq<Value>, parse: Parser)
    ensures Converted(Arr(xs), parse).fields == ConvertItems(xs, parse)
    ensures Keys(ConvertItems(xs, parse)) == IndexKeys(|xs|)
  {
    ArraysBecomeIndexKeyed(xs, parse);
    ConvertKeepsKeys(IndexKeyed(xs), parse);
    IndexKeyedKeys(xs);
  }

  lemma IndexKeyedKeys(xs: seq<Value>)
    ensures Keys(IndexKeyed(xs)) == IndexKeys(|xs|)
  {
    var ks := Keys(IndexKeyed(xs));
    assert |ks| == |IndexKeys(|xs|)|;
    forall i | 0 <= i < |xs| ensures ks[i] == IndexKeys(|xs|)[i] {
      assert IndexKeyed(xs)[i] == (Text.NatToString(i), xs[i]);
    }
  }

  /** Looking a key up after conversion is converting what was found under it. */
  lemma {:induction false} LookupConverted(fs: seq<(string, Value)>, key: string, parse: Parser)
    ensures Lookup(ConvertFields(fs, parse), key) ==
            match Lookup(fs, key)
            case None => None
            case Some(v) => Some(ConvertEntry(key, v, parse))
  {
    ConvertKeepsKeys(fs, parse);
    if fs != [] {
      var c := ConvertFields(fs, parse);
      assert |c| == |fs|;
      if fs[0].0 == key {
        assert c[0] == (fs[0].0, ConvertEntry(fs[0].0, fs[0].1, parse)) by { ConvertFieldsAt(fs, 0, parse); }
      } else {
        assert c[0].0 != key by { assert Keys(c)[0] == Keys(fs)[0]; }
        ConvertFieldsTail(fs, parse);
        LookupConverted(fs[1..], key, parse);
      }
    }
  }

  lemma {:induction false} ConvertFieldsAt(fs: seq<(string, Value)>, i: nat, parse: Parser)
    requires i < |fs|
    ensures |ConvertFields(fs, parse)| == |fs|
    ensures ConvertFields(fs, parse)[i] == (fs[i].0, ConvertEntry(fs[i].0, fs[i].1, parse))
  {
    if i < |fs| - 1 {
      ConvertFieldsAt(fs[..|fs| - 1], i, parse);
    } else {
      ConvertKeepsKeys(fs[..|fs| - 1], parse);
    }
  }

  lemma {:induction false} ConvertFieldsTail(fs: seq<(string, Value)>, parse: Parser)
    requires fs != []
    ensures ConvertFields(fs, parse)[1..] == ConvertFields(fs[1..], parse)
  {
    if |fs| > 1 {
      ConvertFieldsTail(fs[..|fs| - 1], parse);
      assert fs[..|fs| - 1][1..] == fs[1..][..|fs[1..]| - 1];
    }
  }

  /** Every Integer becomes a number and every temporal value a string, at every depth,
      as long as what `JSON.parse` returns for metadata is itself plain. */
  lemma {:induction false} ConvertedIsPlain(v: Value, parse: Parser)
    requires forall s :: parse(s).Some? ==> Plain(parse(s).value)
    requires v.Obj? || v.Arr?
    ensures Plain(Converted(v, parse))
    decreases v, 1
  {
    var fs := Converted(v, parse).fields;
    forall i | 0 <= i < |fs| ensures Plain(fs[i].1) {
      var src := if v.Obj? then v.fields else IndexKeyed(v.items);
      if v.Arr? { ArraysBecomeIndexKeyed(v.items, parse); }
      ConvertFieldsAt(src, i, parse);
      assert v.Obj? ==> src[i] in v.fields;
      assert v.Arr? ==> src[i].1 == v.items[i];
      EntryIsPlain(src[i].0, src[i].1, parse);
    }
  }

  lemma {:induction false} EntryIsPlain(key: string, x: Value, parse: Parser)
    requires forall s :: parse(s).Some? ==> Plain(parse(s).value)
    ensures Plain(ConvertEntry(key, x, parse))
    decreases x, 2
  {
    match x
    case Arr(_) => ConvertedIsPlain(x, parse);
    case Obj(_) => ConvertedIsPlain(x, parse);
    case Str(s) =>
      if key == "metadata" && parse(s).Some? {
        assert Plain(parse(s).value);
      }
    case _ =>
  }

  /** Primitives (null, booleans, numbers, strings other than metadata) are copied as they are. */
  lemma PrimitivesCopied(key: string, x: Value, parse: Parser)
    requires x.Null? || x.Bool? || x.Num? || (x.Str? && key != "metadata")
    ensures ConvertEntry(key, x, parse) == x
  {
  }

  /** A metadata string is replaced by what it parses to, or by `{}` when parsing throws. */
  lemma MetadataParsed(s: string, parse: Parser)
    ensures ConvertEntry("metadata", Str(s), parse) == if parse(s).Some? then parse(s).value else Obj([])
  {
  }

  // ---------------------------------------------------------------------------
  // recordsToObjects

  /** A node or relationship (an object with truthy `properties`) is replaced by its properties. */
  function Unwrapped(v: Value): Value {
    match v
    case Obj(fs) =>
      var p := Lookup(fs, "properties");
      if p.Some? && Truthy(p.value) then p.value else v
    case _ => v
  }

  /** `obj[key] = value` on an association list: overwrite in place, or append. */
  function Put(fs: seq<(string, Value)>, key: string, v: Value): (r: seq<(string, Value)>)
    ensures key in Keys(fs) ==> Keys(r) == Keys(fs)
    ensures key !in Keys(fs) ==> r == fs + [(key, v)]
  {
    if fs == [] then [(key, v)]
    else if fs[0].0 == key then
      assert fs == [fs[0]] + fs[1..];
      KeysCons(fs[0], fs[1..]);
      KeysCons((key, v), fs[1..]);
      [(key, v)] + fs[1..]
    else
      assert fs == [fs[0]] + fs[1..];
      KeysCons(fs[0], fs[1..]);
      var rest := Put(fs[1..], key, v);
      KeysCons(fs[0], rest);
      assert key !in Keys(fs) ==> [fs[0]] + (fs[1..] + [(key, v)]) == fs + [(key, v)];
      [fs[0]] + rest
  }

  lemma KeysCons(x: (string, Value), rest: seq<(string, Value)>)
    ensures Keys([x] + rest) == [x.0] + Keys(rest)
  {
    var l, r := Keys([x] + rest), [x.0] + Keys(rest);
    assert |l| == |r|;
    forall i | 0 <= i < |l| ensures l[i] == r[i] {
      if i > 0 { assert ([x] + rest)[i] == rest[i - 1]; }
    }
  }

  /** The object that `recordsToObjects` builds for one record. */
  function RecordObject(rec: seq<(string, Value)>): seq<(string, Value)> {
    if rec == [] then []
    else
      var last := rec[|rec| - 1];
      Put(RecordObject(rec[..|rec| - 1]), last.0, Unwrapped(last.1))
  }

  predicate DistinctKeys(fs: seq<(string, Value)>) {
    forall i, j :: 0 <= i < j < |fs| ==> fs[i].0 != fs[j].0
  }

  /** `o` holds the keys of `rec` in order, each with the record's value unwrapped. */
  predicate Mirrors(o: seq<(string, Value)>, rec: seq<(string, Value)>) {
    |o| == |rec| && forall i :: 0 <= i < |rec| ==> o[i] == (rec[i].0, Unwrapped(rec[i].1))
  }

  /** With distinct record keys (as a RETURN clause gives), the object has the record's keys in
      order, each holding the record's value with nodes and relationships unwrapped. */
  lemma {:induction false} RecordObjectKeepsKeys(rec: seq<(string, Value)>)
    requires DistinctKeys(rec)
    ensures |RecordObject(rec)| == |rec|
    ensures forall i :: 0 <= i < |rec| ==> RecordObject(rec)[i] == (rec[i].0, Unwrapped(rec[i].1))
  {
    if rec != [] {
      var init := rec[..|rec| - 1];
      DistinctKeysPrefix(rec);
      RecordObjectKeepsKeys(init);
      var o := RecordObject(init);
      assert Mirrors(o, init);
      MirrorsKeys(o, init);
      RecordObjectAppends(rec);
      MirrorsStep(o, rec);
      assert Mirrors(RecordObject(rec), rec);
    }
  }

  lemma DistinctKeysPrefix(rec: seq<(string, Value)>)
    requires rec != [] && DistinctKeys(rec)
    ensures DistinctKeys(rec[..|rec| - 1])
    ensures rec[|rec| - 1].0 !in Keys(rec[..|rec| - 1])
  {
    var init := rec[..|rec| - 1];
    forall i, j | 0 <= i < j < |init| ensures init[i].0 != init[j].0 {
      assert init[i] == rec[i] && init[j] == rec[j];
    }
    forall i | 0 <= i < |init| ensures Keys(init)[i] != rec[|rec| - 1].0 {
      assert init[i] == rec[i];
    }
  }

  lemma MirrorsKeys(o: seq<(string, Value)>, rec: seq<(string, Value)>)
    requires Mirrors(o, rec)
    ensures Keys(o) == Keys(rec)
  {
    forall i | 0 <= i < |o| ensures Keys(o)[i] == Keys(rec)[i] {
      assert o[i] == (rec[i].0, Unwrapped(rec[i].1));
    }
  }

  lemma MirrorsStep(o: seq<(string, Value)>, rec: seq<(string, Value)>)
    requires rec != [] && Mirrors(o, rec[..|rec| - 1])
    ensures Mirrors(o + [(rec[|rec| - 1].0, Unwrapped(rec[|rec| - 1].1))], rec)
  {
    var r := o + [(rec[|rec| - 1].0, Unwrapped(rec[|rec| - 1].1))];
    forall i | 0 <= i < |rec| ensures r[i] == (rec[i].0, Unwrapped(rec[i].1)) {
      if i < |rec| - 1 { assert r[i] == o[i] && rec[..|rec| - 1][i] == rec[i]; }
    }
  }

  /** A last key the earlier ones do not hold is appended. */
  lemma RecordObjectAppends(rec: seq<(string, Value)>)
    requires rec != []
    requires rec[|rec| - 1].0 !in Keys(RecordObject(rec[..|rec| - 1]))
    ensures RecordObject(rec) == RecordObject(rec[..|rec| - 1]) + [(rec[|rec| - 1].0, Unwrapped(rec[|rec| - 1].1))]
  {
  }

  lemma RecordObjectPrefix(rec: seq<(string, Value)>, k: nat)
    requires k < |rec|
    ensures RecordObject(rec[..k + 1]) == Put(RecordObject(rec[..k]), rec[k].0, Unwrapped(rec[k].1))
  {
    assert rec[..k + 1][..k] == rec[..k];
  }

  method RecordsToObjects(records: seq<seq<(string, Value)>>) returns (objs: seq<Value>)
    ensures |objs| == |records|
    ensures forall i :: 0 <= i < |records| ==> objs[i] == Obj(RecordObject(records[i]))
  {
    objs := [];
    var r := 0;
    while r < |records|
      invariant 0 <= r <= |records|
      invariant |objs| == r
      invariant forall i :: 0 <= i < r ==> objs[i] == Obj(RecordObject(records[i]))
    {
      var rec := records[r];
      var obj: seq<(string, Value)> := [];
      var k := 0;
      while k < |rec|
        invariant 0 <= k <= |rec|
        invariant obj == RecordObject(rec[..k])
      {
        RecordObjectPrefix(rec, k);
        obj := Put(obj, rec[k].0, Unwrapped(rec[k].1));
        k := k + 1;
      }
      assert obj == RecordObject(rec) by { assert rec[..k] == rec; }
      objs := objs + [Obj(obj)];
      r := r + 1;
    }
  }
}
