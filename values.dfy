/** Plain values shared by the hooks: optional values, the primitive values that
    paint and layout objects hold, and the serialised snapshot of such an object. */
module Values {

  datatype Option<+T> = None | Some(value: T)

  /** A JavaScript string-valued prop is truthy when it is defined and not empty. */
  predicate Present(s: Option<string>)
  {
    s.Some? && s.value != ""
  }

  /** A primitive property value (numbers are JavaScript numbers, NaN excluded). */
  datatype Value = Num(n: real) | Str(s: string) | Bool(b: bool) | Null

  /** JavaScript truthiness of a property value. */
  predicate Truthy(v: Value)
  {
    match v
    case Num(n) => n != 0.0
    case Str(s) => s != ""
    case Bool(b) => b
    case Null => false
  }

  /** A paint or layout object: its own keys in enumeration order, each with its value. */
  type Props = seq<(string, Value)>

  predicate HasKey(p: Props, key: string)
  {
    exists i :: 0 <= i < |p| && p[i].0 == key
  }

  /** The keys of a JavaScript object are distinct. */
  ghost predicate DistinctKeys(p: Props)
  {
    forall i, j :: 0 <= i < j < |p| ==> p[i].0 != p[j].0
  }

  /** Property access `obj[key]`: the value stored under `key`, or undefined. */
  function Lookup(p: Props, key: string): (r: Option<Value>)
    ensures r.Some? <==> HasKey(p, key)
    ensures r.Some? ==> (key, r.value) in p
  {
    if p == [] then None
    else if p[0].0 == key then Some(p[0].1)
    else
      var r := Lookup(p[1..], key);
      assert HasKey(p[1..], key) ==> HasKey(p, key) by {
        if HasKey(p[1..], key) {
          var i :| 0 <= i < |p[1..]| && p[1..][i].0 == key;
          assert p[i + 1].0 == key;
        }
      }
      assert HasKey(p, key) ==> HasKey(p[1..], key) by {
        if HasKey(p, key) {
          var i :| 0 <= i < |p| && p[i].0 == key;
          assert i != 0;
          assert p[1..][i - 1].0 == key;
        }
      }
      r
  }

  /** In an object with distinct keys every entry is what a lookup of its key returns. */
  lemma {:induction false} LookupEntry(p: Props, i: nat)
    requires DistinctKeys(p)
    requires i < |p|
    ensures Lookup(p, p[i].0) == Some(p[i].1)
  {
    if i > 0 {
      assert p[0].0 != p[i].0;
      assert p[1..][i - 1] == p[i];
      LookupEntry(p[1..], i - 1);
    }
  }

  /** What a ref that holds `JSON.stringify(x)` contains: `Unset` is the ref's
      initial `''`, `Undefined` is the result of stringifying `undefined`, and
      `Json(p)` the text of an object. Two texts are equal exactly when the objects
      list the same keys with the same values in the same order. */
  datatype Snapshot = Unset | Undefined | Json(props: Props)

  function Serialize(p: Option<Props>): (s: Snapshot)
    ensures s != Unset
    ensures s.Json? <==> p.Some?
  {
    match p
    case None => Undefined
    case Some(q) => Json(q)
  }

  /** `JSON.parse` of a ref's contents: `None` where the parse throws (on `''` and on `undefined`). */
  function Parse(s: Snapshot): (r: Option<Props>)
    ensures r.Some? <==> s.Json?
  {
    match s
    case Json(q) => Some(q)
    case _ => None
  }

  /** GeoJSON data handed to a source: the text of an object, or a URL; only the
      empty URL `''` is falsy. Its content is opaque here. */
  datatype GeoJson = GeoJson(document: string)
}
