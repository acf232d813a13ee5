/**
 * The structured JSON value that serde's derived `Serialize` produces for a struct:
 * strings, arrays, and objects whose fields keep their declaration order.
 * Only the value tree is modelled, not its text encoding.
 */
module Json {
  import opened Wrappers

  datatype Json =
    | JString(str: string)
    | JArray(items: seq<Json>)
    | JObject(fields: seq<(string, Json)>)

  /** Serialises every element of a `Vec` with the element's own encoder, in order. */
  function MapSeq<A, B>(s: seq<A>, f: A -> B): (r: seq<B>)
    ensures |r| == |s|
    ensures forall i :: 0 <= i < |s| ==> r[i] == f(s[i])
  {
    if s == [] then [] else [f(s[0])] + MapSeq(s[1..], f)
  }

  /** Decodes every element of an array; fails as soon as one element fails. */
  function Traverse<B>(js: seq<Json>, f: Json -> Option<B>): (r: Option<seq<B>>)
    ensures r.Some? <==> forall i :: 0 <= i < |js| ==> f(js[i]).Some?
    ensures r.Some? ==> |r.value| == |js| && forall i :: 0 <= i < |js| ==> f(js[i]) == Some(r.value[i])
  {
    if js == [] then Some([])
    else
      match (f(js[0]), Traverse(js[1..], f))
      case (Some(x), Some(xs)) => Some([x] + xs)
      case _ => None
  }

  /** The value of the first field named `key`, if any. */
  function Field(fields: seq<(string, Json)>, key: string): Option<Json>
  {
    if fields == [] then None
    else if fields[0].0 == key then Some(fields[0].1)
    else Field(fields[1..], key)
  }

  /** The value stored under `key` in an object. */
  function ObjectField(j: Json, key: string): Option<Json>
  {
    match j
    case JObject(fields) => Field(fields, key)
    case _ => None
  }

  /** The string stored under `key` in an object. */
  function StringField(j: Json, key: string): Option<string>
  {
    match j
    case JObject(fields) =>
      (match Field(fields, key)
       case Some(JString(s)) => Some(s)
       case _ => None)
    case _ => None
  }

  /** The array stored under `key` in an object. */
  function ArrayField(j: Json, key: string): Option<seq<Json>>
  {
    match j
    case JObject(fields) =>
      (match Field(fields, key)
       case Some(JArray(items)) => Some(items)
       case _ => None)
    case _ => None
  }

  /** Every object key that occurs anywhere in a value. */
  function ObjectKeys(j: Json): set<string>
  {
    match j
    case JString(_) => {}
    case JArray(items) =>
      set i, k | 0 <= i < |items| && k in ObjectKeys(items[i]) :: k
    case JObject(fields) =>
      (set i | 0 <= i < |fields| :: fields[i].0)
      + (set i, k | 0 <= i < |fields| && k in ObjectKeys(fields[i].1) :: k)
  }

  /** Decoding the encoding of each element, element by element, gives the sequence back. */
  lemma {:induction false} TraverseInverts<A>(s: seq<A>, enc: A -> Json, dec: Json -> Option<A>)
    requires forall i :: 0 <= i < |s| ==> dec(enc(s[i])) == Some(s[i])
    ensures Traverse(MapSeq(s, enc), dec) == Some(s)
  {
    var r := Traverse(MapSeq(s, enc), dec);
    assert r.Some?;
    assert r.value == s;
  }

  /** An array's keys are bounded by a set that bounds each element's keys. */
  lemma ArrayKeysWithin(items: seq<Json>, bound: set<string>)
    requires forall i :: 0 <= i < |items| ==> ObjectKeys(items[i]) <= bound
    ensures ObjectKeys(JArray(items)) <= bound
  {
  }

  /** An object's keys are bounded by a set holding its own keys and bounding each value's keys. */
  lemma ObjectKeysWithin(fields: seq<(string, Json)>, bound: set<string>)
    requires forall i :: 0 <= i < |fields| ==> fields[i].0 in bound && ObjectKeys(fields[i].1) <= bound
    ensures ObjectKeys(JObject(fields)) <= bound
  {
  }

  /** An object's keys include each of its own keys and every key nested in its values. */
  lemma ObjectKeysInclude(fields: seq<(string, Json)>, i: nat)
    requires i < |fields|
    ensures fields[i].0 in ObjectKeys(JObject(fields))
    ensures ObjectKeys(fields[i].1) <= ObjectKeys(JObject(fields))
  {
  }

  /** An array's keys include those of each element. */
  lemma ArrayKeysInclude(items: seq<Json>, i: nat)
    requires i < |items|
    ensures ObjectKeys(items[i]) <= ObjectKeys(JArray(items))
  {
  }
}
