/** JavaScript values as the change log, the probe and the monitor see them:
    JSON values plus `undefined`, together with the small amount of property
    access semantics the core relies on. */
module Json {

  datatype Option<+T> = None | Some(value: T) {
    function GetOr(default: T): T {
      match this
      case Some(v) => v
      case None => default
    }
  }

  datatype Result<+T, +E> = Ok(value: T) | Err(error: E)

  /** A JavaScript value that can be serialised as JSON, plus `undefined`.
      Numbers are integers (milliseconds, status codes, ages).  An object keeps
      its own properties in enumeration order, the order `Object.entries`
      lists them: keys that are array indices first, ascending, then the
      other keys in insertion order. */
  datatype Json =
    | Undefined
    | Null
    | Bool(b: bool)
    | Num(n: int)
    | Str(s: string)
    | Arr(items: seq<Json>)
    | Obj(fields: seq<(string, Json)>)

  /** `typeof v === "object"`: true for objects, arrays and `null`. */
  predicate IsObjectType(v: Json) {
    v.Obj? || v.Arr? || v.Null?
  }

  /** `v == null`: loose equality holds for `null` and `undefined` alike. */
  predicate IsNullish(v: Json) {
    v.Null? || v.Undefined?
  }

  /** The own property names of an object's field list. */
  function Keys(fields: seq<(string, Json)>): set<string> {
    if fields == [] then {} else {fields[0].0} + Keys(fields[1..])
  }

  /** The keys are exactly the names of the fields. */
  lemma {:induction false} KeysOf(fields: seq<(string, Json)>)
    ensures forall i :: 0 <= i < |fields| ==> fields[i].0 in Keys(fields)
    ensures forall k :: k in Keys(fields) ==> exists i :: 0 <= i < |fields| && fields[i].0 == k
  {
    if fields != [] {
      KeysOf(fields[1..]);
      forall i | 1 <= i < |fields|
        ensures fields[i].0 in Keys(fields)
      {
        assert fields[1..][i - 1] == fields[i];
      }
      forall k | k in Keys(fields[1..])
        ensures exists i :: 0 <= i < |fields| && fields[i].0 == k
      {
        var j :| 0 <= j < |fields[1..]| && fields[1..][j].0 == k;
        assert fields[j + 1].0 == k;
      }
    }
  }

  /** `obj[key]` on an object: the value stored under `key`, or `undefined`. */
  function Get(fields: seq<(string, Json)>, key: string): (v: Json)
    ensures key !in Keys(fields) ==> v == Undefined
  {
    if fields == [] then Undefined
    else if fields[0].0 == key then fields[0].1
    else Get(fields[1..], key)
  }

  /** `obj[key] = v`: overwrites an existing property in place, otherwise
      appends a new one at the end.  The filter assigns keys in the
      enumeration order of its own object, so appending keeps the result in
      that order too. */
  function Put(fields: seq<(string, Json)>, key: string, v: Json): (r: seq<(string, Json)>)
    ensures Keys(r) == Keys(fields) + {key}
    ensures Get(r, key) == v
    ensures forall k :: k != key ==> Get(r, k) == Get(fields, k)
  {
    if fields == [] then [(key, v)]
    else if fields[0].0 == key then [(key, v)] + fields[1..]
    else [fields[0]] + Put(fields[1..], key, v)
  }

  /** Decimal text of a natural number, as JavaScript prints an array index. */
  function NatToString(n: nat): string
    decreases n
  {
    var digit := ['0', '1', '2', '3', '4', '5', '6', '7', '8', '9'][n % 10];
    if n < 10 then [digit] else NatToString(n / 10) + [digit]
  }

  /** Decimal text of an integer, with a leading '-' when negative. */
  function IntToString(n: int): string {
    if n < 0 then "-" + NatToString(-n) else NatToString(n)
  }

  /** Looks `key` up among `items[from..]` by index name. */
  function ItemNamed(items: seq<Json>, key: string, from: nat): Json
    decreases |items| - from
  {
    if from >= |items| then Undefined
    else if NatToString(from) == key then items[from]
    else ItemNamed(items, key, from + 1)
  }

  /** `v[key]` for a non-null value: object properties, array elements by
      index name and the array's `length`; any other key reads `undefined`. */
  function Member(v: Json, key: string): Json {
    match v
    case Obj(fields) => Get(fields, key)
    case Arr(items) => if key == "length" then Num(|items|) else ItemNamed(items, key, 0)
    case _ => Undefined
  }

  /** `Object.entries(v)`: own enumerable properties in enumeration order.  Arrays and
      strings list their elements under index names; other primitives have none. */
  function Entries(v: Json): (es: seq<(string, Json)>)
    ensures v.Obj? ==> es == v.fields
  {
    match v
    case Obj(fields) => fields
    case Arr(items) => seq(|items|, i requires 0 <= i < |items| => (NatToString(i), items[i]))
    case Str(s) => seq(|s|, i requires 0 <= i < |s| => (NatToString(i), Str([s[i]])))
    case _ => []
  }

  /** A content hash.  MerkleJson is deterministic and, for the purposes of
      change detection, collision free: the digest of a value is modelled as
      the value itself, so equal digests mean equal values. */
  datatype Digest = Digest(of: Json)

  function HashOf(v: Json): Digest {
    Digest(v)
  }

  lemma HashDetectsChange(a: Json, b: Json)
    ensures HashOf(a) == HashOf(b) <==> a == b
  {
  }
}
