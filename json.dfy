/**
 * The browser's `localStorage` as the app uses it: a map from key to stored
 * text, where the text is either JSON (modelled by its parsed value), empty,
 * or something `JSON.parse` rejects. Objects keep their keys in insertion
 * order, as JavaScript objects with non-numeric keys do.
 */
module Json {
  import opened Wrappers
  import opened Strings

  /** A parsed JSON value; numbers are integers in this model. */
  datatype Json =
    | JNull
    | JBool(b: bool)
    | JNum(n: int)
    | JStr(s: string)
    | JArr(items: seq<Json>)
    | JObj(fields: seq<(string, Json)>)

  /** Property lookup in an object's field list: the value of the first field named `key`. */
  function Lookup(fields: seq<(string, Json)>, key: string): (r: Option<Json>)
    ensures r.Some? <==> exists k :: 0 <= k < |fields| && fields[k].0 == key
    ensures r.Some? ==> exists k :: 0 <= k < |fields| && fields[k] == (key, r.value)
    decreases |fields|
  {
    if fields == [] then None
    else if fields[0].0 == key then Some(fields[0].1)
    else
      var r := Lookup(fields[1..], key);
      assert forall k :: 1 <= k < |fields| ==> fields[k] == fields[1..][k - 1];
      r
  }

  predicate UniqueKeys(fields: seq<(string, Json)>)
  {
    forall i, j :: 0 <= i < j < |fields| ==> fields[i].0 != fields[j].0
  }

  /** In an object with distinct keys, the first key does not occur again. */
  lemma HeadNotInTail(fields: seq<(string, Json)>)
    requires fields != [] && UniqueKeys(fields)
    ensures UniqueKeys(fields[1..]) && Lookup(fields[1..], fields[0].0).None?
  {
    forall q | 0 <= q < |fields[1..]| ensures fields[1..][q].0 != fields[0].0 {
      assert fields[1..][q] == fields[q + 1];
    }
  }

  /** A field put in front of distinct keys that do not include its own keeps the keys distinct. */
  lemma ConsUnique(x: (string, Json), rest: seq<(string, Json)>)
    requires UniqueKeys(rest) && Lookup(rest, x.0).None?
    ensures UniqueKeys([x] + rest)
  {
    var r := [x] + rest;
    forall j | 0 < j < |r| ensures r[j].0 != x.0 {
      assert rest[j - 1].0 == r[j].0;
    }
  }

  /** `obj[key] = v`: overwrite the field in place if it exists, otherwise add it at the end. */
  function Put(fields: seq<(string, Json)>, key: string, v: Json): (r: seq<(string, Json)>)
    ensures Lookup(r, key) == Some(v)
    ensures forall k :: k != key ==> Lookup(r, k) == Lookup(fields, k)
    ensures UniqueKeys(fields) ==> UniqueKeys(r)
    decreases |fields|
  {
    if fields == [] then [(key, v)]
    else if fields[0].0 == key then [(key, v)] + fields[1..]
    else
      var rest := Put(fields[1..], key, v);
      var r := [fields[0]] + rest;
      assert forall k :: k != fields[0].0 ==> Lookup(r, k) == Lookup(rest, k);
      if UniqueKeys(fields) then
        HeadNotInTail(fields);
        ConsUnique(fields[0], rest);
        r
      else r
  }

  /** `v?.[key]` on a parsed value: `None` stands for `undefined`. */
  function Get(v: Json, key: string): (r: Option<Json>)
    ensures !v.JObj? ==> r.None?
  {
    if v.JObj? then Lookup(v.fields, key) else None
  }

  function GetOpt(v: Option<Json>, key: string): Option<Json>
  {
    if v.Some? then Get(v.value, key) else None
  }

  /** JavaScript truthiness; `None` is `undefined`. */
  predicate Truthy(v: Option<Json>)
  {
    match v
    case None => false
    case Some(JNull) => false
    case Some(JBool(b)) => b
    case Some(JNum(n)) => n != 0
    case Some(JStr(s)) => s != []
    case Some(_) => true
  }

  /** `x ?? y`: `x` unless it is `null` or `undefined`. */
  function Nullish(x: Option<Json>, y: Option<Json>): (r: Option<Json>)
    ensures (x.Some? && x.value != JNull) ==> r == x
    ensures (x.None? || x.value == JNull) ==> r == y
  {
    if x.Some? && x.value != JNull then x else y
  }

  /** `Array.isArray(x) ? x : []`. */
  function AsArray(v: Option<Json>): (r: seq<Json>)
    ensures v.Some? && v.value.JArr? ==> r == v.value.items
    ensures !(v.Some? && v.value.JArr?) ==> r == []
  {
    if v.Some? && v.value.JArr? then v.value.items else []
  }

  /** `x || y` on values: `x` when it is truthy, else `y`. */
  function Or(x: Option<Json>, y: Option<Json>): (r: Option<Json>)
    ensures Truthy(x) ==> r == x
    ensures !Truthy(x) ==> r == y
    ensures Truthy(r) <==> Truthy(x) || Truthy(y)
  {
    if Truthy(x) then x else y
  }

  /** `String(v)`, and `${v}` in a template: arrays join their items' texts with commas, `null` items as "". */
  function Text(v: Json): (r: string)
    decreases v
  {
    match v
    case JNull => "null"
    case JBool(b) => if b then "true" else "false"
    case JNum(n) => IntToString(n)
    case JStr(s) => s
    case JArr(items) =>
      Join(seq(|items|, k requires 0 <= k < |items| => if items[k] == JNull then "" else Text(items[k])), ',')
    case JObj(_) => "[object Object]"
  }

  /** The fields `{ ...v }` copies: an object's own fields, none for `null`, numbers and booleans. */
  function Spread(v: Json): (r: seq<(string, Json)>)
    ensures forall k :: Lookup(r, k) == Get(v, k)
  {
    if v.JObj? then v.fields else []
  }

  /** `{ ...base, ...more }`: the fields of `more` written over `base` one by one, in their order. */
  function Assign(base: seq<(string, Json)>, more: seq<(string, Json)>): (r: seq<(string, Json)>)
    ensures forall k :: Lookup(more, k).None? ==> Lookup(r, k) == Lookup(base, k)
    ensures forall k :: Lookup(more, k).Some? ==> Lookup(r, k).Some?
    decreases |more|
  {
    if more == [] then base
    else
      var r := Assign(Put(base, more[0].0, more[0].1), more[1..]);
      assert forall k :: k != more[0].0 && Lookup(more, k).None? ==> Lookup(more[1..], k).None?;
      r
  }

  /** `x && typeof x === "object"`: objects and arrays, not `null`. */
  predicate IsObjectLike(v: Json) { v.JObj? || v.JArr? }

  /** The text stored under a key. */
  datatype Raw =
    | Blank          // the empty string
    | Garbage        // non-empty text that is not JSON
    | Doc(v: Json)   // the text of a JSON document

  type Storage = map<string, Raw>

  /**
   * `JSON.parse(localStorage.getItem(key))`: an absent key reads as `null`,
   * which parses to `null`; `None` stands for the exception an empty or
   * malformed text raises.
   */
  function ParseItem(st: Storage, key: string): (r: Option<Json>)
    ensures key !in st ==> r == Some(JNull)
    ensures r.None? <==> key in st && !st[key].Doc?
  {
    if key !in st then Some(JNull)
    else match st[key]
      case Doc(v) => Some(v)
      case _ => None
  }

  /** `JSON.parse(localStorage.getItem(key) || text)`: absent or empty reads as `dflt`. */
  function ParseItemOr(st: Storage, key: string, dflt: Json): (r: Option<Json>)
    ensures (key !in st || st[key] == Blank) ==> r == Some(dflt)
    ensures r.None? <==> key in st && st[key] == Garbage
  {
    if key !in st then Some(dflt)
    else match st[key]
      case Blank => Some(dflt)
      case Garbage => None
      case Doc(v) => Some(v)
  }

  /** `safeParse(localStorage.getItem(key), fallback)`: the parse, or the fallback on an error or `null`. */
  function SafeParse(st: Storage, key: string, fallback: Json): (r: Json)
    ensures key !in st ==> r == fallback
    ensures key in st && st[key].Doc? && st[key].v != JNull ==> r == st[key].v
    ensures key in st && !st[key].Doc? ==> r == fallback
  {
    match ParseItem(st, key)
    case None => fallback
    case Some(JNull) => fallback
    case Some(v) => v
  }

  /** `if (raw)` on `localStorage.getItem(key)`: the key holds a non-empty text. */
  predicate Present(st: Storage, key: string)
  {
    key in st && st[key] != Blank
  }

  /**
   * The lookup over candidate keys that the analytics page (`readFirstExisting`)
   * and the e-mail export (`pick`) share: the first key holding a non-empty
   * text is read with `safeParse`, and the search stops there even when that
   * text is malformed; with no such key, the fallback.
   */
  function FirstExisting(st: Storage, keys: seq<string>, fallback: Json): (r: Json)
    decreases |keys|
  {
    if keys == [] then fallback
    else if Present(st, keys[0]) then SafeParse(st, keys[0], fallback)
    else FirstExisting(st, keys[1..], fallback)
  }

  /** The key that decides is the first present one: its parse, or the fallback when it is malformed or `null`. */
  lemma {:induction false} FirstExistingAt(st: Storage, keys: seq<string>, fallback: Json, i: nat)
    requires i < |keys| && Present(st, keys[i])
    requires forall j :: 0 <= j < i ==> !Present(st, keys[j])
    ensures st[keys[i]].Doc? && st[keys[i]].v != JNull ==> FirstExisting(st, keys, fallback) == st[keys[i]].v
    ensures !(st[keys[i]].Doc? && st[keys[i]].v != JNull) ==> FirstExisting(st, keys, fallback) == fallback
    decreases i
  {
    if i > 0 {
      FirstExistingAt(st, keys[1..], fallback, i - 1);
    }
  }

  /** With no candidate key present, the fallback. */
  lemma {:induction false} FirstExistingNone(st: Storage, keys: seq<string>, fallback: Json)
    requires forall j :: 0 <= j < |keys| ==> !Present(st, keys[j])
    ensures FirstExisting(st, keys, fallback) == fallback
    decreases |keys|
  {
    if keys != [] {
      FirstExistingNone(st, keys[1..], fallback);
    }
  }

  /** The loop of `readFirstExisting` and `pick`. */
  method ReadFirstExisting(st: Storage, keys: seq<string>, fallback: Json) returns (r: Json)
    ensures r == FirstExisting(st, keys, fallback)
  {
    var i := 0;
    while i < |keys|
      invariant 0 <= i <= |keys|
      invariant FirstExisting(st, keys[i..], fallback) == FirstExisting(st, keys, fallback)
    {
      if Present(st, keys[i]) {
        return SafeParse(st, keys[i], fallback);
      }
      assert keys[i..][1..] == keys[i + 1..];
      i := i + 1;
    }
    return fallback;
  }

  /** `localStorage.setItem(key, JSON.stringify(v))`. */
  function SetItem(st: Storage, key: string, v: Json): (r: Storage)
    ensures key in r && r[key] == Doc(v)
    ensures forall k :: k != key ==> (k in r <==> k in st) && (k in st ==> r[k] == st[k])
  {
    st[key := Doc(v)]
  }

  /** Storing a value and parsing it back gives the value (for non-`null` values with a fallback). */
  lemma SafeParseOfSet(st: Storage, key: string, v: Json, fallback: Json)
    requires v != JNull
    ensures SafeParse(SetItem(st, key, v), key, fallback) == v
  {
  }

  /**
   * `Number(x || 0)` on a stored field: falsy values are 0, `true` is 1, a
   * string of digits (white space around it allowed) is its value;
   * anything else is `NaN`, written `None`.
   */
  function NumberOf(v: Option<Json>): (r: Option<int>)
    ensures !Truthy(v) ==> r == Some(0)
    ensures v.Some? && v.value.JNum? ==> r == Some(v.value.n)
  {
    if !Truthy(v) then Some(0)
    else match v.value
      case JNum(n) => Some(n)
      case JBool(_) => Some(1)
      case JStr(s) => (match ParseNumber(Trim(s)) case Some(n) => Some(n) case None => None)
      case _ => None
  }

  /** `a + b` where `NaN` (`None`) absorbs. */
  function AddOpt(a: Option<int>, b: Option<int>): (r: Option<int>)
    ensures r.Some? <==> a.Some? && b.Some?
    ensures r.Some? ==> r.value == a.value + b.value
  {
    if a.Some? && b.Some? then Some(a.value + b.value) else None
  }

  /** Adding possibly-missing numbers is associative. */
  lemma AddOptAssoc(a: Option<int>, b: Option<int>, c: Option<int>)
    ensures AddOpt(a, AddOpt(b, c)) == AddOpt(AddOpt(a, b), c)
  {
  }

  /** A stored list: `safeParse(localStorage.getItem(key), [])`, taken as empty when it is not an array. */
  function StoredList(st: Storage, key: string): (r: seq<Json>)
    ensures key in st && st[key].Doc? && st[key].v.JArr? ==> r == st[key].v.items
    ensures key !in st || !st[key].Doc? ==> r == []
  {
    AsArray(Some(SafeParse(st, key, JArr([]))))
  }

  /** `{ ...obj, id, createdAt }`: the record with its id and creation time set, every other field kept in place. */
  function Stamped(fields: seq<(string, Json)>, id: string, createdAt: string): (r: seq<(string, Json)>)
    ensures Lookup(r, "id") == Some(JStr(id))
    ensures Lookup(r, "createdAt") == Some(JStr(createdAt))
    ensures forall k :: k != "id" && k != "createdAt" ==> Lookup(r, k) == Lookup(fields, k)
    ensures UniqueKeys(fields) ==> UniqueKeys(r)
  {
    Put(Put(fields, "id", JStr(id)), "createdAt", JStr(createdAt))
  }

  /** `x.id`, as `x.id !== id` compares it: `None` when `x` has no such field or is not an object. */
  function RecordId(x: Json): Option<Json>
  {
    Get(x, "id")
  }

  /** In an object without repeated keys every field is found by its own name. */
  lemma {:induction false} LookupUnique(fields: seq<(string, Json)>)
    requires UniqueKeys(fields)
    ensures forall i :: 0 <= i < |fields| ==> Lookup(fields, fields[i].0) == Some(fields[i].1)
    decreases |fields|
  {
    if fields != [] {
      LookupUnique(fields[1..]);
      forall i | 1 <= i < |fields| ensures Lookup(fields, fields[i].0) == Some(fields[i].1) {
        assert fields[i] == fields[1..][i - 1];
      }
    }
  }

  /** Keys that differ in length or in their first letter are distinct. */
  lemma KeysByShape(fields: seq<(string, Json)>)
    requires forall i :: 0 <= i < |fields| ==> fields[i].0 != []
    requires forall i, j :: 0 <= i < j < |fields| ==>
      |fields[i].0| != |fields[j].0| || fields[i].0[0] != fields[j].0[0]
    ensures UniqueKeys(fields)
  {
  }
}
