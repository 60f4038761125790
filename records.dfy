/**
 * Stored records as the pages that keep raw JSON objects update them:
 * `{ ...x, [key]: !x[key] }` on the record with a given id, and deletion
 * by id.
 */
module Records {
  import opened Wrappers
  import opened Lists
  import opened Json

  /** `x.id === id` for a string id. */
  predicate HasId(x: Json, id: string)
  {
    RecordId(x) == Some(JStr(id))
  }

  function IdIs(id: string): Json -> bool
  {
    (x: Json) => HasId(x, id)
  }

  function IdIsNot(id: string): Json -> bool
  {
    (x: Json) => !HasId(x, id)
  }

  /** `{ ...x, [key]: !x[key] }`: the flag negated by truthiness, every other field kept in place. */
  function Flip(x: Json, key: string): (r: Json)
    ensures x.JObj? ==> r.JObj? && Get(r, key) == Some(JBool(!Truthy(Get(x, key))))
    ensures x.JObj? ==> forall k :: k != key ==> Get(r, k) == Get(x, k)
  {
    if x.JObj? then JObj(Put(x.fields, key, JBool(!Truthy(Get(x, key))))) else x
  }

  function FlipOn(key: string): Json -> Json
  {
    (x: Json) => Flip(x, key)
  }

  /** The flag flipped on the records with that id; every other record kept, in order. */
  function Toggled(items: seq<Json>, id: string, key: string): (r: seq<Json>)
    ensures |r| == |items|
    ensures forall k :: 0 <= k < |items| && HasId(items[k], id) ==>
      Get(r[k], key) == Some(JBool(!Truthy(Get(items[k], key))))
      && forall f :: f != key ==> Get(r[k], f) == Get(items[k], f)
    ensures forall k :: 0 <= k < |items| && !HasId(items[k], id) ==> r[k] == items[k]
  {
    MapWhere(items, IdIs(id), FlipOn(key))
  }

  /** `items.filter((x) => x.id !== id)`. */
  function Deleted(items: seq<Json>, id: string): (r: seq<Json>)
    ensures forall k :: 0 <= k < |r| ==> !HasId(r[k], id) && r[k] in items
    ensures forall k :: 0 <= k < |items| && !HasId(items[k], id) ==> items[k] in r
    ensures |r| <= |items|
  {
    Filter(items, IdIsNot(id))
  }

  /** Deleting keeps the order: it distributes over concatenation. */
  lemma DeletedAppend(a: seq<Json>, b: seq<Json>, id: string)
    ensures Deleted(a + b, id) == Deleted(a, id) + Deleted(b, id)
  {
    FilterAppend(a, b, IdIsNot(id));
  }

  /** Deleting a record just put in front, when no other record has its id, gives back the list. */
  lemma DeleteFreshHead(x: Json, items: seq<Json>, id: string)
    requires HasId(x, id) && forall k :: 0 <= k < |items| ==> !HasId(items[k], id)
    ensures Deleted([x] + items, id) == items
  {
    DeletedAppend([x], items, id);
    FilterAll(items, IdIsNot(id));
    assert Deleted([x], id) == [];
  }

  /** Overwriting a field with the value it already has changes nothing. */
  lemma {:induction false} PutSame(fields: seq<(string, Json)>, key: string, v: Json)
    requires Lookup(fields, key) == Some(v)
    ensures Put(fields, key, v) == fields
    decreases |fields|
  {
    if fields[0].0 == key {
      assert fields[0] == (key, v);
      assert [(key, v)] + fields[1..] == fields;
    } else {
      assert Lookup(fields[1..], key) == Some(v);
      PutSame(fields[1..], key, v);
      assert [fields[0]] + fields[1..] == fields;
    }
  }

  /** Overwriting a field twice keeps only the second value. */
  lemma {:induction false} PutPut(fields: seq<(string, Json)>, key: string, v: Json, w: Json)
    ensures Put(Put(fields, key, v), key, w) == Put(fields, key, w)
    decreases |fields|
  {
    if fields != [] && fields[0].0 != key {
      PutPut(fields[1..], key, v, w);
    }
  }

  /** Flipping a boolean flag twice restores the record. */
  lemma FlipTwice(x: Json, key: string)
    requires x.JObj? && Get(x, key).Some? && Get(x, key).value.JBool?
    ensures Flip(Flip(x, key), key) == x
  {
    var b := Get(x, key).value.b;
    PutPut(x.fields, key, JBool(!b), JBool(b));
    PutSame(x.fields, key, JBool(b));
  }

  /** Toggling the same id twice restores a list whose matching records hold a boolean flag. */
  lemma ToggleTwice(items: seq<Json>, id: string, key: string)
    requires forall k :: 0 <= k < |items| && HasId(items[k], id) ==>
      items[k].JObj? && Get(items[k], key).Some? && Get(items[k], key).value.JBool?
    ensures Toggled(Toggled(items, id, key), id, key) == items
  {
    var once := Toggled(items, id, key);
    var twice := Toggled(once, id, key);
    forall k | 0 <= k < |items| ensures twice[k] == items[k] {
      if HasId(items[k], id) {
        FlipTwice(items[k], key);
      }
    }
  }
}
