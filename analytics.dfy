/**
 * The analytics page: todos gathered from every key older versions of the
 * app used (flat arrays or per-day maps) and merged by id, work sessions and
 * goals from the first key that holds them, and the counts, percentages and
 * buckets its cards and charts show.
 */
module Analytics {
  import opened Wrappers
  import opened Strings
  import opened Lists
  import opened Json
  import opened Dates

  const TodoKeys: seq<string> :=
    ["taskflow_todos_today", "taskflow_todos_v1", "taskflow_tasks_v1", "taskflow_todos", "todos"]
  const SessionKeys: seq<string> := ["taskflow_work_sessions_v1", "taskflow_sessions_v1", "work_sessions"]
  const GoalKeys: seq<string> := ["taskflow_goals_v1", "goals_v1", "goals"]

  // ---------------------------------------------------------------- flags

  /**
   * `toBool`: booleans as they are, a number only when it is 1, a string
   * when its lower-cased, trimmed text is "true", "1" or "yes", anything
   * else by truthiness.
   */
  function ToBool(v: Option<Json>): (r: bool)
    ensures r ==> Truthy(v)
    ensures v.Some? && v.value.JBool? ==> r == v.value.b
    ensures v.Some? && v.value.JNum? ==> (r <==> v.value.n == 1)
    ensures v.None? || v.value.JNull? || v.value.JArr? || v.value.JObj? ==> r == Truthy(v)
  {
    match v
    case Some(JBool(b)) => b
    case Some(JNum(n)) => n == 1
    case Some(JStr(s)) =>
      var t := Trim(Lower(s));
      t == "true" || t == "1" || t == "yes"
    case _ => Truthy(v)
  }

  /** A string "yes" reads true in any case and with a blank after it. */
  lemma ToBoolYes()
    ensures ToBool(Some(JStr("Yes ")))
  {
    assert Lower("Yes ") == "yes" + [' '];
    TrimPadded("yes");
  }

  /** A string "true" reads true in any case. */
  lemma ToBoolTrue()
    ensures ToBool(Some(JStr("TRUE")))
  {
    assert Lower("TRUE") == "true";
    TrimOfTrimmed("true");
  }

  /** Other strings read false, even though they are truthy. */
  lemma ToBoolNo()
    ensures !ToBool(Some(JStr("no"))) && !ToBool(Some(JStr("2")))
    ensures Truthy(Some(JStr("no"))) && Truthy(Some(JStr("2")))
  {
    assert Lower("no") == "no";
    TrimOfTrimmed("no");
    assert Lower("2") == "2";
    TrimOfTrimmed("2");
  }

  // ---------------------------------------------------------------- per-day maps

  /** `{ ...x, date: x?.date || day }`: the item as an object, with its own date when truthy, else `day`. */
  function WithDate(x: Json, day: string): (r: Json)
    ensures r.JObj?
  {
    var d := if Truthy(Get(x, "date")) then Get(x, "date").value else JStr(day);
    JObj(Put(Spread(x), "date", d))
  }

  /** The item keeps every field but `date`, which is its own when truthy and the day otherwise. */
  lemma WithDateFields(x: Json, day: string)
    ensures Truthy(Get(x, "date")) ==> Get(WithDate(x, day), "date") == Get(x, "date")
    ensures !Truthy(Get(x, "date")) ==> Get(WithDate(x, day), "date") == Some(JStr(day))
    ensures forall k :: k != "date" ==> Get(WithDate(x, day), k) == Get(x, k)
  {
  }

  function Dated(items: seq<Json>, day: string): (r: seq<Json>)
    ensures |r| == |items|
    ensures forall k :: 0 <= k < |items| ==> r[k] == WithDate(items[k], day)
  {
    seq(|items|, k requires 0 <= k < |items| => WithDate(items[k], day))
  }

  lemma DatedSnoc(items: seq<Json>, j: nat, day: string)
    requires j < |items|
    ensures Dated(items[..j + 1], day) == Dated(items[..j], day) + [WithDate(items[j], day)]
  {
  }

  /** One entry of a per-day map: its items dated by the entry's key, nothing when the value is not an array. */
  function EntryItems(entry: (string, Json)): (r: seq<Json>)
  {
    if entry.1.JArr? then Dated(entry.1.items, entry.0) else []
  }

  /** The items of every entry, entry after entry. */
  function Flat(entries: seq<(string, Json)>): (r: seq<Json>)
    decreases |entries|
  {
    if entries == [] then [] else Flat(entries[..|entries| - 1]) + EntryItems(entries[|entries| - 1])
  }

  lemma FlatSnoc(entries: seq<(string, Json)>, i: nat)
    requires i < |entries|
    ensures Flat(entries[..i + 1]) == Flat(entries[..i]) + EntryItems(entries[i])
  {
    assert entries[..i + 1][..i] == entries[..i];
  }

  /** What `flattenPerDayMap` gives: nothing for a value that is not a plain object. */
  function Flattened(obj: Json): (r: seq<Json>)
  {
    if obj.JObj? then Flat(obj.fields) else []
  }

  /** The inner loop of `flattenPerDayMap`: the day's items pushed one by one, each dated. */
  method PushDated(out: seq<Json>, items: seq<Json>, day: string) returns (r: seq<Json>)
    ensures r == out + Dated(items, day)
  {
    r := out;
    var j := 0;
    while j < |items|
      invariant 0 <= j <= |items|
      invariant r == out + Dated(items[..j], day)
    {
      DatedSnoc(items, j, day);
      r := r + [WithDate(items[j], day)];
      j := j + 1;
    }
    assert items[..j] == items;
  }

  /** `flattenPerDayMap`: every array in the map, its items dated by their day, pushed in order. */
  method FlattenPerDayMap(obj: Json) returns (out: seq<Json>)
    ensures out == Flattened(obj)
  {
    out := [];
    if !obj.JObj? {
      return;
    }
    var entries := obj.fields;
    var i := 0;
    while i < |entries|
      invariant 0 <= i <= |entries|
      invariant out == Flat(entries[..i])
    {
      FlatSnoc(entries, i);
      var dateKey, arr := entries[i].0, entries[i].1;
      if arr.JArr? {
        out := PushDated(out, arr.items, dateKey);
      }
      i := i + 1;
    }
    assert entries[..i] == entries;
  }

  /** The map holds as many items as its array values together. */
  function ItemCount(entries: seq<(string, Json)>): (n: nat)
    decreases |entries|
  {
    if entries == [] then 0
    else ItemCount(entries[..|entries| - 1]) + (var v := entries[|entries| - 1].1; if v.JArr? then |v.items| else 0)
  }

  /** Flattening keeps every item of every array, and makes each an object. */
  lemma {:induction false} FlatFacts(entries: seq<(string, Json)>)
    ensures |Flat(entries)| == ItemCount(entries)
    ensures forall k :: 0 <= k < |Flat(entries)| ==> Flat(entries)[k].JObj?
    decreases |entries|
  {
    if entries != [] {
      FlatFacts(entries[..|entries| - 1]);
    }
  }

  /** `readDayStoreOrArray`: a flat array's items dated today, else the flattened map. */
  function ReadDayStoreOrArray(raw: Json, today: string): (r: seq<Json>)
  {
    if raw.JArr? then Dated(raw.items, today) else Flattened(raw)
  }

  /** Every item read is an object; an array keeps its length, a map its item count, anything else reads as nothing. */
  lemma ReadDayStoreFacts(raw: Json, today: string)
    ensures forall k :: 0 <= k < |ReadDayStoreOrArray(raw, today)| ==> ReadDayStoreOrArray(raw, today)[k].JObj?
    ensures raw.JArr? ==> |ReadDayStoreOrArray(raw, today)| == |raw.items|
    ensures raw.JObj? ==> |ReadDayStoreOrArray(raw, today)| == ItemCount(raw.fields)
    ensures !raw.JArr? && !raw.JObj? ==> ReadDayStoreOrArray(raw, today) == []
  {
    if raw.JObj? {
      FlatFacts(raw.fields);
    }
  }

  /** A legacy flat array reads exactly as the per-day map holding it under today. */
  lemma LegacyArrayIsToday(items: seq<Json>, today: string)
    ensures ReadDayStoreOrArray(JArr(items), today) == ReadDayStoreOrArray(JObj([(today, JArr(items))]), today)
  {
    var entries := [(today, JArr(items))];
    assert entries[..0] == [];
    assert Flat(entries) == Flat([]) + EntryItems(entries[0]);
  }

  // ---------------------------------------------------------------- merging the todo keys

  /** What one key adds to the merge: nothing when absent, empty, unreadable or `null`. */
  function KeyTodos(st: Storage, key: string, today: string): (r: seq<Json>)
    ensures !Present(st, key) ==> r == []
  {
    if Present(st, key) && st[key].Doc? && st[key].v != JNull then ReadDayStoreOrArray(st[key].v, today) else []
  }

  /** The lists of `keys`, key after key. */
  function Merged(st: Storage, keys: seq<string>, today: string): (r: seq<Json>)
    decreases |keys|
  {
    if keys == [] then [] else Merged(st, keys[..|keys| - 1], today) + KeyTodos(st, keys[|keys| - 1], today)
  }

  /** The merge loop over `TODO_KEYS`. */
  method MergeTodoKeys(st: Storage, keys: seq<string>, today: string) returns (merged: seq<Json>)
    ensures merged == Merged(st, keys, today)
  {
    merged := [];
    var i := 0;
    while i < |keys|
      invariant 0 <= i <= |keys|
      invariant merged == Merged(st, keys[..i], today)
    {
      assert keys[..i + 1][..i] == keys[..i];
      var k := keys[i];
      if Present(st, k) {
        var parsed := SafeParse(st, k, JNull);
        if parsed != JNull {
          merged := merged + ReadDayStoreOrArray(parsed, today);
        }
      }
      i := i + 1;
    }
    assert keys[..i] == keys;
  }

  /** Keys holding nothing do not change the merge: only the keys that hold a list contribute. */
  lemma {:induction false} MergedSkipsAbsent(st: Storage, keys: seq<string>, key: string, today: string)
    requires !Present(st, key)
    ensures Merged(st, keys + [key], today) == Merged(st, keys, today)
  {
    assert (keys + [key])[..|keys|] == keys;
  }

  // ---------------------------------------------------------------- de-duplication

  /** `t.done ?? t.completed ?? t.isDone ?? t.checked`, read with `toBool`. */
  function DoneOf(t: Json): (r: bool)
    ensures r ==> Truthy(Nullish(Get(t, "done"), Nullish(Get(t, "completed"), Nullish(Get(t, "isDone"), Get(t, "checked")))))
  {
    ToBool(Nullish(Get(t, "done"), Nullish(Get(t, "completed"), Nullish(Get(t, "isDone"), Get(t, "checked")))))
  }

  /** The todo's text: `text` when it is a string, else `title` when that is, else `String(text ?? title ?? "")`. */
  function TextOf(t: Json): (r: string)
    ensures (Get(t, "text").Some? && Get(t, "text").value.JStr?) ==> r == Get(t, "text").value.s
    ensures Get(t, "text").None? && Get(t, "title").None? ==> r == ""
  {
    match Get(t, "text")
    case Some(JStr(s)) => s
    case _ =>
      match Get(t, "title")
      case Some(JStr(s)) => s
      case _ => Text(Nullish(Nullish(Get(t, "text"), Get(t, "title")), Some(JStr(""))).value)
  }

  /** The de-duplication key: the id, else `${text}-${date ?? ""}`. */
  function KeyOf(t: Json): (r: Json)
    ensures Get(t, "id").Some? && Get(t, "id").value != JNull ==> r == Get(t, "id").value
  {
    var date := Nullish(Get(t, "date"), Some(JStr(""))).value;
    Nullish(Get(t, "id"), Some(JStr(TextOf(t) + "-" + Text(date)))).value
  }

  /** The record kept the first time a key is seen: `{ ...t, text, done }`. */
  function Fresh(t: Json): (r: Json)
    ensures r.JObj? && Get(r, "done") == Some(JBool(DoneOf(t))) && Get(r, "text") == Some(JStr(TextOf(t)))
  {
    JObj(Put(Put(Spread(t), "text", JStr(TextOf(t))), "done", JBool(DoneOf(t))))
  }

  /** The record after a collision: `{ ...prev, ...t, text, done: prev.done || done }`. */
  function Merge(prev: Json, t: Json): (r: Json)
    ensures r.JObj? && Get(r, "done") == Some(JBool(Truthy(Get(prev, "done")) || DoneOf(t)))
    ensures Get(r, "text") == Some(JStr(TextOf(t)))
  {
    JObj(Put(Put(Assign(Spread(prev), Spread(t)), "text", JStr(TextOf(t))), "done",
             JBool(Truthy(Get(prev, "done")) || DoneOf(t))))
  }

  /**
   * A `Map` kept as its entries in insertion order. `set` on a new key adds
   * an entry at the end; on a known key it replaces the value where it stands.
   */
  function FindKey<K(==), T>(m: seq<(K, T)>, key: K): (i: nat)
    ensures i <= |m| && (i < |m| ==> m[i].0 == key)
    ensures forall j :: 0 <= j < i ==> m[j].0 != key
    decreases |m|
  {
    if m == [] then 0
    else if m[0].0 == key then 0
    else 1 + FindKey(m[1..], key)
  }

  /** One step of the de-duplication loop: `firstSeen(t)` under a new key, else `merge(prev, t)`. */
  function UpsertBy<K(==), T>(m: seq<(K, T)>, t: T, key: T -> K, firstSeen: T -> T, merge: (T, T) -> T): (r: seq<(K, T)>)
  {
    var k := key(t);
    var i := FindKey(m, k);
    if i == |m| then m + [(k, firstSeen(t))] else m[i := (k, merge(m[i].1, t))]
  }

  function DedupeBy<K(==), T>(items: seq<T>, key: T -> K, firstSeen: T -> T, merge: (T, T) -> T): (r: seq<(K, T)>)
    decreases |items|
  {
    if items == [] then []
    else UpsertBy(DedupeBy(items[..|items| - 1], key, firstSeen, merge), items[|items| - 1], key, firstSeen, merge)
  }

  /** Some item with this key satisfies `hit`. */
  function AnyBy<K(==), T>(items: seq<T>, k: K, key: T -> K, hit: T -> bool): (b: bool)
    decreases |items|
  {
    if items == [] then false
    else AnyBy(items[..|items| - 1], k, key, hit) || (key(items[|items| - 1]) == k && hit(items[|items| - 1]))
  }

  lemma {:induction false} AnyByIff<K, T>(items: seq<T>, k: K, key: T -> K, hit: T -> bool)
    ensures AnyBy(items, k, key, hit) <==> exists j :: 0 <= j < |items| && key(items[j]) == k && hit(items[j])
    decreases |items|
  {
    if items != [] {
      var init := items[..|items| - 1];
      AnyByIff(init, k, key, hit);
      assert forall j :: 0 <= j < |init| ==> init[j] == items[j];
    }
  }

  /** Each key appears in one entry at most. */
  ghost predicate KeysUnique<K, T>(m: seq<(K, T)>)
  {
    forall i, j :: 0 <= i < j < |m| ==> m[i].0 != m[j].0
  }

  /** Every item's key has an entry. */
  ghost predicate KeysCovered<K, T>(items: seq<T>, m: seq<(K, T)>, key: T -> K)
  {
    forall j :: 0 <= j < |items| ==> FindKey(m, key(items[j])) < |m|
  }

  /** Every entry's key is some item's key. */
  ghost predicate KeysFromItems<K, T>(items: seq<T>, m: seq<(K, T)>, key: T -> K)
  {
    forall i :: 0 <= i < |m| ==> exists j :: 0 <= j < |items| && key(items[j]) == m[i].0
  }

  /** Each entry's flag is set exactly when some item with its key hits. */
  ghost predicate FlagsBy<K, T>(items: seq<T>, m: seq<(K, T)>, key: T -> K, flag: T -> bool, hit: T -> bool)
  {
    forall i :: 0 <= i < |m| ==> flag(m[i].1) == AnyBy(items, m[i].0, key, hit)
  }

  /**
   * What the de-duplication keeps: no more entries than items, each key once,
   * every item's key present, every key some item's, and each entry's flag
   * set exactly when some item with its key hits.
   */
  ghost predicate KeptBy<K, T>(items: seq<T>, m: seq<(K, T)>, key: T -> K, flag: T -> bool, hit: T -> bool)
  {
    && |m| <= |items|
    && KeysUnique(m)
    && KeysCovered(items, m, key)
    && KeysFromItems(items, m, key)
    && FlagsBy(items, m, key, flag, hit)
  }

  /** A key with no entry is no item's key, so no item with it hits. */
  lemma NewKeyMisses<K, T>(items: seq<T>, m: seq<(K, T)>, k: K, key: T -> K, hit: T -> bool)
    requires KeysCovered(items, m, key) && FindKey(m, k) == |m|
    ensures !AnyBy(items, k, key, hit)
  {
    forall j | 0 <= j < |items| ensures key(items[j]) != k {
      assert FindKey(m, key(items[j])) < |m|;
    }
    AnyByIff(items, k, key, hit);
  }

  lemma UpsertUnique<K, T>(m: seq<(K, T)>, t: T, key: T -> K, firstSeen: T -> T, merge: (T, T) -> T)
    requires KeysUnique(m)
    ensures KeysUnique(UpsertBy(m, t, key, firstSeen, merge))
  {
  }

  lemma UpsertCovers<K, T>(init: seq<T>, m: seq<(K, T)>, t: T, key: T -> K, firstSeen: T -> T, merge: (T, T) -> T)
    requires KeysCovered(init, m, key)
    ensures KeysCovered(init + [t], UpsertBy(m, t, key, firstSeen, merge), key)
  {
    var items := init + [t];
    var i := FindKey(m, key(t));
    var r := UpsertBy(m, t, key, firstSeen, merge);
    forall j | 0 <= j < |items| ensures FindKey(r, key(items[j])) < |r| {
      if j < |init| {
        assert items[j] == init[j];
        assert r[FindKey(m, key(init[j]))].0 == key(init[j]);
      } else {
        assert r[if i == |m| then |m| else i].0 == key(t);
      }
    }
  }

  lemma UpsertFromItems<K, T>(init: seq<T>, m: seq<(K, T)>, t: T, key: T -> K, firstSeen: T -> T, merge: (T, T) -> T)
    requires KeysFromItems(init, m, key)
    ensures KeysFromItems(init + [t], UpsertBy(m, t, key, firstSeen, merge), key)
  {
    var items := init + [t];
    var r := UpsertBy(m, t, key, firstSeen, merge);
    forall e | 0 <= e < |r| ensures exists j :: 0 <= j < |items| && key(items[j]) == r[e].0 {
      if e < |m| {
        assert r[e].0 == m[e].0;
        var j :| 0 <= j < |init| && key(init[j]) == m[e].0;
        assert items[j] == init[j];
      } else {
        assert items[|init|] == t;
      }
    }
    assert forall e :: 0 <= e < |r| ==> exists j :: 0 <= j < |items| && key(items[j]) == r[e].0;
  }

  lemma UpsertFlags<K, T>(init: seq<T>, m: seq<(K, T)>, t: T, key: T -> K, firstSeen: T -> T, merge: (T, T) -> T,
                          flag: T -> bool, hit: T -> bool)
    requires forall x :: flag(firstSeen(x)) == hit(x)
    requires forall p, x :: flag(merge(p, x)) == (flag(p) || hit(x))
    requires KeysUnique(m) && KeysCovered(init, m, key) && FlagsBy(init, m, key, flag, hit)
    ensures FlagsBy(init + [t], UpsertBy(m, t, key, firstSeen, merge), key, flag, hit)
  {
    var items := init + [t];
    var k := key(t);
    var i := FindKey(m, k);
    var r := UpsertBy(m, t, key, firstSeen, merge);
    assert items[..|items| - 1] == init;
    if i == |m| {
      NewKeyMisses(init, m, k, key, hit);
    }
    forall e | 0 <= e < |r|
      ensures flag(r[e].1) == AnyBy(items, r[e].0, key, hit)
    {
      if r[e].0 != k {
        assert r[e] == m[e];
      } else if i == |m| {
        assert e == |m|;
      } else {
        assert e == i;
      }
    }
  }

  lemma UpsertKeeps<K, T>(init: seq<T>, m: seq<(K, T)>, t: T, key: T -> K, firstSeen: T -> T, merge: (T, T) -> T,
                          flag: T -> bool, hit: T -> bool)
    requires forall x :: flag(firstSeen(x)) == hit(x)
    requires forall p, x :: flag(merge(p, x)) == (flag(p) || hit(x))
    requires KeptBy(init, m, key, flag, hit)
    ensures KeptBy(init + [t], UpsertBy(m, t, key, firstSeen, merge), key, flag, hit)
  {
    UpsertUnique(m, t, key, firstSeen, merge);
    UpsertCovers(init, m, t, key, firstSeen, merge);
    UpsertFromItems(init, m, t, key, firstSeen, merge);
    UpsertFlags(init, m, t, key, firstSeen, merge, flag, hit);
  }

  lemma {:induction false} DedupeKeeps<K, T>(items: seq<T>, key: T -> K, firstSeen: T -> T, merge: (T, T) -> T,
                                                 flag: T -> bool, hit: T -> bool)
    requires forall x :: flag(firstSeen(x)) == hit(x)
    requires forall p, x :: flag(merge(p, x)) == (flag(p) || hit(x))
    ensures KeptBy(items, DedupeBy(items, key, firstSeen, merge), key, flag, hit)
    decreases |items|
  {
    if items != [] {
      var init, t := items[..|items| - 1], items[|items| - 1];
      DedupeKeeps(init, key, firstSeen, merge, flag, hit);
      UpsertKeeps(init, DedupeBy(init, key, firstSeen, merge), t, key, firstSeen, merge, flag, hit);
      assert init + [t] == items;
    }
  }

  /** The todos' `byKey` map. */
  function Deduped(todos: seq<Json>): (r: seq<(Json, Json)>)
  {
    DedupeBy(todos, KeyOf, Fresh, Merge)
  }

  function Values(m: seq<(Json, Json)>): (r: seq<Json>)
    ensures |r| == |m| && forall i :: 0 <= i < |m| ==> r[i] == m[i].1
  {
    seq(|m|, i requires 0 <= i < |m| => m[i].1)
  }

  /** The de-duplication loop and `Array.from(byKey.values())`. */
  method Dedupe(merged: seq<Json>) returns (todos: seq<Json>)
    ensures todos == Values(Deduped(merged))
  {
    var byKey: seq<(Json, Json)> := [];
    var i := 0;
    while i < |merged|
      invariant 0 <= i <= |merged|
      invariant byKey == DedupeBy(merged[..i], KeyOf, Fresh, Merge)
    {
      assert merged[..i + 1][..i] == merged[..i];
      byKey := UpsertBy(byKey, merged[i], KeyOf, Fresh, Merge);
      i := i + 1;
    }
    assert merged[..i] == merged;
    todos := Values(byKey);
  }

  /** The `done` flag of a kept record. */
  predicate DoneFlag(t: Json) { Truthy(Get(t, "done")) }

  /**
   * At most one record per key, one for every key that occurs, and each
   * record is done exactly when some todo with its key is done ("done wins").
   */
  lemma DedupedFacts(todos: seq<Json>)
    ensures KeptBy(todos, Deduped(todos), KeyOf, DoneFlag, DoneOf)
  {
    DedupeKeeps(todos, KeyOf, Fresh, Merge, DoneFlag, DoneOf);
  }

  // ---------------------------------------------------------------- the todo card

  datatype TodoSummary = TodoSummary(total: nat, completed: nat, pct: nat)

  function Finished(t: Json): bool
  {
    Truthy(Get(t, "done")) || Truthy(Get(t, "completed")) || Truthy(Get(t, "isDone"))
  }

  /** `todoStats`: the count, the finished count and the rounded percentage, 0 for no todos. */
  function TodoStats(todos: seq<Json>): (s: TodoSummary)
    ensures s.total == |todos| && s.completed <= s.total
    ensures s.completed == |Filter(todos, Finished)|
    ensures RoundedPercent(s.pct, s.completed, s.total)
    ensures s.pct <= 100 && (s.total == 0 ==> s.pct == 0)
    ensures s.total > 0 && s.completed == s.total ==> s.pct == 100
  {
    var done := Count(todos, Finished);
    TodoSummary(|todos|, done, Percent(done, |todos|))
  }

  // ---------------------------------------------------------------- the goal card

  /** `Math.max(lo, Math.min(hi, x))`. */
  function Clamp(x: real, lo: real, hi: real): (r: real)
    requires lo <= hi
    ensures lo <= r <= hi
    ensures lo <= x <= hi ==> r == x
  {
    var low := if hi < x then hi else x;
    if lo > low then lo else low
  }

  /** `Math.round`: halves go up. */
  function Round(x: real): (n: int)
    ensures x - 0.5 < n as real <= x + 0.5
  {
    (x + 0.5).Floor
  }

  /** `g.completed || g.done || g.status === "completed"`. */
  predicate GoalDone(g: Json)
  {
    Truthy(Get(g, "completed")) || Truthy(Get(g, "done")) || Get(g, "status") == Some(JStr("completed"))
  }

  predicate GoalActive(g: Json) { !GoalDone(g) }

  /**
   * One goal's progress: its numeric `progress`, else `current / target`
   * as a percentage when the target is positive, each clamped to 0..100;
   * else 100 for a finished goal and 0 for an active one.
   */
  function Progress(g: Json): (p: real)
    ensures 0.0 <= p <= 100.0
  {
    match Get(g, "progress")
    case Some(JNum(p)) => Clamp(p as real, 0.0, 100.0)
    case _ =>
      match (Get(g, "current"), Get(g, "target"))
      case (Some(JNum(c)), Some(JNum(t))) =>
        if t > 0 then Clamp(c as real / t as real * 100.0, 0.0, 100.0)
        else if GoalDone(g) then 100.0 else 0.0
      case _ => if GoalDone(g) then 100.0 else 0.0
  }

  function ProgressSum(goals: seq<Json>): (r: real)
    ensures 0.0 <= r <= 100.0 * |goals| as real
    decreases |goals|
  {
    if goals == [] then 0.0 else ProgressSum(goals[..|goals| - 1]) + Progress(goals[|goals| - 1])
  }

  /** The mean of values between 0 and 100 is between 0 and 100. */
  lemma MeanBounds(sum: real, n: nat)
    requires n > 0 && 0.0 <= sum <= 100.0 * n as real
    ensures 0.0 <= sum / n as real <= 100.0
  {
    var d := n as real;
    var a := sum / d;
    assert a * d == sum;
  }

  /** Rounding a value between 0 and 100 stays between 0 and 100. */
  lemma RoundBounds(a: real)
    requires 0.0 <= a <= 100.0
    ensures 0 <= Round(a) <= 100
  {
  }

  datatype GoalSummary = GoalSummary(total: nat, active: nat, completed: nat, avg: int)

  /**
   * `goalStats`: active and finished goals add up to all goals, and the
   * rounded average progress is between 0 and 100, 0 without goals.
   */
  method GoalStats(goals: seq<Json>) returns (s: GoalSummary)
    ensures s.total == |goals| && s.active == Count(goals, GoalActive)
    ensures s.active + s.completed == s.total
    ensures s.avg == if goals == [] then 0 else Round(ProgressSum(goals) / |goals| as real)
    ensures 0 <= s.avg <= 100
  {
    var total := |goals|;
    var active := Count(goals, GoalActive);
    var sumProgress := SumProgress(goals);
    var avg := MeanPercent(sumProgress, total);
    s := GoalSummary(total, active, total - active, avg);
  }

  /** The `reduce` adding up the goals' progress, first to last. */
  method SumProgress(goals: seq<Json>) returns (sum: real)
    ensures sum == ProgressSum(goals)
  {
    sum := 0.0;
    var i := 0;
    while i < |goals|
      invariant 0 <= i <= |goals|
      invariant sum == ProgressSum(goals[..i])
    {
      assert goals[..i + 1][..i] == goals[..i];
      sum := sum + Progress(goals[i]);
      i := i + 1;
    }
    assert goals[..i] == goals;
  }

  /** `Math.round(sum / n)`, or 0 when there is nothing to average. */
  function MeanPercent(sum: real, n: nat): (r: int)
    requires 0.0 <= sum <= 100.0 * n as real
    ensures n == 0 ==> r == 0
    ensures n > 0 ==> r == Round(sum / n as real)
    ensures 0 <= r <= 100
  {
    if n == 0 then 0
    else
      MeanBounds(sum, n);
      RoundBounds(sum / n as real);
      Round(sum / n as real)
  }

  // ---------------------------------------------------------------- weekly earnings

  /**
   * The date `new Date(y, m - 1, d)` stands for: a year 0–99 is 1900–1999,
   * and a month or day out of range rolls over into the next or previous ones.
   */
  function JsDate(y: int, m: int, d: int): (r: Date)
    ensures Valid(r)
    ensures DayNumber(r) == DayNumber(Date(JsYear(y) + (m - 1) / 12, (m - 1) % 12 + 1, 1)) + d - 1
  {
    AddDays(Date(JsYear(y) + (m - 1) / 12, (m - 1) % 12 + 1, 1), d - 1)
  }

  predicate DigitsAt(s: string, i: nat, n: nat)
  {
    i + n <= |s| && AllDigits(s[i..i + n])
  }

  /** `parseDate` for "YYYY-MM-DD" and "MM/DD/YYYY"; any other value is no date here. */
  function ParseDate(v: Option<Json>): (r: Option<Date>)
    ensures !Truthy(v) ==> r.None?
    ensures r.Some? ==> Valid(r.value)
  {
    match v
    case Some(JStr(s)) =>
      if |s| == 10 && DigitsAt(s, 0, 4) && s[4] == '-' && DigitsAt(s, 5, 2) && s[7] == '-' && DigitsAt(s, 8, 2) then
        Some(JsDate(DigitsValue(s[0..4]), DigitsValue(s[5..7]), DigitsValue(s[8..10])))
      else if |s| == 10 && DigitsAt(s, 0, 2) && s[2] == '/' && DigitsAt(s, 3, 2) && s[5] == '/' && DigitsAt(s, 6, 4) then
        Some(JsDate(DigitsValue(s[6..10]), DigitsValue(s[0..2]), DigitsValue(s[3..5])))
      else None
    case _ => None
  }

  /** The session falls in the month of `now`. */
  predicate InMonth(s: Json, now: Date)
  {
    var dt := ParseDate(Get(s, "date"));
    dt.Some? && dt.value.year == now.year && dt.value.month == now.month
  }

  /** A week of the month: 0 to 3. */
  type Slot = w: nat | w < 4

  /** `clamp(Math.floor((day - 1) / 7), 0, 3)`: days 29–31 join the fourth week. */
  function Week(day: int): (w: Slot)
    ensures 1 <= day <= 7 ==> w == 0
    ensures 29 <= day ==> w == 3
    ensures 1 <= day <= 28 ==> 7 * w < day <= 7 * w + 7
  {
    var q := (day - 1) / 7;
    if q < 0 then 0 else if q > 3 then 3 else q
  }

  /** The week a session counts in, none when it is outside the month or has no date read here. */
  function WeekOf(s: Json, now: Date): (w: Option<Slot>)
    ensures w.Some? <==> InMonth(s, now)
  {
    if InMonth(s, now) then Some(Week(ParseDate(Get(s, "date")).value.day)) else None
  }

  function WeekIn(now: Date): Json -> Option<Slot>
  {
    (s: Json) => WeekOf(s, now)
  }

  /** `Number(s.durationHours || s.hours || 0) * Number(s.rate || s.hourlyRate || 0)`, `NaN` as `None`. */
  function Pay(s: Json): (r: Option<int>)
  {
    var h := NumberOf(Or(Get(s, "durationHours"), Get(s, "hours")));
    var rate := NumberOf(Or(Get(s, "rate"), Get(s, "hourlyRate")));
    if h.Some? && rate.Some? then Some(h.value * rate.value) else None
  }

  /** The four totals after adding each item's amount to its slot; items without a slot add nothing. */
  function Buckets<T>(items: seq<T>, slot: T -> Option<Slot>, amount: T -> Option<int>): (w: seq<Option<int>>)
    ensures |w| == 4
    decreases |items|
  {
    if items == [] then [Some(0), Some(0), Some(0), Some(0)]
    else
      var prev := Buckets(items[..|items| - 1], slot, amount);
      var t := items[|items| - 1];
      if slot(t).Some? then prev[slot(t).value := AddOpt(prev[slot(t).value], amount(t))] else prev
  }

  /** The amounts of the items that have a slot, added up. */
  function SlottedTotal<T>(items: seq<T>, slot: T -> Option<Slot>, amount: T -> Option<int>): (r: Option<int>)
    decreases |items|
  {
    if items == [] then Some(0)
    else
      var t := items[|items| - 1];
      AddOpt(SlottedTotal(items[..|items| - 1], slot, amount), if slot(t).Some? then amount(t) else Some(0))
  }

  function Total(w: seq<Option<int>>): (r: Option<int>)
    requires |w| == 4
  {
    AddOpt(AddOpt(AddOpt(w[0], w[1]), w[2]), w[3])
  }

  /** The four buckets together hold exactly the slotted amounts: each lands in one bucket, the others in none. */
  lemma {:induction false} BucketsAddUp<T>(items: seq<T>, slot: T -> Option<Slot>, amount: T -> Option<int>)
    ensures Total(Buckets(items, slot, amount)) == SlottedTotal(items, slot, amount)
    decreases |items|
  {
    if items != [] {
      BucketsAddUp(items[..|items| - 1], slot, amount);
    }
  }

  /** The weekly totals of the month of `now`. */
  function Weeks(sessions: seq<Json>, now: Date): (w: seq<Option<int>>)
    ensures |w| == 4
  {
    Buckets(sessions, WeekIn(now), Pay)
  }

  /** `weeklyEarnings`: the four buckets, each sum kept in place in the array. */
  method WeeklyEarnings(sessions: seq<Json>, now: Date) returns (weeks: seq<Option<int>>)
    ensures weeks == Weeks(sessions, now)
  {
    var a := new Option<int>[4](_ => Some(0));
    var i := 0;
    while i < |sessions|
      invariant 0 <= i <= |sessions|
      invariant a[..] == Buckets(sessions[..i], WeekIn(now), Pay)
    {
      assert sessions[..i + 1][..i] == sessions[..i];
      var s := sessions[i];
      var w := WeekOf(s, now);
      if w.Some? {
        a[w.value] := AddOpt(a[w.value], Pay(s));
      }
      i := i + 1;
    }
    assert sessions[..i] == sessions;
    weeks := a[..];
  }

  /** The four weeks add up to the month's earnings: every session of the month counts once, the others not at all. */
  lemma WeeksAddUp(sessions: seq<Json>, now: Date)
    ensures Total(Weeks(sessions, now)) == SlottedTotal(sessions, WeekIn(now), Pay)
  {
    BucketsAddUp(sessions, WeekIn(now), Pay);
  }

  /** A session outside the month changes no week. */
  lemma OtherMonthsIgnored(sessions: seq<Json>, s: Json, now: Date)
    requires !InMonth(s, now)
    ensures Weeks(sessions + [s], now) == Weeks(sessions, now)
  {
    assert (sessions + [s])[..|sessions|] == sessions;
  }

  // ---------------------------------------------------------------- goals by category

  /** One of the three categories: health (0), learning (1), personal (2). */
  type Cat = c: nat | c < 3

  /** `String(g.category || g.type || "Personal").toLowerCase()` sorted by the words it contains. */
  function Category(g: Json): (c: Cat)
  {
    var raw := Lower(Text(Or(Or(Get(g, "category"), Get(g, "type")), Some(JStr("Personal"))).value));
    if Contains(raw, "health") then 0
    else if Contains(raw, "learn") || Contains(raw, "study") then 1
    else 2
  }

  /** Items of class `c` whose flag is `d`. */
  function ClassIs<T>(cls: T -> Cat, flag: T -> bool, c: Cat, d: bool): T -> bool
  {
    (x: T) => cls(x) == c && flag(x) == d
  }

  /** The three counters after the loop has seen `items`: the one of each item's class goes up when its flag is `d`. */
  function Counts<T>(items: seq<T>, cls: T -> Cat, flag: T -> bool, d: bool): (r: seq<nat>)
    ensures |r| == 3
    decreases |items|
  {
    if items == [] then [0, 0, 0]
    else
      var prev, x := Counts(items[..|items| - 1], cls, flag, d), items[|items| - 1];
      if flag(x) == d then prev[cls(x) := prev[cls(x)] + 1] else prev
  }

  /** Each counter is the number of items of its class with that flag. */
  lemma {:induction false} CountsMatch<T>(items: seq<T>, cls: T -> Cat, flag: T -> bool, d: bool, c: Cat)
    ensures Counts(items, cls, flag, d)[c] == Count(items, ClassIs(cls, flag, c, d))
    decreases |items|
  {
    if items != [] {
      var init, x := items[..|items| - 1], items[|items| - 1];
      CountsMatch(init, cls, flag, d, c);
      assert init + [x] == items;
      CountAppend(init, [x], ClassIs(cls, flag, c, d));
    }
  }

  /** Every item is counted once: the six counters add up to the number of items. */
  lemma {:induction false} CountsCoverAll<T>(items: seq<T>, cls: T -> Cat, flag: T -> bool)
    ensures var off, on := Counts(items, cls, flag, false), Counts(items, cls, flag, true);
      off[0] + off[1] + off[2] + on[0] + on[1] + on[2] == |items|
    decreases |items|
  {
    if items != [] {
      CountsCoverAll(items[..|items| - 1], cls, flag);
    }
  }

  /** The counting loop: two arrays of three counters, for unflagged and for flagged items. */
  method TallyBy<T>(items: seq<T>, cls: T -> Cat, flag: T -> bool) returns (off: seq<nat>, on: seq<nat>)
    ensures off == Counts(items, cls, flag, false) && on == Counts(items, cls, flag, true)
  {
    var offs := new nat[3](_ => 0);
    var ons := new nat[3](_ => 0);
    var i := 0;
    while i < |items|
      invariant 0 <= i <= |items|
      invariant offs[..] == Counts(items[..i], cls, flag, false)
      invariant ons[..] == Counts(items[..i], cls, flag, true)
    {
      assert items[..i + 1][..i] == items[..i];
      var x := items[i];
      var idx := cls(x);
      if flag(x) {
        ons[idx] := ons[idx] + 1;
      } else {
        offs[idx] := offs[idx] + 1;
      }
      i := i + 1;
    }
    assert items[..i] == items;
    off, on := offs[..], ons[..];
  }
  /** `goalsByCategory`: the active and the finished goals counted per category; together they are all goals. */
  method GoalsByCategory(goals: seq<Json>) returns (active: seq<nat>, completed: seq<nat>)
    ensures active == Counts(goals, Category, GoalDone, false)
    ensures completed == Counts(goals, Category, GoalDone, true)
    ensures active[0] + active[1] + active[2] + completed[0] + completed[1] + completed[2] == |goals|
  {
    active, completed := TallyBy(goals, Category, GoalDone);
    CountsCoverAll(goals, Category, GoalDone);
  }

  // ---------------------------------------------------------------- loading

  /**
   * What the page reads: the todos of every key merged and de-duplicated,
   * and the sessions and goals of the first key holding them, as arrays.
   */
  method Load(st: Storage, today: string) returns (todos: seq<Json>, sessions: seq<Json>, goals: seq<Json>)
    ensures todos == Values(Deduped(Merged(st, TodoKeys, today)))
    ensures sessions == AsArray(Some(FirstExisting(st, SessionKeys, JArr([]))))
    ensures goals == AsArray(Some(FirstExisting(st, GoalKeys, JArr([]))))
  {
    var merged := MergeTodoKeys(st, TodoKeys, today);
    todos := Dedupe(merged);
    var s := ReadFirstExisting(st, SessionKeys, JArr([]));
    sessions := AsArray(Some(s));
    var g := ReadFirstExisting(st, GoalKeys, JArr([]));
    goals := AsArray(Some(g));
  }
}
