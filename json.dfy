/** The untyped values that the metadata service returns after JSON parsing, and the
    few JavaScript operations the view applies to them: truthiness, `Object.entries`
    and property lookup. */
module JsonValue {
  import Numerals

  datatype Option<T> = None | Some(value: T)

  /** A parsed JSON value. Numbers are integral in this model; an object keeps its
      entries in insertion order. */
  datatype Json =
    | Null
    | Bool(b: bool)
    | Num(n: int)
    | Str(s: string)
    | Arr(items: seq<Json>)
    | Obj(entries: seq<(string, Json)>)

  /** JavaScript truthiness: null, false, 0 and "" are falsy; arrays and objects,
      even empty ones, are truthy. */
  predicate Truthy(v: Json) {
    match v
    case Null => false
    case Bool(b) => b
    case Num(n) => n != 0
    case Str(s) => s != ""
    case Arr(_) => true
    case Obj(_) => true
  }

  /** A parsed value is falsy exactly when it is null, false, 0 or "". */
  lemma FalsyValues(v: Json)
    ensures !Truthy(v) <==> v == Null || v == Bool(false) || v == Num(0) || v == Str("")
  {
  }

  /** `Object.entries(v)` for a value that is not null: an object's own entries, an
      array's or a string's elements under their index written in decimal, and no
      entries for a number or a boolean. */
  function Entries(v: Json): (r: seq<(string, Json)>)
    requires !v.Null?
    ensures v.Obj? ==> r == v.entries
    ensures v.Arr? ==> |r| == |v.items| &&
                       forall i :: 0 <= i < |r| ==> r[i] == (Numerals.IntToString(i), v.items[i])
    ensures v.Str? ==> |r| == |v.s| &&
                       forall i :: 0 <= i < |r| ==> r[i] == (Numerals.IntToString(i), Str([v.s[i]]))
    ensures v.Num? || v.Bool? ==> r == []
  {
    match v
    case Obj(entries) => entries
    case Arr(items) => Indexed(items, 0)
    case Str(s) => Indexed(Chars(s), 0)
    case _ => []
  }

  /** The keys `Object.entries` gives an array or a string are pairwise distinct, so
      rows keyed by them never share a key. */
  lemma IndexKeysDistinct(v: Json, i: nat, j: nat)
    requires v.Arr? || v.Str?
    requires i < j < |Entries(v)|
    ensures Entries(v)[i].0 != Entries(v)[j].0
  {
    if Entries(v)[i].0 == Entries(v)[j].0 {
      Numerals.IntToStringInjective(i, j);
    }
  }

  /** `vs` paired with the decimal text of their positions, counted from `start`. */
  function Indexed(vs: seq<Json>, start: nat): (r: seq<(string, Json)>)
    ensures |r| == |vs|
    ensures forall i :: 0 <= i < |r| ==> r[i] == (Numerals.IntToString(start + i), vs[i])
    decreases |vs|
  {
    if vs == [] then [] else [(Numerals.IntToString(start), vs[0])] + Indexed(vs[1..], start + 1)
  }

  /** A string's characters, each as a one-character string value. */
  function Chars(s: string): (r: seq<Json>)
    ensures |r| == |s|
    ensures forall i :: 0 <= i < |r| ==> r[i] == Str([s[i]])
  {
    if s == [] then [] else [Str([s[0]])] + Chars(s[1..])
  }

  /** The value stored under `key` in an entry list: the first entry with that key. */
  function Get(entries: seq<(string, Json)>, key: string): (r: Option<Json>)
    ensures r.None? <==> forall i :: 0 <= i < |entries| ==> entries[i].0 != key
    ensures r.Some? ==> exists i :: 0 <= i < |entries| && entries[i] == (key, r.value) &&
                                    forall j :: 0 <= j < i ==> entries[j].0 != key
    decreases |entries|
  {
    if entries == [] then None
    else if entries[0].0 == key then Some(entries[0].1)
    else
      var r := Get(entries[1..], key);
      assert r.Some? ==> exists i :: 0 <= i < |entries[1..]| && entries[1..][i] == (key, r.value) &&
                                     forall j :: 0 <= j < i ==> entries[1..][j].0 != key;
      assert r.Some? ==> exists i :: 1 <= i < |entries| && entries[i] == (key, r.value) &&
                                     forall j :: 0 <= j < i ==> entries[j].0 != key;
      r
  }

  /** Number of value nodes in `v`, counting `v` itself. */
  function Size(v: Json): (n: nat)
    ensures n >= 1
    decreases v
  {
    match v
    case Arr(items) => 1 + ItemsSize(items)
    case Obj(entries) => 1 + EntriesSize(entries)
    case _ => 1
  }

  function ItemsSize(items: seq<Json>): nat
    decreases items
  {
    if items == [] then 0 else Size(items[0]) + ItemsSize(items[1..])
  }

  function EntriesSize(entries: seq<(string, Json)>): nat
    decreases entries
  {
    if entries == [] then 0
    else
      var e := entries[0];
      assert e.1 < e;
      Size(e.1) + EntriesSize(entries[1..])
  }
}
