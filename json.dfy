/**
 * JSON values as the hooks handle them after `JSON.parse`. Objects keep their members in
 * insertion order, which is the order `Object.entries` and `JSON.stringify` follow; numbers
 * are integers.
 */
module JsonValues {
  import opened Common
  import opened Strings

  datatype Json =
    | JNull
    | JBool(b: bool)
    | JNum(n: int)
    | JStr(s: string)
    | JArr(items: seq<Json>)
    | JObj(members: seq<Member>)

  datatype Member = Member(key: string, value: Json)

  /** JavaScript truthiness of a value. */
  predicate Truthy(j: Json)
  {
    match j
    case JNull => false
    case JBool(b) => b
    case JNum(n) => n != 0
    case JStr(s) => s != ""
    case _ => true
  }

  function Keys(ms: seq<Member>): (ks: seq<string>)
    ensures |ks| == |ms| && forall i :: 0 <= i < |ms| ==> ks[i] == ms[i].key
  {
    seq(|ms|, i requires 0 <= i < |ms| => ms[i].key)
  }

  /** The value of the first member named `key`. */
  function Lookup(ms: seq<Member>, key: string): Option<Json>
  {
    if ms == [] then None
    else if ms[0].key == key then Some(ms[0].value)
    else Lookup(ms[1..], key)
  }

  /** The first member named `key` decides the lookup. */
  lemma {:induction false} LookupAt(ms: seq<Member>, i: nat, key: string)
    requires i < |ms| && ms[i].key == key
    requires forall j :: 0 <= j < i ==> ms[j].key != key
    ensures Lookup(ms, key) == Some(ms[i].value)
  {
    if i > 0 {
      LookupAt(ms[1..], i - 1, key);
    }
  }

  /** A key no member has is not found. */
  lemma {:induction false} LookupMissing(ms: seq<Member>, key: string)
    requires forall i :: 0 <= i < |ms| ==> ms[i].key != key
    ensures Lookup(ms, key).None?
  {
    if ms != [] {
      LookupMissing(ms[1..], key);
    }
  }

  /** Assigning the value a member already has changes nothing. */
  lemma {:induction false} UpsertSame(ms: seq<Member>, key: string, v: Json)
    requires Lookup(ms, key) == Some(v)
    ensures Upsert(ms, key, v) == ms
  {
    if ms[0].key != key {
      UpsertSame(ms[1..], key, v);
    }
  }

  /** `obj[key] = v`: an existing member keeps its place, a new one goes last. */
  function Upsert(ms: seq<Member>, key: string, v: Json): (r: seq<Member>)
    ensures Lookup(r, key) == Some(v)
    ensures forall k :: k != key ==> Lookup(r, k) == Lookup(ms, k)
  {
    if ms == [] then [Member(key, v)]
    else if ms[0].key == key then [Member(key, v)] + ms[1..]
    else
      var r := [ms[0]] + Upsert(ms[1..], key, v);
      assert r[1..] == Upsert(ms[1..], key, v);
      r
  }

  /** `delete obj[key]`. */
  function Delete(ms: seq<Member>, key: string): (r: seq<Member>)
    ensures Lookup(r, key).None?
    ensures forall k :: k != key ==> Lookup(r, k) == Lookup(ms, k)
  {
    if ms == [] then []
    else if ms[0].key == key then Delete(ms[1..], key)
    else
      var r := [ms[0]] + Delete(ms[1..], key);
      assert r[1..] == Delete(ms[1..], key);
      r
  }

  /** `value[key]`, with `None` for `undefined`; only objects have named members here. */
  function Get(j: Json, key: string): Option<Json>
  {
    if j.JObj? then Lookup(j.members, key) else None
  }

  /** `value?.key`, reading `undefined` as `null` (the hooks treat the two alike). */
  function Field(j: Json, key: string): Json
  {
    Get(j, key).GetOr(JNull)
  }

  /** `value[key] = v`; on anything but an object the assignment leaves no trace in the JSON. */
  function Set(j: Json, key: string, v: Json): Json
  {
    if j.JObj? then JObj(Upsert(j.members, key, v)) else j
  }

  /** `delete value[key]`. */
  function Remove(j: Json, key: string): Json
  {
    if j.JObj? then JObj(Delete(j.members, key)) else j
  }

  /** The string a value stands for, if it is one. */
  function AsString(j: Json): Option<string>
  {
    if j.JStr? then Some(j.s) else None
  }

  /** `String(value)`, also what a template literal `${value}` produces. */
  function ToJsString(j: Json): string
  {
    match j
    case JNull => "null"
    case JBool(b) => if b then "true" else "false"
    case JNum(n) => IntToString(n)
    case JStr(s) => s
    case JArr(items) =>
      Join(seq(|items|, i requires 0 <= i < |items| => if items[i].JNull? then "" else ToJsString(items[i])), ",")
    case JObj(_) => "[object Object]"
  }

  /** How `Array.prototype.join` renders one element: `null` becomes the empty string. */
  function ElementString(j: Json): string
  {
    if j.JNull? then "" else ToJsString(j)
  }

  /** `values.join(sep)`. */
  function JoinValues(values: seq<Json>, sep: string): string
  {
    if |values| == 0 then ""
    else if |values| == 1 then ElementString(values[0])
    else ElementString(values[0]) + sep + JoinValues(values[1..], sep)
  }
}
