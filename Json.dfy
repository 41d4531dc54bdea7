/**
 * JSON values as JavaScript sees them after `JSON.parse`: request bodies of
 * the node template's API and the `package.json` that the `create` command
 * rewrites. Numbers are integers in this model.
 */
module Json {
  import opened Wrappers
  import opened JsText

  datatype Json =
    | JNull
    | JBool(b: bool)
    | JNum(n: int)
    | JStr(s: string)
    | JArr(items: seq<Json>)
    | JObj(members: seq<Member>)

  /** One own property of an object, in insertion order. */
  datatype Member = Member(key: string, value: Json)

  function Keys(ms: seq<Member>): (ks: seq<string>)
    ensures |ks| == |ms|
    ensures forall i :: 0 <= i < |ms| ==> ks[i] == ms[i].key
  {
    seq(|ms|, i requires 0 <= i < |ms| => ms[i].key)
  }

  /** The value of property `key` (`undefined` is None). */
  function Get(ms: seq<Member>, key: string): (r: Option<Json>)
    ensures r.None? <==> key !in Keys(ms)
  {
    if ms == [] then None
    else if ms[|ms| - 1].key == key then Some(ms[|ms| - 1].value)
    else
      assert Keys(ms) == Keys(ms[..|ms| - 1]) + [ms[|ms| - 1].key];
      Get(ms[..|ms| - 1], key)
  }

  /** An object literal that names each property once. */
  predicate DistinctKeys(ms: seq<Member>)
  {
    forall i, j :: 0 <= i < j < |ms| ==> ms[i].key != ms[j].key
  }

  /** In an object without repeated names, each property reads as written. */
  lemma {:induction false} GetOfDistinct(ms: seq<Member>, i: nat)
    requires DistinctKeys(ms) && i < |ms|
    ensures Get(ms, ms[i].key) == Some(ms[i].value)
  {
    if i < |ms| - 1 {
      GetOfDistinct(ms[..|ms| - 1], i);
    }
  }

  /** `obj[key]` for any value: only objects have properties here. */
  function Field(v: Json, key: string): Option<Json>
  {
    if v.JObj? then Get(v.members, key) else None
  }

  /**
   * `obj[key] = value` on an object: an existing property keeps its place and
   * takes the new value; a new property goes last.
   */
  function SetMember(ms: seq<Member>, key: string, value: Json): (r: seq<Member>)
  {
    if key in Keys(ms) then SetExisting(ms, key, value) else ms + [Member(key, value)]
  }

  function SetExisting(ms: seq<Member>, key: string, value: Json): (r: seq<Member>)
    ensures Keys(r) == Keys(ms)
    ensures forall i :: 0 <= i < |ms| ==>
              r[i] == if ms[i].key == key then Member(key, value) else ms[i]
  {
    seq(|ms|, i requires 0 <= i < |ms| => if ms[i].key == key then Member(key, value) else ms[i])
  }

  /** After `obj[key] = value`, reading `key` gives `value`. */
  lemma {:induction false} GetSetSame(ms: seq<Member>, key: string, value: Json)
    ensures Get(SetMember(ms, key, value), key) == Some(value)
  {
    if key in Keys(ms) {
      GetSetExistingSame(ms, key, value);
    }
  }

  lemma {:induction false} GetSetExistingSame(ms: seq<Member>, key: string, value: Json)
    requires key in Keys(ms)
    ensures Get(SetExisting(ms, key, value), key) == Some(value)
  {
    var n := |ms| - 1;
    if ms[n].key == key {
      assert SetExisting(ms, key, value)[n] == Member(key, value);
    } else {
      KeyInPrefix(ms, key);
      GetSetExistingSame(ms[..n], key, value);
      GetSetExistingLast(ms, key, value);
    }
  }

  lemma KeyInPrefix(ms: seq<Member>, key: string)
    requires key in Keys(ms) && ms[|ms| - 1].key != key
    ensures key in Keys(ms[..|ms| - 1])
  {
    var i :| 0 <= i < |ms| && Keys(ms)[i] == key;
    assert Keys(ms[..|ms| - 1])[i] == key;
  }

  /** Setting a key the last member does not carry leaves that member in place. */
  lemma GetSetExistingLast(ms: seq<Member>, key: string, value: Json)
    requires ms != [] && ms[|ms| - 1].key != key
    ensures Get(SetExisting(ms, key, value), key) == Get(SetExisting(ms[..|ms| - 1], key, value), key)
  {
    var r := SetExisting(ms, key, value);
    var n := |ms| - 1;
    assert r[n] == ms[n];
    assert r[..n] == SetExisting(ms[..n], key, value);
  }

  /** After `obj[key] = value`, every other property reads as before. */
  lemma {:induction false} GetSetOther(ms: seq<Member>, key: string, value: Json, other: string)
    requires other != key
    ensures Get(SetMember(ms, key, value), other) == Get(ms, other)
  {
    if key in Keys(ms) {
      GetSetExistingOther(ms, key, value, other);
    } else {
      var r := ms + [Member(key, value)];
      assert r[..|r| - 1] == ms;
    }
  }

  lemma {:induction false} GetSetExistingOther(ms: seq<Member>, key: string, value: Json, other: string)
    requires other != key
    ensures Get(SetExisting(ms, key, value), other) == Get(ms, other)
  {
    if ms != [] {
      var r := SetExisting(ms, key, value);
      var n := |ms| - 1;
      assert r[..n] == SetExisting(ms[..n], key, value);
      GetSetExistingOther(ms[..n], key, value, other);
    }
  }

  /** The order of property names is kept, with a new name appended last. */
  lemma KeysAfterSet(ms: seq<Member>, key: string, value: Json)
    ensures Keys(SetMember(ms, key, value)) ==
            if key in Keys(ms) then Keys(ms) else Keys(ms) + [key]
  {
  }

  /** JavaScript truthiness of a property value; `undefined` (None) is falsy. */
  predicate Truthy(v: Option<Json>)
  {
    match v
    case None => false
    case Some(JNull) => false
    case Some(JBool(b)) => b
    case Some(JNum(n)) => n != 0
    case Some(JStr(s)) => s != ""
    case Some(JArr(_)) => true
    case Some(JObj(_)) => true
  }

  /**
   * `String(v)`, the coercion a regular expression's `test` applies to its
   * argument: arrays join their elements with commas (null elements print
   * empty), plain objects print `[object Object]`.
   */
  function ToStr(v: Json): string
    decreases v
  {
    match v
    case JNull => "null"
    case JBool(b) => if b then "true" else "false"
    case JNum(n) => IntToString(n)
    case JStr(s) => s
    case JArr(items) => JoinItems(items)
    case JObj(_) => "[object Object]"
  }

  function JoinItems(items: seq<Json>): string
    decreases items
  {
    if items == [] then ""
    else
      var first := if items[0].JNull? then "" else ToStr(items[0]);
      if |items| == 1 then first else first + "," + JoinItems(items[1..])
  }
}
