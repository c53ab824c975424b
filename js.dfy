/**
  The JavaScript values the modelled code handles: what `JSON.parse` returns,
  plus `undefined`, which a missing property reads as.

  An object is the sequence of its own members in enumeration order. Reading a
  property takes the first member with that key; writing one replaces the
  first such member in place or appends a new one, as assignment and object
  spread do. Inherited members are not modelled: no key that the modelled
  code reads is a member of Object.prototype, String.prototype,
  Array.prototype, Number.prototype or Boolean.prototype.
*/
module Js {
  import opened Wrappers
  import opened Text

  datatype JsValue =
    | Undefined
    | Null
    | Bool(b: bool)
    | Num(n: real)
    | Str(s: string)
    | Arr(elems: seq<JsValue>)
    | Obj(members: seq<(string, JsValue)>)

  /** What a thrown error carries: property access on null or undefined, or `new Error(message)`. */
  datatype Exception =
    | TypeError(receiver: JsValue, property: string)
    | Error(message: string)

  /** `null` or `undefined`: the values whose property access throws. */
  predicate Nullish(v: JsValue) { v.Null? || v.Undefined? }

  /** JavaScript truthiness (numbers here are never NaN). */
  predicate Truthy(v: JsValue) {
    match v
    case Undefined => false
    case Null => false
    case Bool(b) => b
    case Num(n) => n != 0.0
    case Str(s) => s != ""
    case Arr(_) => true
    case Obj(_) => true
  }

  /** `a || b`. */
  function Or(a: JsValue, b: JsValue): (r: JsValue)
    ensures Truthy(a) ==> r == a
    ensures !Truthy(a) ==> r == b
  {
    if Truthy(a) then a else b
  }

  lemma OrIdempotent(a: JsValue, b: JsValue)
    ensures Or(Or(a, b), b) == Or(a, b)
  {
  }

  /** `Array.isArray(v) ? v : []`, seen as the array's elements. */
  function ArrayOrEmpty(v: JsValue): (r: seq<JsValue>)
    ensures v.Arr? ==> r == v.elems
    ensures !v.Arr? ==> r == []
  {
    if v.Arr? then v.elems else []
  }

  /** The decimal digits of `n`, as `String(n)` writes a natural number. */
  function DecimalString(n: nat): (r: string)
    ensures |r| >= 1
    ensures forall i :: 0 <= i < |r| ==> IsDigit(r[i])
    ensures n >= 10 ==> r[0] != '0'
  {
    if n < 10 then [('0' as int + n) as char]
    else DecimalString(n / 10) + [('0' as int + n % 10) as char]
  }

  /** The index `i < n` whose decimal string is `key`, if there is one. */
  function IndexKey(key: string, n: nat): (r: Option<nat>)
    ensures r.Some? ==> r.value < n && DecimalString(r.value) == key
    ensures r.None? ==> forall i :: 0 <= i < n ==> DecimalString(i) != key
  {
    if n == 0 then None
    else if DecimalString(n - 1) == key then Some(n - 1)
    else IndexKey(key, n - 1)
  }

  /** The value of the first member named `key`, or `undefined`. */
  function Lookup(members: seq<(string, JsValue)>, key: string): (r: JsValue)
    ensures (forall i :: 0 <= i < |members| ==> members[i].0 != key) ==> r == Undefined
  {
    if |members| == 0 then Undefined
    else if members[0].0 == key then members[0].1
    else Lookup(members[1..], key)
  }

  /** The first member named `key` decides what `key` reads as. */
  lemma {:induction false} LookupFirst(members: seq<(string, JsValue)>, key: string, i: nat)
    requires i < |members| && members[i].0 == key
    requires forall j :: 0 <= j < i ==> members[j].0 != key
    ensures Lookup(members, key) == members[i].1
  {
    if i > 0 {
      LookupFirst(members[1..], key, i - 1);
    }
  }

  /** The keys of a member sequence, in order. */
  function Keys(members: seq<(string, JsValue)>): (r: seq<string>)
    ensures |r| == |members|
  {
    if |members| == 0 then [] else [members[0].0] + Keys(members[1..])
  }

  /** `o[key] = value` on an object's members: replaces the first member named `key` in place, or appends. */
  function SetMember(members: seq<(string, JsValue)>, key: string, value: JsValue): (r: seq<(string, JsValue)>)
    ensures |r| == |members| || |r| == |members| + 1
  {
    if |members| == 0 then [(key, value)]
    else if members[0].0 == key then [(key, value)] + members[1..]
    else [members[0]] + SetMember(members[1..], key, value)
  }

  /** After writing `key`, reading it gives the written value. */
  lemma {:induction false} LookupSetSame(members: seq<(string, JsValue)>, key: string, value: JsValue)
    ensures Lookup(SetMember(members, key, value), key) == value
  {
    if |members| > 0 && members[0].0 != key {
      LookupSetSame(members[1..], key, value);
      assert SetMember(members, key, value)[1..] == SetMember(members[1..], key, value);
    }
  }

  /** Writing `key` leaves every other key reading as before. */
  lemma {:induction false} LookupSetOther(members: seq<(string, JsValue)>, key: string, value: JsValue, other: string)
    requires other != key
    ensures Lookup(SetMember(members, key, value), other) == Lookup(members, other)
  {
    if |members| > 0 && members[0].0 != key {
      LookupSetOther(members[1..], key, value, other);
      assert SetMember(members, key, value)[1..] == SetMember(members[1..], key, value);
    } else if |members| > 0 {
      assert SetMember(members, key, value)[1..] == members[1..];
    }
  }

  /** Writing a key to the value it already reads changes nothing. */
  lemma {:induction false} SetMemberExisting(members: seq<(string, JsValue)>, key: string, value: JsValue)
    requires exists i :: 0 <= i < |members| && members[i].0 == key
    requires Lookup(members, key) == value
    ensures SetMember(members, key, value) == members
  {
    if members[0].0 != key {
      var i :| 0 <= i < |members| && members[i].0 == key;
      assert members[1..][i - 1].0 == key;
      SetMemberExisting(members[1..], key, value);
    }
  }

  /** Writing a key keeps the existing keys in their order; a new key goes last. */
  lemma {:induction false} KeysSetMember(members: seq<(string, JsValue)>, key: string, value: JsValue)
    ensures key in Keys(members) ==> Keys(SetMember(members, key, value)) == Keys(members)
    ensures key !in Keys(members) ==> Keys(SetMember(members, key, value)) == Keys(members) + [key]
  {
    if |members| == 0 {
      assert Keys(SetMember(members, key, value)) == [key];
    } else {
      var tail := members[1..];
      var r := SetMember(members, key, value);
      if members[0].0 != key {
        KeysSetMember(tail, key, value);
        assert r[1..] == SetMember(tail, key, value);
      } else {
        assert r[1..] == tail;
      }
    }
  }

  /** `v.key`: throws on `null` and `undefined`; strings and arrays have `length` and index keys. */
  function Get(v: JsValue, key: string): (r: Result<JsValue, Exception>)
    ensures r.Err? <==> Nullish(v)
    ensures r.Err? ==> r.error == TypeError(v, key)
    ensures v.Obj? ==> r == Ok(Lookup(v.members, key))
  {
    match v
    case Undefined => Err(TypeError(v, key))
    case Null => Err(TypeError(v, key))
    case Obj(m) => Ok(Lookup(m, key))
    case Str(s) =>
      if key == "length" then Ok(Num(|s| as real))
      else (match IndexKey(key, |s|)
            case Some(i) => Ok(Str([s[i]]))
            case None => Ok(Undefined))
    case Arr(a) =>
      if key == "length" then Ok(Num(|a| as real))
      else (match IndexKey(key, |a|)
            case Some(i) => Ok(a[i])
            case None => Ok(Undefined))
    case _ => Ok(Undefined)
  }

  /** The members `{...v}` copies: an object's own members, a string's or array's indexed entries, nothing otherwise. */
  function Spread(v: JsValue): (r: seq<(string, JsValue)>)
    ensures v.Obj? ==> r == v.members
    ensures v.Str? ==> |r| == |v.s| && forall i :: 0 <= i < |v.s| ==> r[i] == (DecimalString(i), Str([v.s[i]]))
    ensures v.Arr? ==> |r| == |v.elems| && forall i :: 0 <= i < |v.elems| ==> r[i] == (DecimalString(i), v.elems[i])
    ensures !(v.Obj? || v.Str? || v.Arr?) ==> r == []
  {
    match v
    case Obj(m) => m
    case Str(s) => seq(|s|, i requires 0 <= i < |s| => (DecimalString(i), Str([s[i]])))
    case Arr(a) => seq(|a|, i requires 0 <= i < |a| => (DecimalString(i), a[i]))
    case _ => []
  }

  /** `String(v)`, with the text of a number left to `numberText`. */
  function ToJsString(v: JsValue, numberText: real -> string): string
    decreases v
  {
    match v
    case Undefined => "undefined"
    case Null => "null"
    case Bool(b) => if b then "true" else "false"
    case Num(n) => numberText(n)
    case Str(s) => s
    case Obj(_) => "[object Object]"
    case Arr(a) =>
      Join(seq(|a|, i requires 0 <= i < |a| =>
        if Nullish(a[i]) then "" else ToJsString(a[i], numberText)), ",")
  }
}
