/**
  The two defensive helpers that components/website-preview.tsx and
  components/modern-portfolio.tsx each define, identically: `safeArray` and
  `safeString`. `JSON.stringify` and the text of a number are parameters.
*/
module Coercion {
  import opened Text
  import opened Js

  /** `safeArray(v)`: an array's elements, or none. */
  function SafeArray(v: JsValue): (r: seq<JsValue>)
    ensures v.Arr? ==> r == v.elems
    ensures !v.Arr? ==> r == []
  {
    ArrayOrEmpty(v)
  }

  /**
    `safeString(v)`. A string is returned as it is; for an object or array
    the first truthy of its `name`, `title` and `value` members, else its
    JSON text; for anything else `String(v || "")`. The first truthy member
    is returned whatever its type, so the result need not be a string.
  */
  function SafeString(v: JsValue, stringify: JsValue -> string, numberText: real -> string): (r: JsValue)
    ensures v.Str? ==> r == v
    ensures (v.Obj? || v.Arr?) ==> r == ObjectText(v, stringify)
    ensures !(v.Str? || v.Obj? || v.Arr?) && !Truthy(v) ==> r == Str("")
    ensures !(v.Str? || v.Obj? || v.Arr?) && Truthy(v) ==> r == Str(ToJsString(v, numberText))
  {
    match v
    case Str(_) => v
    case Obj(_) => ObjectText(v, stringify)
    case Arr(_) => ObjectText(v, stringify)
    case _ => Str(ToJsString(Or(v, Str("")), numberText))
  }

  /** `val.name || val.title || val.value || JSON.stringify(val)` on an object or array. */
  function ObjectText(v: JsValue, stringify: JsValue -> string): (r: JsValue)
    requires v.Obj? || v.Arr?
    ensures var name, title, value := Get(v, "name").value, Get(v, "title").value, Get(v, "value").value;
      && (Truthy(name) ==> r == name)
      && (!Truthy(name) && Truthy(title) ==> r == title)
      && (!Truthy(name) && !Truthy(title) && Truthy(value) ==> r == value)
      && (!Truthy(name) && !Truthy(title) && !Truthy(value) ==> r == Str(stringify(v)))
  {
    Or(Get(v, "name").value, Or(Get(v, "title").value, Or(Get(v, "value").value, Str(stringify(v)))))
  }

  /** Only a truthy `name`, `title` or `value` that is not a string makes the result a non-string. */
  lemma SafeStringIsString(v: JsValue, stringify: JsValue -> string, numberText: real -> string)
    ensures !SafeString(v, stringify, numberText).Str? <==>
      (v.Obj? || v.Arr?) && !ObjectText(v, stringify).Str?
    ensures !SafeString(v, stringify, numberText).Str? ==>
      Truthy(SafeString(v, stringify, numberText))
  {
  }

  /** A string result is left as it is by a second application. */
  lemma SafeStringStable(v: JsValue, stringify: JsValue -> string, numberText: real -> string)
    requires SafeString(v, stringify, numberText).Str?
    ensures SafeString(SafeString(v, stringify, numberText), stringify, numberText) == SafeString(v, stringify, numberText)
  {
  }

  /** On an array no member is named `name`, `title` or `value`: the result is its JSON text. */
  lemma SafeStringOfArray(elems: seq<JsValue>, stringify: JsValue -> string, numberText: real -> string)
    ensures SafeString(Arr(elems), stringify, numberText) == Str(stringify(Arr(elems)))
  {
    assert IndexKey("name", |elems|).None? by { NotIndexKey("name", |elems|); }
    assert IndexKey("title", |elems|).None? by { NotIndexKey("title", |elems|); }
    assert IndexKey("value", |elems|).None? by { NotIndexKey("value", |elems|); }
  }

  /** A key with a letter in it is never an index key. */
  lemma NotIndexKey(key: string, n: nat)
    requires |key| > 0 && !IsDigit(key[0])
    ensures IndexKey(key, n).None?
  {
  }
}
