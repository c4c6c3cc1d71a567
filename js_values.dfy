/**
 * The values a handler reads out of a parsed request body, and the three
 * JavaScript operations it applies to them: property access, truthiness
 * (`!x`, `x ? a : b`, `x || d`) and template-literal rendering (`${x}`).
 *
 * A JSON object is a map from member names to values; member order is not
 * part of this model. `Undefined` is what property access yields for a
 * member that is absent. Numbers are the safe integers, |n| <= 2^53 - 1
 * (see README).
 */
module JsValues {
  import opened Wrappers
  import opened Text

  const MAX_SAFE_INTEGER: int := 0x1F_FFFF_FFFF_FFFF

  /** `Number.isSafeInteger`: the safe integers, |n| <= 2^53 - 1. */
  newtype SafeInt = n: int | -MAX_SAFE_INTEGER <= n <= MAX_SAFE_INTEGER

  datatype Value =
    | Undefined
    | Null
    | Bool(b: bool)
    | Num(n: SafeInt)
    | Str(s: string)
    | Arr(items: seq<Value>)
    | Obj(members: map<string, Value>)

  /** `undefined` and `null`: the values whose destructuring throws a TypeError. */
  predicate Nullish(v: Value) {
    v.Undefined? || v.Null?
  }

  /** JavaScript's ToBoolean: undefined, null, false, 0 and "" are falsy, everything else truthy. */
  predicate Truthy(v: Value) {
    match v
    case Undefined => false
    case Null => false
    case Bool(b) => b
    case Num(n) => n != 0
    case Str(s) => s != ""
    case Arr(_) => true
    case Obj(_) => true
  }

  /** Property access `v.key`: the member of an object, `undefined` for anything else. */
  function Get(v: Value, key: string): Value {
    if v.Obj? && key in v.members then v.members[key] else Undefined
  }

  /** `a || b`: the left operand when it is truthy, otherwise the right one. */
  function Or(a: Value, b: Value): (r: Value)
    ensures Truthy(r) <==> Truthy(a) || Truthy(b)
    ensures Truthy(a) ==> r == a
    ensures !Truthy(a) ==> r == b
  {
    if Truthy(a) then a else b
  }

  /** `parts.join(sep)`. */
  function Join(parts: seq<string>, sep: string): string
    decreases |parts|
  {
    if |parts| == 0 then ""
    else if |parts| == 1 then parts[0]
    else parts[0] + sep + Join(parts[1..], sep)
  }

  /**
   * When `${v}` throws a TypeError. A parsed object whose own `toString`
   * member holds data (nothing in JSON is callable) has neither a callable
   * `toString` nor a `valueOf` that yields a primitive; an array throws when
   * one of the elements it renders does.
   */
  predicate RenderThrows(v: Value)
    decreases v
  {
    match v
    case Obj(members) => "toString" in members
    case Arr(items) => exists i :: 0 <= i < |items| && !Nullish(items[i]) && RenderThrows(items[i])
    case _ => false
  }

  /** The texts of all parts when every part has one, None otherwise. */
  function AllTexts(parts: seq<Option<string>>): (r: Option<seq<string>>)
    ensures r.Some? <==> forall i :: 0 <= i < |parts| ==> parts[i].Some?
    ensures r.Some? ==> |r.value| == |parts| && forall i :: 0 <= i < |parts| ==> parts[i] == Some(r.value[i])
    decreases |parts|
  {
    if |parts| == 0 then Some([])
    else
      var rest := AllTexts(parts[1..]);
      if parts[0].Some? && rest.Some? then Some([parts[0].value] + rest.value)
      else None
  }

  /**
   * `${v}`: JavaScript's ToString, None where it throws. An array renders as
   * its elements joined by commas, with null and undefined elements as empty
   * text; an object without an own `toString` as "[object Object]".
   */
  function ToText(v: Value): (r: Option<string>)
    ensures r.None? <==> RenderThrows(v)
    ensures v.Str? ==> r == Some(v.s)
    ensures v.Num? ==> r.Some? && ParseInt(r.value) == Some(v.n as int)
    decreases v
  {
    match v
    case Undefined => Some("undefined")
    case Null => Some("null")
    case Bool(b) => Some(if b then "true" else "false")
    case Num(n) => IntTextRoundTrip(n as int); Some(IntText(n as int))
    case Str(s) => Some(s)
    case Arr(items) =>
      var parts := seq(|items|, i requires 0 <= i < |items| =>
                      if Nullish(items[i]) then Some("") else ToText(items[i]));
      var texts := AllTexts(parts);
      assert forall i :: 0 <= i < |items| ==> (parts[i].None? <==> !Nullish(items[i]) && RenderThrows(items[i]));
      if texts.Some? then Some(Join(texts.value, ",")) else None
    case Obj(members) => if "toString" in members then None else Some("[object Object]")
  }

  /** `${a || d}` with a default that renders throws exactly when `${a}` does. */
  lemma OrRenders(a: Value, d: Value)
    requires !RenderThrows(d)
    ensures RenderThrows(Or(a, d)) <==> RenderThrows(a)
  {
  }
}
