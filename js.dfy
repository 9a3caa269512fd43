/**
 * The fragment of JavaScript semantics the two handlers depend on: the values a
 * parsed JSON request body (or `JSON.parse`) can produce, truthiness, property
 * reads with their TypeError on `null` and `undefined`, and `String.prototype.includes`.
 */
module Js {
  import opened Wrappers

  /** A JavaScript value. Numbers are reals with NaN apart; objects keep their own
      properties only (the handlers never read a property inherited from a prototype). */
  datatype JsValue =
    | Undefined
    | Null
    | Bool(b: bool)
    | Num(x: real)
    | NaN
    | Str(s: string)
    | Arr(elems: seq<JsValue>)
    | Obj(props: map<string, JsValue>)

  /** The outcome of `JSON.parse(text)`: it throws, or it yields a value. */
  datatype ParseOutcome = ParseFailure | Parsed(value: JsValue)

  /** JavaScript's ToBoolean: what `!v` negates. */
  predicate Truthy(v: JsValue) {
    match v
    case Undefined | Null | NaN => false
    case Bool(b) => b
    case Num(x) => x != 0.0
    case Str(s) => s != ""
    case Arr(_) | Obj(_) => true
  }

  predicate Nullish(v: JsValue) {
    v.Undefined? || v.Null?
  }

  function NullishName(v: JsValue): string {
    if v.Undefined? then "undefined" else "null"
  }

  /** `v.key` on a value that is not null or undefined. */
  function Prop(v: JsValue, key: string): JsValue {
    if v.Obj? && key in v.props then v.props[key] else Undefined
  }

  const ReadErrorHead := "Cannot read properties of "
  const ReadErrorMiddle := " (reading '"
  const DestructureHead := "Cannot destructure property '"
  const DestructureMiddle := "' of 'req.body' as it is "

  /** The message of the TypeError thrown by `v.key` when v is null or undefined
      (the wording of the V8 engine under Node). */
  function ReadError(v: JsValue, key: string): string {
    ReadErrorHead + NullishName(v) + ReadErrorMiddle + key + "')"
  }

  /** The message of the TypeError thrown by `const { key, ... } = req.body` when
      the body is null or undefined (V8 wording; it names the first property). */
  function DestructureError(v: JsValue, key: string): string {
    DestructureHead + key + DestructureMiddle + NullishName(v) + "."
  }

  /** `v.key` with its failure: the TypeError message, or the property's value. */
  function Get(v: JsValue, key: string): (r: Result<JsValue, string>)
    ensures r.Failure? <==> Nullish(v)
    ensures r.Success? ==> r.value == Prop(v, key)
  {
    if Nullish(v) then Failure(ReadError(v, key)) else Success(Prop(v, key))
  }

  predicate StartsWith(s: string, t: string) {
    |t| <= |s| && s[..|t|] == t
  }

  /** `s.includes(t)`. */
  predicate Contains(s: string, t: string)
    decreases |s|
  {
    StartsWith(s, t) || (|s| > 0 && Contains(s[1..], t))
  }

  /** t occurs in s starting at position i. */
  predicate OccursAt(s: string, t: string, i: int) {
    0 <= i <= |s| - |t| && s[i..i + |t|] == t
  }

  /** `includes` agrees with the positional definition: it is true exactly when
      t occurs at some position of s. */
  lemma {:induction false} ContainsAt(s: string, t: string)
    ensures Contains(s, t) <==> exists i :: OccursAt(s, t, i)
    decreases |s|
  {
    if |s| > 0 {
      ContainsAt(s[1..], t);
      if i :| OccursAt(s, t, i) {
        if i > 0 {
          assert s[1..][i - 1..i - 1 + |t|] == t;
          assert OccursAt(s[1..], t, i - 1);
        }
      }
      if Contains(s[1..], t) && !StartsWith(s, t) {
        var j :| OccursAt(s[1..], t, j);
        assert s[j + 1..j + 1 + |t|] == t;
        assert OccursAt(s, t, j + 1);
      }
      if StartsWith(s, t) {
        assert OccursAt(s, t, 0);
      }
    } else {
      if i :| OccursAt(s, t, i) {
        assert StartsWith(s, t);
      }
      if StartsWith(s, t) {
        assert OccursAt(s, t, 0);
      }
    }
  }

  /** A text that includes a non-empty t contains t's first character. */
  lemma {:induction false} ContainsFirstChar(s: string, t: string)
    requires |t| > 0 && Contains(s, t)
    ensures t[0] in s
    decreases |s|
  {
    if StartsWith(s, t) {
      assert s[0] == t[0];
    } else {
      ContainsFirstChar(s[1..], t);
      assert s[1..] <= s[1..];
      var k :| 0 <= k < |s[1..]| && s[1..][k] == t[0];
      assert s[k + 1] == t[0];
    }
  }

  /** A text that lacks the first character of a non-empty t does not include t. */
  lemma Lacks(s: string, t: string)
    requires |t| > 0 && t[0] !in s
    ensures !Contains(s, t)
  {
    if Contains(s, t) { ContainsFirstChar(s, t); }
  }

  /** Neither '4' nor 'A' occurs in the fixed pieces of the runtime's TypeError messages. */
  predicate Plain(s: string) {
    '4' !in s && 'A' !in s
  }

  lemma ReadErrorHeadPlain() ensures Plain(ReadErrorHead) {}
  lemma ReadErrorMiddlePlain() ensures Plain(ReadErrorMiddle) {}
  lemma DestructureHeadPlain() ensures Plain(DestructureHead) {}
  lemma DestructureMiddlePlain() ensures Plain(DestructureMiddle) {}

  lemma ReadErrorChars(v: JsValue, key: string)
    requires Plain(key)
    ensures Plain(ReadError(v, key))
  {
    ReadErrorHeadPlain();
    ReadErrorMiddlePlain();
  }

  lemma DestructureErrorChars(v: JsValue, key: string)
    requires Plain(key)
    ensures Plain(DestructureError(v, key))
  {
    DestructureHeadPlain();
    DestructureMiddlePlain();
  }

  /** The runtime's TypeError messages for the keys the handlers read are never
      empty and include neither "429" nor "API key", so the catch blocks always
      report them as generic failures with the message as details. */
  lemma ReadErrorIsGeneric(v: JsValue, key: string)
    requires Plain(key)
    ensures ReadError(v, key) != ""
    ensures !Contains(ReadError(v, key), "429") && !Contains(ReadError(v, key), "API key")
  {
    ReadErrorChars(v, key);
    Lacks(ReadError(v, key), "429");
    Lacks(ReadError(v, key), "API key");
  }

  lemma DestructureErrorIsGeneric(v: JsValue, key: string)
    requires Plain(key)
    ensures DestructureError(v, key) != ""
    ensures !Contains(DestructureError(v, key), "429") && !Contains(DestructureError(v, key), "API key")
  {
    DestructureErrorChars(v, key);
    Lacks(DestructureError(v, key), "429");
    Lacks(DestructureError(v, key), "API key");
  }
}
