// Counting into a plain object literal `{}` as the engine writes it,
// `m[k] = (m[k] || 0) + 1`, with the JavaScript values that can appear:
// a key that names a property of `Object.prototype` reads the inherited
// function rather than `undefined`.

module JsObjects {
  import opened Text
  import WordFrequency

  /** The values a count slot can hold. */
  datatype JsValue = Undefined | Num(n: int) | Str(s: string) | NativeFunction(source: string)
                  | PlainObject(text: string)

  /** The properties every `{}` inherits from `Object.prototype`: its methods,
      with the text `String(f)` gives for each, and the `__proto__` accessor,
      which reads `Object.prototype` itself. */
  const Prototype: map<string, JsValue> := map[
    "__proto__" := PlainObject("[object Object]"),
    "__defineGetter__" := NativeFunction("function __defineGetter__() { [native code] }"),
    "__defineSetter__" := NativeFunction("function __defineSetter__() { [native code] }"),
    "__lookupGetter__" := NativeFunction("function __lookupGetter__() { [native code] }"),
    "__lookupSetter__" := NativeFunction("function __lookupSetter__() { [native code] }"),
    "constructor" := NativeFunction("function Object() { [native code] }"),
    "hasOwnProperty" := NativeFunction("function hasOwnProperty() { [native code] }"),
    "isPrototypeOf" := NativeFunction("function isPrototypeOf() { [native code] }"),
    "propertyIsEnumerable" := NativeFunction("function propertyIsEnumerable() { [native code] }"),
    "toLocaleString" := NativeFunction("function toLocaleString() { [native code] }"),
    "toString" := NativeFunction("function toString() { [native code] }"),
    "valueOf" := NativeFunction("function valueOf() { [native code] }")]

  /** `m[k]`: an own property, else an inherited one, else `undefined`. */
  function Get(own: map<string, JsValue>, k: string): JsValue
  {
    if k in own then own[k] else if k in Prototype then Prototype[k] else Undefined
  }

  predicate Truthy(v: JsValue)
  {
    match v
    case Undefined => false
    case Num(n) => n != 0
    case Str(s) => s != ""
    case NativeFunction(_) => true
    case PlainObject(_) => true
  }

  /** `v || d` */
  function Or(v: JsValue, d: JsValue): JsValue
  {
    if Truthy(v) then v else d
  }

  /** `v + 1`: addition for a number, concatenation for anything that
      converts to a string. `undefined + 1` is `NaN`, which `|| 0` rules out. */
  function PlusOne(v: JsValue): JsValue
  {
    match v
    case Num(n) => Num(n + 1)
    case Str(s) => Str(s + "1")
    case NativeFunction(src) => Str(src + "1")
    case PlainObject(text) => Str(text + "1")
    case Undefined => Undefined
  }

  /** `m[k] = (m[k] || 0) + 1`. Assigning to `__proto__` runs the inherited
      setter, which ignores a value that is not an object, so nothing is stored. */
  function Bump(own: map<string, JsValue>, k: string): map<string, JsValue>
  {
    if k == "__proto__" then own else own[k := PlusOne(Or(Get(own, k), Num(0)))]
  }

  /** The object after counting every key of `ks`, left to right. */
  function TallyAsWritten(ks: seq<string>): map<string, JsValue>
  {
    if ks == [] then map[] else Bump(TallyAsWritten(ks[..|ks| - 1]), ks[|ks| - 1])
  }

  /** For every key that `Object.prototype` does not define, the slot holds
      the number of occurrences, or is missing when there are none. */
  lemma {:induction false} TallyAsWrittenCounts(ks: seq<string>, k: string)
    requires k !in Prototype
    ensures Get(TallyAsWritten(ks), k) == if multiset(ks)[k] > 0 then Num(multiset(ks)[k]) else Undefined
  {
    if ks != [] {
      var init := ks[..|ks| - 1];
      TallyAsWrittenCounts(init, k);
      assert ks == init + [ks[|ks| - 1]];
    }
  }

  /** One occurrence of "constructor" is counted as the string
      "function Object() { [native code] }1", not as 1. */
  lemma ConstructorCountedAsString()
    ensures TallyAsWritten(["constructor"])["constructor"] == Str("function Object() { [native code] }1")
    ensures multiset(["constructor"])["constructor"] == 1
  {
    assert ["constructor"][..0] == [];
  }

  /** "constructor" is a word the word-frequency filter keeps. */
  lemma ConstructorIsKept()
    ensures WordFrequency.Keep("constructor")
  {
    WordFrequency.LongWordsAreNotStopWords("constructor");
    ConstructorIsNotNumeric();
  }

  lemma ConstructorIsNotNumeric()
    ensures !IsNumericLiteral("constructor")
  {
    var w := "constructor";
    assert !IsDigit(w[0]) && w[0] != '0';
    assert forall k | 0 < k < |w| - 1 :: w[k] != 'e';
  }
}
