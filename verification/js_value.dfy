/** Optional values, for TypeScript's optional (`?`) parameters and fields. */
module Options {

  datatype Option<+T> = None | Some(value: T)
}

/**
 A small model of the dynamically typed JavaScript values that can reach an
 `any`-typed parameter, with JavaScript's notion of truthiness. Numbers are
 modelled as integers (there is no NaN), so the falsy numbers are exactly 0
 and -0, which are the same integer.
 */
module JsValue {

  datatype JsValue =
    | Undefined
    | Null
    | Bool(b: bool)
    | Int(i: int)
    | Str(s: string)
    | Arr(items: seq<JsValue>)
    | Obj(entries: seq<(string, JsValue)>)

  /** ECMAScript ToBoolean: undefined, null, false, 0 and "" are falsy;
      every array and object, including an empty one, is truthy. */
  predicate Truthy(v: JsValue) {
    match v
    case Undefined => false
    case Null => false
    case Bool(b) => b
    case Int(i) => i != 0
    case Str(s) => s != ""
    case Arr(_) => true
    case Obj(_) => true
  }

  /** The falsy values are exactly the five listed by ECMAScript ToBoolean
      (restricted to the values this model has). */
  lemma FalsyValues(v: JsValue)
    ensures !Truthy(v) <==> v in {Undefined, Null, Bool(false), Int(0), Str("")}
  {
  }
}
