/** JavaScript values as they appear in the pages' state objects and in the
    query parameters sent to the backend. */
module Json {

  datatype Option<+T> = None | Some(value: T)

  /** A scalar JavaScript value. `Null` stands for both `null` and
      `undefined`: every test in the pages treats them alike (`v == null`). */
  datatype Value = Str(s: string) | Num(n: int) | Bool(b: bool) | Null

  /** A plain JavaScript object with scalar values, e.g. a filter set. */
  type Fields = map<string, Value>

  /** The test `v === '' || v == null` that decides which query keys are dropped. */
  predicate IsBlank(v: Value)
    ensures IsBlank(v) ==> IsFalsy(v)
    ensures v.Str? ==> (IsBlank(v) <==> IsFalsy(v))
  {
    v == Str("") || v == Null
  }

  /** JavaScript falsiness: `''`, `0`, `false`, `null` and `undefined`. */
  predicate IsFalsy(v: Value)
    ensures v.Str? ==> (IsFalsy(v) <==> |v.s| == 0)
    ensures v.Num? ==> (IsFalsy(v) <==> v.n == 0)
    ensures v.Bool? ==> (IsFalsy(v) <==> !v.b)
    ensures v.Null? ==> IsFalsy(v)
  {
    v == Str("") || v == Num(0) || v == Bool(false) || v == Null
  }

  /** `v || ''`: a falsy value becomes the empty string. */
  function OrEmpty(v: Value): (r: Value)
    ensures r != Null
    ensures IsFalsy(v) ==> r == Str("")
    ensures !IsFalsy(v) ==> r == v
  {
    if IsFalsy(v) then Str("") else v
  }
}
