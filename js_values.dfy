/**
 * Optional values, results, and the JavaScript truthiness tests that the
 * seeding script and the UI components apply to record fields.
 *
 * A JavaScript value that may be `null` or `undefined` is an `Option`, with
 * both of those as `None`, wherever it is only tested for truthiness or
 * bound as an SQL parameter. A JSON member that is also compared with `===`
 * is a `Member`, which keeps `undefined` (absent) and `null` apart.
 */
module JsValues {

  datatype Option<+T> = None | Some(value: T)

  datatype Result<+T, +E> = Ok(value: T) | Err(error: E)

  /**
   * A member of a decoded JSON object: absent (`undefined`), `null`, or a
   * value. Datatype equality on `Member` is `===`: `null === undefined` is false.
   */
  datatype Member<+T> = Absent | Null | Present(value: T)

  /** The SQL parameter bound for a member: `undefined` and `null` both bind as NULL. */
  function Bind<T>(m: Member<T>): (r: Option<T>)
    ensures r.Some? <==> m.Present?
    ensures r.Some? ==> r.value == m.value
  {
    if m.Present? then Some(m.value) else None
  }

  /** `!!n` for a `number | null | undefined`: null, undefined and 0 are falsy. */
  predicate TruthyInt(v: Option<int>)
  {
    v.Some? && v.value != 0
  }

  /** `!!s` for a `string | null | undefined`: null, undefined and "" are falsy. */
  predicate TruthyStr(v: Option<string>)
  {
    v.Some? && v.value != ""
  }

  /** `!!b` for a `boolean | undefined`. */
  predicate TruthyBool(v: Option<bool>)
  {
    v == Some(true)
  }

  /** `s || fallback` where the fallback is a string. */
  function StrOr(v: Option<string>, fallback: string): (r: string)
    ensures TruthyStr(v) ==> r == v.value
    ensures !TruthyStr(v) ==> r == fallback
  {
    if TruthyStr(v) then v.value else fallback
  }

  /** `n || null` for a number: a falsy number becomes null. */
  function IntOrNull(v: Option<int>): (r: Option<int>)
    ensures r != Some(0)
    ensures TruthyInt(v) <==> r.Some?
    ensures r.Some? ==> r == v
  {
    if TruthyInt(v) then v else None
  }

  /** `s || null` for a string: a falsy string becomes null. */
  function StrOrNull(v: Option<string>): (r: Option<string>)
    ensures r != Some("")
    ensures TruthyStr(v) <==> r.Some?
    ensures r.Some? ==> r == v
  {
    if TruthyStr(v) then v else None
  }
}
