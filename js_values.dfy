/** Shapes of JavaScript values that the application's records are built from. */
module JsValues {

  /** A value that may be `undefined` (or `null`, where a column is nullable). */
  datatype Option<T> = None | Some(value: T) {
    function GetOr(default: T): T {
      match this
      case Some(v) => v
      case None => default
    }
  }

  /** An outcome of a remote call: the value it resolved to, or the message it rejected with. */
  datatype Result<T> = Ok(value: T) | Err(message: string)

  /**
   * Whether a key is present in an object literal such as a `Partial<Task>`.
   * `Present(v)` is a key that is there, even when `v` stands for `undefined`.
   */
  datatype Field<T> = Absent | Present(value: T) {
    /** The spread `{ ...base, ...patch }` for one key. */
    function Over(base: T): (r: T)
      ensures Absent? ==> r == base
      ensures Present? ==> r == value
    {
      match this
      case Absent => base
      case Present(v) => v
    }
  }

  /**
   * One column of a row sent to the store in an update. A property whose value is `undefined`
   * is dropped when the row is serialised, so the column keeps its stored value (`Keep`);
   * any other value, `null` included, is written (`Set`).
   */
  datatype Update<T> = Keep | Set(value: T)

  /** JavaScript truthiness of an optional string: `undefined`, `null` and "" are falsy. */
  predicate Truthy(s: Option<string>) {
    s.Some? && s.value != ""
  }

  /** `s || undefined` (and `s || null`): a falsy string becomes absent. */
  function OrAbsent(s: Option<string>): (r: Option<string>)
    ensures r.Some? <==> Truthy(s)
    ensures r.Some? ==> r == s
  {
    if Truthy(s) then s else None
  }

  /** `s || ""`: an absent string is shown as the empty string. */
  function OrEmpty(s: Option<string>): (r: string)
    ensures s.Some? ==> r == s.value
    ensures s.None? ==> r == ""
  {
    s.GetOr("")
  }

  /** The form fields use "" for nothing; `s || undefined` turns them back into optional values. */
  lemma OrAbsentOrEmpty(s: Option<string>)
    ensures OrAbsent(Some(OrEmpty(s))) == OrAbsent(s)
  {
    match s
    case None =>
    case Some(v) =>
  }
}
