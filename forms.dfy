/** What the server actions share: reading optional form fields, and the shape of the value
    an action hands back to the page. */
module Forms {
  import opened Wrappers

  /** `formData.get(k) || null`: an empty field reads as null. */
  function OrNull(s: string): (r: Option<string>)
    ensures r.None? <==> s == ""
    ensures r.Some? ==> r.value == s
  {
    if s == "" then None else Some(s)
  }

  /** zod's `.max(n)` on an optional string field. */
  predicate FitsIn(s: Option<string>, n: nat) {
    s.None? || |s.value| <= n
  }

  /** What an action resolves or rejects with:
      - `Success(v)`: `{ success: true }`, with the new row's id where the action returns one;
      - `Invalid(fields)`: `{ error: fieldErrors }`, the names of the fields zod rejected;
      - `Refused(e)`: `{ error: e }`, a refusal the action itself decides;
      - `Thrown(m)`: the action throws `Error(m)` (a SQLite constraint, a `RangeError`). */
  datatype ActionResult<+T> =
    | Success(value: T)
    | Invalid(fields: set<string>)
    | Refused(error: string)
    | Thrown(message: string)

  /** SQLite's messages for the constraints the tables declare. */
  const ForeignKeyFailed := "FOREIGN KEY constraint failed"
}
