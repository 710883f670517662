/** Optional values and the JavaScript "falsy" defaults (`x || d`) the screens rely on. */
module Values {

  /** A field that may be absent (`null` or `undefined` in the stored row). */
  datatype Option<+T> = None | Some(value: T)

  /** `x || d` for a numeric field: an absent or zero value falls back to `d`. */
  function IntOr(x: Option<int>, d: int): int
  {
    if x.Some? && x.value != 0 then x.value else d
  }

  /** `x || d` for a money or percentage field. */
  function RealOr(x: Option<real>, d: real): real
  {
    if x.Some? && x.value != 0.0 then x.value else d
  }

  /** `x || ''` for an optional text. */
  function TextOr(x: Option<string>): string
  {
    if x.Some? then x.value else ""
  }

  /** `if (s)` on an optional string: present and not empty. */
  predicate TruthyString(s: Option<string>)
  {
    s.Some? && s.value != ""
  }

  /** `if (id)` on an optional numeric id: present and not zero. */
  predicate TruthyId(id: Option<int>)
  {
    id.Some? && id.value != 0
  }
}
