/** JavaScript values as the dashboard scripts see them in decoded JSON. */
module Values {

  datatype Option<+T> = None | Some(value: T)

  /** A numeric JSON field: missing from the object, JSON `null`, or a number. */
  datatype Value = Undefined | Null | Num(x: real) {

    /** JavaScript truthiness: `undefined`, `null` and `0` are falsy. */
    predicate Truthy() {
      Num? && x != 0.0
    }

    /** `v !== null && v !== undefined` */
    predicate Present() {
      Num?
    }
  }

  /** JavaScript `a || b`: the first operand when it is truthy, the second otherwise. */
  function Or(a: Value, b: Value): (r: Value)
    ensures r.Truthy() <==> a.Truthy() || b.Truthy()
    ensures a.Truthy() ==> r == a
    ensures !a.Truthy() ==> r == b
  {
    if a.Truthy() then a else b
  }

  /** A table or card cell: the placeholder `'--'` or a number. */
  datatype Cell = Dash | Shown(x: real)

  /** `v || '--'`: a truthy number is shown, anything falsy becomes the placeholder. */
  function OrDash(v: Value): (c: Cell)
    ensures c.Shown? <==> v.Truthy()
    ensures c.Shown? ==> c.x == v.x && c.x != 0.0
  {
    if v.Truthy() then Shown(v.x) else Dash
  }
}
