/** An optional value, and how a call ends. In the chart code `None`
    stands for JavaScript's `undefined` (a missing key, the maximum of
    nothing) and for the `NaN` that arithmetic on `undefined` produces,
    unless a member's own comment says otherwise. */
module Maybe {
  datatype Option<+T> = None | Some(value: T)

  /** How a call ended: normally, or with the TypeError JavaScript raises
      when the code reads a property of `undefined` (`data[0].date` of an
      empty array, `includes` of a missing list). */
  datatype Completion = Normal | TypeError
}
