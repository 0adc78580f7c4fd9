/** Numbers as the form and the results page see them. A field value is either
    JavaScript's not-a-number or an ordinary real; infinities are not modelled. */
module Numbers {

  datatype Num = NaN | Val(r: real)

  /** JavaScript truthiness of a number: `0` and `NaN` are falsy, all else is truthy. */
  predicate Truthy(n: Num)
  {
    n.Val? && n.r != 0.0
  }

  /** A value passes the form's check `isNaN(value) || value < 0` exactly when
      it is a number and not negative. */
  predicate Acceptable(n: Num)
  {
    n.Val? && n.r >= 0.0
  }
}
