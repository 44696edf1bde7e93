/** Optional values. In the checks, `None` stands for a floating-point
    result that is NaN (an undefined angle, a degenerate closest-point pair). */
module Optional {

  datatype Option<+T> = None | Some(value: T)
}
