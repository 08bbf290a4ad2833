/** Arithmetic on reals shared by the throttle and the backoff. */
module Numbers {
  function Min(a: real, b: real): real {
    if a < b then a else b
  }
}
