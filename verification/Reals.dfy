/** The smaller and the larger of two reals. */
module Reals {

  function Min(a: real, b: real): real { if a <= b then a else b }

  function Max(a: real, b: real): real { if a >= b then a else b }
}
