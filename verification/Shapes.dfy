/** Tensor shapes. */
module Shapes {

  /** `shape.numel()` */
  function Numel(shape: seq<nat>): nat {
    if shape == [] then 1 else shape[0] * Numel(shape[1..])
  }
}
