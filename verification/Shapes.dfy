/** Tensor shapes. */
module Shapes {

  /** How many elements a tensor of this shape has. */
  function Numel(shape: seq<nat>): nat {
    if shape == [] then 1 else shape[0] * Numel(shape[1..])
  }
}
