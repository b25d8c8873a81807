/** Scores as the mapper produces them: a value and the place of the vector it belongs to. */
module Scores {
  // Unset is a default-constructed score: its value is NaN and it is "invalid".
  datatype Score = Unset | Score(chunk: nat, vector: nat, value: real)
}
