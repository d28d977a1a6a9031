/** The few facts about products that the solver should not have to search for. */
module Nonlinear {
  lemma MulLe(a: int, b: int, c: int)
    requires a <= b && c >= 0
    ensures a * c <= b * c
  {
  }

  lemma CancelLe(a: int, b: int, c: int)
    requires a * c <= b * c && c > 0
    ensures a <= b
  {
    if a > b {
      MulLe(b + 1, a, c);
    }
  }
}
