/** The numeric form inputs of the workout form and the two guards that
    decide whether a submission is accepted (script.js, `_newWorkout`). */
module Inputs {

  /** The value of `+input.value`: a JavaScript number, which is either a
      finite value or one of the three non-finite values. The string to
      number coercion itself is not modelled; its result is the input. */
  datatype Num = Finite(value: real) | NaN | PosInfinity | NegInfinity

  /** `Number.isFinite(inp)` */
  predicate IsFinite(n: Num) {
    n.Finite?
  }

  /** `inp > 0`, which holds of +Infinity and of no other non-finite value */
  predicate IsPositive(n: Num) {
    match n
    case Finite(v) => v > 0.0
    case PosInfinity => true
    case _ => false
  }

  /** `inputs.every(p)`: checks the elements from the first onwards and
      stops at the first that fails. */
  predicate Every(inputs: seq<Num>, p: Num -> bool) {
    if |inputs| == 0 then true
    else p(inputs[0]) && Every(inputs[1..], p)
  }

  /** The `validInputs` helper of `_newWorkout` */
  predicate ValidInputs(inputs: seq<Num>) {
    Every(inputs, IsFinite)
  }

  /** The `allPositive` helper of `_newWorkout` */
  predicate AllPositive(inputs: seq<Num>) {
    Every(inputs, IsPositive)
  }

  /** The short-circuiting scan accepts exactly when every element passes. */
  lemma {:induction false} EveryIff(inputs: seq<Num>, p: Num -> bool)
    ensures Every(inputs, p) <==> forall i :: 0 <= i < |inputs| ==> p(inputs[i])
    decreases |inputs|
  {
    if |inputs| > 0 {
      EveryIff(inputs[1..], p);
      assert forall i :: 1 <= i < |inputs| ==> inputs[i] == inputs[1..][i - 1];
    }
  }

  /** Both guards together hold exactly when every input is a finite
      number greater than zero. */
  lemma ValidAndPositive(inputs: seq<Num>)
    ensures ValidInputs(inputs) && AllPositive(inputs)
            <==> forall i :: 0 <= i < |inputs| ==> inputs[i].Finite? && inputs[i].value > 0.0
  {
    EveryIff(inputs, IsFinite);
    EveryIff(inputs, IsPositive);
  }
}
