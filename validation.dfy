/**
 * Parameter legality checks run before any generation step: the shared
 * validator of top_k, top_p and min_tokens_to_keep, and the temperature check
 * of the flag-tracked decode loop.
 */
module Validation {
  import opened Base

  /**
   * A Python argument as the validators see it: `None`, an `int` (a `bool`
   * is an `int` in Python, so `True`/`False` arrive as 1/0), a `float`
   * (a finite real; `nan` fails every range test below, but `inf` passes
   * the temperature test and is not representable here), or a value of some
   * other type.
   */
  datatype Arg = Absent | IntArg(i: int) | FloatArg(f: real) | OtherArg

  /** top_k: `None` or a strictly positive int. */
  predicate TopKAccepted(a: Arg)
  {
    match a
    case Absent => true
    case IntArg(k) => k >= 1
    case _ => false
  }

  /** top_p: `None` or a float in (0.0, 1.0]; an int such as `1` is refused. */
  predicate TopPAccepted(a: Arg)
  {
    match a
    case Absent => true
    case FloatArg(p) => 0.0 < p <= 1.0
    case _ => false
  }

  /** min_tokens_to_keep: `None` or a non-negative int. */
  predicate MinKeepAccepted(a: Arg)
  {
    match a
    case Absent => true
    case IntArg(m) => m >= 0
    case _ => false
  }

  /**
   * `validate_top_k_top_p_min_tokens_to_keep`: the three checks in order; the
   * first that fails raises.
   */
  function Validate(topK: Arg, topP: Arg, minKeep: Arg): (r: Result<()>)
    ensures r.Ok? <==> TopKAccepted(topK) && TopPAccepted(topP) && MinKeepAccepted(minKeep)
    ensures !TopKAccepted(topK) ==> r == Err(InvalidParameter("top_k"))
    ensures TopKAccepted(topK) && !TopPAccepted(topP) ==> r == Err(InvalidParameter("top_p"))
    ensures TopKAccepted(topK) && TopPAccepted(topP) && !MinKeepAccepted(minKeep)
            ==> r == Err(InvalidParameter("min_tokens_to_keep"))
  {
    if topK != Absent && (!topK.IntArg? || !(topK.i > 0)) then
      Err(InvalidParameter("top_k"))
    else if topP != Absent && (!topP.FloatArg? || !(0.0 < topP.f <= 1.0)) then
      Err(InvalidParameter("top_p"))
    else if minKeep != Absent && (!minKeep.IntArg? || minKeep.i < 0) then
      Err(InvalidParameter("min_tokens_to_keep"))
    else
      Ok(())
  }

  /**
   * The temperature check of `sample_loop_llama`: a strictly positive float;
   * on success the temperature itself.
   */
  function ValidateTemperature(t: Arg): (r: Result<real>)
    ensures r.Ok? <==> t.FloatArg? && t.f > 0.0
    ensures r.Ok? ==> r.value == t.f && r.value > 0.0
    ensures r.Err? ==> r.error == InvalidParameter("temperature")
  {
    if !t.FloatArg? || !(t.f > 0.0) then Err(InvalidParameter("temperature")) else Ok(t.f)
  }
}
