/** The construction-time parameter checks of Beta4 and PERT. The Go code panics;
    the model returns one error variant per violated constraint. */
module Params {

  datatype ParamError =
    | MinNotBelowMax   // min >= max (Beta4 and PERT)
    | MinAboveMode     // min > mode (PERT)
    | ModeAboveMax     // mode > max (PERT)

  /** The panic message of each check; Beta4 reuses PERT's first message. */
  function Message(e: ParamError): (m: string)
    ensures |m| > 29 && m[..20] == "pert: constraint of " && m[|m| - 9..] == " violated"
  {
    match e
    case MinNotBelowMax => "pert: constraint of min < max violated"
    case MinAboveMode => "pert: constraint of min <= mode violated"
    case ModeAboveMax => "pert: constraint of mode <= max violated"
  }

  /** Each violated constraint has its own message. */
  lemma MessagesDistinct(e1: ParamError, e2: ParamError)
    ensures Message(e1) == Message(e2) <==> e1 == e2
  {
  }

  /** The outcome of a check that returns nothing on success. */
  datatype Outcome = Pass | Fail(error: ParamError)

  /** A constructor's result: the value, or the constraint it violated. */
  datatype Result<+T> = Ok(value: T) | Err(error: ParamError)
}
