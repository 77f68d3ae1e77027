/** Conventions the `api.device`, `api.distribution` and `api.key`
    facades share. */
module Facade {
  import opened Wrappers
  import opened JsValue

  /** Query parameters and continuations after the optional-argument shift. */
  datatype Shifted = Shifted(urlParams: Value, onSuccess: Value, onError: Value)

  /** The shift most listing operations perform: when the `options`
      argument is a function, the caller left the options out, so the
      parameters become `{}` and the continuations move one place left. */
  function ShiftOptions(options: Value, cbS: Value, cbE: Value): Shifted
  {
    if IsFunc(options) then Shifted(EmptyObject, options, cbS) else Shifted(options, cbS, cbE)
  }

  /** Leaving the options out is the same as passing `{}`: the shift
      yields what a call with empty options and the continuations in
      their own places yields. */
  lemma OmittedOptionsAreEmpty(f: Value, cbS: Value, cbE: Value)
    requires IsFunc(f)
    ensures ShiftOptions(f, cbS, cbE) == ShiftOptions(EmptyObject, f, cbS)
  {
  }
}
