/**
 * The 2x2 signal-detection table shared by the withhold paradigms (go/no-go and 1-back):
 * on a signal trial (`go`, a 1-back match) a response is a hit and silence a `'miss'`;
 * on a noise trial (`nogo`, a non-match) silence is a correct rejection and a response a
 * `'false_alarm'`.
 */
module Detection {
  import opened Common

  datatype ErrorType = Miss | FalseAlarm

  /** The pair `(is_correct, error_type)` that the handlers store in a result. */
  datatype Verdict = Verdict(isCorrect: bool, errorType: Option<ErrorType>)

  /** `has_response` is `data.get('response') is not None`. */
  function Classify(signal: bool, hasResponse: bool): (v: Verdict)
    ensures v.isCorrect <==> hasResponse == signal
    ensures v.errorType == Some(Miss) <==> signal && !hasResponse
    ensures v.errorType == Some(FalseAlarm) <==> !signal && hasResponse
    ensures v.isCorrect <==> v.errorType == None
  {
    if signal then
      Verdict(hasResponse, if !hasResponse then Some(Miss) else None)
    else
      Verdict(!hasResponse, if hasResponse then Some(FalseAlarm) else None)
  }
}
