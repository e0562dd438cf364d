/** How the outcome of a Provider call is classified for the lease settlement. */
module Forwarder {
  import opened StreamRules

  datatype ForwardResult = ForwardResult(
    statusCode: int, providerResponseReceived: bool, providerStatusCode: int, outputStarted: bool,
    clientDisconnect: bool, streamIncomplete: bool, streamTimeout: bool, malformedUsage: bool,
    policyBlocked: bool, policyFailedClosed: bool, bodyEmpty: bool, inputTokens: int, outputTokens: int,
    cacheCreateTokens: int, cacheReadTokens: int, reasoningTokens: int, providerUsageJson: string)

  /** A default-constructed result. */
  const NoResult: ForwardResult :=
    ForwardResult(0, false, 0, false, false, false, false, false, false, false, true, 0, 0, 0, 0, 0, "")

  predicate IsExplicitRejection(r: ForwardResult) {
    r.providerResponseReceived && r.providerStatusCode >= 400
  }

  /** Did the policy withhold part of the stream? */
  predicate Withheld(r: ForwardResult) {
    r.policyBlocked || r.policyFailedClosed
  }

  /** The fields a finished pipe hands over, before the status is settled. */
  function Carry(status: int, s: StreamResult, outputStarted: bool, cancelled: bool): ForwardResult {
    ForwardResult(
      status, true, status, outputStarted, s.clientDisconnect || cancelled, s.incomplete || cancelled,
      s.timedOut, s.marks.malformedUsage, s.policyBlocked, s.policyFailedClosed, true,
      s.marks.inputTokens, s.marks.outputTokens, s.marks.cacheCreateTokens, s.marks.cacheReadTokens,
      s.marks.reasoningTokens, s.marks.providerUsageJson)
  }

  function StatusOf(r: ForwardResult): int {
    if r.policyBlocked then 400
    else if r.policyFailedClosed then 503
    else if r.clientDisconnect then
      if !r.outputStarted then 499 else if r.streamIncomplete then 502 else r.statusCode
    else if r.streamIncomplete then if r.streamTimeout then 502 else 503
    else r.statusCode
  }

  /** A client cancellation noticed only after the pipe returned. */
  function LateCancel(r: ForwardResult, cancelled: bool): ForwardResult {
    if !cancelled || r.clientDisconnect then r
    else r.(statusCode := if r.outputStarted then 502 else 499, clientDisconnect := true, streamIncomplete := true)
  }

  /** The stream branch of `forward`, from the pipe's result to the classified one. */
  function Classify(status: int, s: StreamResult, outputStarted: bool, cancelled: bool, later: bool): ForwardResult {
    var r := Carry(status, s, outputStarted, cancelled);
    var hasBody := r.streamIncomplete && !Withheld(r) && !r.clientDisconnect && !outputStarted;
    LateCancel(r.(statusCode := StatusOf(r), bodyEmpty := !hasBody), cancelled || later)
  }

  /** A stream counts as a success exactly when it is complete, unwithheld and reached the client if it is gone. */
  lemma SuccessExactly(status: int, s: StreamResult, outputStarted: bool, cancelled: bool, later: bool)
    requires status < 400
    ensures Classify(status, s, outputStarted, cancelled, later).statusCode < 400 <==>
            && !s.incomplete && !cancelled
            && !s.policyBlocked && !s.policyFailedClosed
            && (s.clientDisconnect ==> outputStarted)
            && (later ==> s.clientDisconnect)
  {
  }

  /** The client write wrapper: the first byte that reaches the client raises the evidence, once. */
  class OutputGate {
    var outputStarted: bool
    ghost var evidence: nat

    constructor ()
      ensures Valid() && !outputStarted
    {
      outputStarted, evidence := false, 0;
    }

    ghost predicate Valid()
      reads this
    {
      evidence == if outputStarted then 1 else 0
    }

    method OnWritten(written: int)
      requires Valid()
      modifies this
      ensures Valid() && outputStarted == (old(outputStarted) || written > 0)
    {
      if written > 0 && !outputStarted {
        outputStarted := true;
        evidence := evidence + 1;
      }
    }
  }
}
