/**
 * The retry wrapper around `send_message`: up to `retries + 1` attempts, any failure is
 * retried, with a growing pause between attempts. The send is an oracle that answers each
 * attempt; the pauses are returned in half-second units instead of being slept.
 */
module LlmExecutor {
  import opened Base
  import opened LlmRouter
  import SessionResolver

  /** The arguments of one `send_message` call that vary with the role: the model reference
      and the role id, and the attempt number the oracle answers for. */
  datatype SendCall = SendCall(attempt: nat, modelOverride: Option<string>, roleId: int)

  datatype ExecError =
      /** the last attempt's failure, re-raised */
    | Failed(fault: Fault)
      /** `RuntimeError("LLM send failed")`: no attempt was made */
    | NoAttempt

  /** The call of attempt `n`: `model_override or role.llm_model`, and the role's id. */
  function CallOf(n: nat, ref: Option<string>, llmModel: Option<string>, roleId: int): SendCall
  {
    SendCall(n, SessionResolver.OrElse(ref, llmModel), roleId)
  }

  /** `send_with_retries`. `send` answers attempt `n` of the calls made. */
  method SendWithRetries(send: SendCall -> Result<string, Fault>, ref: Option<string>, llmModel: Option<string>, roleId: int, retries: int)
    returns (r: Result<string, ExecError>, calls: seq<SendCall>, pauses: seq<nat>)
    ensures retries < 0 ==> r == Err(NoAttempt) && calls == [] && pauses == []
    ensures forall i :: 0 <= i < |calls| ==> calls[i] == CallOf(i, ref, llmModel, roleId)
    ensures retries >= 0 ==> 1 <= |calls| <= retries + 1
    ensures forall i :: 0 <= i < |calls| - 1 ==> send(calls[i]).Err?
    ensures r.Ok? ==> send(calls[|calls| - 1]) == Ok(r.value)
    ensures r.Err? && retries >= 0 ==>
      |calls| == retries + 1 && send(calls[retries]).Err? && r == Err(Failed(send(calls[retries]).error))
    ensures |pauses| == if calls == [] then 0 else |calls| - 1
    ensures forall i :: 0 <= i < |pauses| ==> pauses[i] == i + 1
  {
    calls := [];
    pauses := [];
    var attempt: nat := 0;
    while attempt <= retries
      invariant |calls| == attempt && |pauses| == attempt
      invariant retries >= 0 ==> attempt <= retries
      invariant retries < 0 ==> attempt == 0
      invariant forall i :: 0 <= i < |calls| ==> calls[i] == CallOf(i, ref, llmModel, roleId) && send(calls[i]).Err?
      invariant forall i :: 0 <= i < |pauses| ==> pauses[i] == i + 1
      decreases retries - attempt
    {
      var call := CallOf(attempt, ref, llmModel, roleId);
      calls := calls + [call];
      var sent := send(call);
      if sent.Ok? {
        return Ok(sent.value), calls, pauses;
      }
      if attempt == retries {
        return Err(Failed(sent.error)), calls, pauses;
      }
      pauses := pauses + [attempt + 1];
      attempt := attempt + 1;
    }
    return Err(NoAttempt), calls, pauses;
  }
}
