/** internal/tools/dispatcher.go: tool calls run in parallel, each into its own slot. */
module Dispatcher {
  import opened Wrappers
  import opened Messages

  datatype ToolCallResult = ToolCallResult(callId: string, content: string, isError: bool)

  class Dispatcher {
    var tools: set<string>   // the registered names

    constructor ()
      ensures tools == {}
    {
      tools := {};
    }

    method Register(name: string)
      modifies this
      ensures tools == old(tools) + {name}
    {
      tools := tools + {name};
    }

    /** ran is what the tool's function gives for this call. Whatever happens, there is a result
        under the call's own id: an unknown tool and a failed one are results marked as errors. */
    method ExecOne(call: ToolCall, ran: Result<string, string>) returns (result: ToolCallResult)
      ensures result.callId == call.id
      ensures !result.isError <==> call.name in tools && ran.Success?
      ensures call.name in tools ==> result.content == if ran.Success? then ran.value else ran.error
      ensures call.name !in tools ==> result.content == "unknown tool: " + call.name
    {
      if call.name !in tools {
        return ToolCallResult(call.id, "unknown tool: " + call.name, true);
      }
      var isErr := ran.Failure?;
      var content := if ran.Failure? then ran.error else ran.value;
      return ToolCallResult(call.id, content, isErr);
    }

    /** The calls finish in any order: the choice below is arbitrary. */
    method Dispatch(calls: seq<ToolCall>, ran: seq<Result<string, string>>) returns (results: seq<ToolCallResult>)
      requires |ran| == |calls|
      ensures |results| == |calls|
      ensures forall i :: 0 <= i < |calls| ==> results[i] == ResultOf(calls[i], ran[i], tools)
    {
      var slots := new ToolCallResult[|calls|](_ => ToolCallResult("", "", false));
      var running: set<nat> := set i: nat {:trigger calls[i]} | i < |calls|;
      while running != {}
        invariant forall i :: i in running ==> i < |calls|
        invariant forall i :: 0 <= i < |calls| && i !in running ==> slots[i] == ResultOf(calls[i], ran[i], tools)
        decreases |running|
      {
        var idx :| idx in running;
        slots[idx] := ExecOne(calls[idx], ran[idx]);
        running := running - {idx};
      }
      return slots[..];
    }
  }

  /** The outcome of one call taken alone. */
  function ResultOf(call: ToolCall, ran: Result<string, string>, tools: set<string>): ToolCallResult {
    if call.name !in tools then ToolCallResult(call.id, "unknown tool: " + call.name, true)
    else if ran.Failure? then ToolCallResult(call.id, ran.error, true)
    else ToolCallResult(call.id, ran.value, false)
  }
}
