/**
 * `_extract_and_execute_tools` (llm_interpreter.py:474-495): scan a model
 * response line by line, parse every `TOOL_CALL:` block, execute it, and
 * skip the lines the block consumed.
 */
module Extraction {
  import opened Wrappers
  import opened Text
  import opened Parser
  import opened Executor

  /**
   * The results of scanning `lines` from index `i` on, each block being
   * handed to `execute`.
   */
  function ExtractFrom(lines: seq<string>, i: nat, execute: ToolCall -> ToolResult): seq<ToolResult>
    decreases |lines| - i
  {
    if i >= |lines| then []
    else if StartsWith(lines[i], ToolCallMarker) then
      [execute(ParsedToolCall(lines, i).value)] + ExtractFrom(lines, i + ParsedToolCall(lines, i).value.linesConsumed, execute)
    else
      ExtractFrom(lines, i + 1, execute)
  }

  /** `self._execute_tool_call` in the given container, with the given process runner. */
  function ExecuteIn(container: Option<string>, run: ProcessRequest -> ProcessOutcome): ToolCall -> ToolResult
  {
    call => ExecuteToolCall(call, container, run)
  }

  /** The results `_extract_and_execute_tools(response)` returns. */
  function Extracted(response: string, container: Option<string>, run: ProcessRequest -> ProcessOutcome): seq<ToolResult>
  {
    ExtractFrom(Split(response, '\n'), 0, ExecuteIn(container, run))
  }

  /** `_extract_and_execute_tools`: split the response into lines and scan them. */
  method ExtractAndExecute(response: string, container: Option<string>, run: ProcessRequest -> ProcessOutcome)
    returns (toolResults: seq<ToolResult>)
    ensures toolResults == Extracted(response, container, run)
  {
    var lines := Split(response, '\n');
    toolResults := ScanLines(lines, ExecuteIn(container, run));
  }

  /**
   * The scanning loop of `_extract_and_execute_tools`: execute the block at
   * every `TOOL_CALL:` line and resume after the lines it consumed.
   */
  method ScanLines(lines: seq<string>, execute: ToolCall -> ToolResult) returns (toolResults: seq<ToolResult>)
    ensures toolResults == ExtractFrom(lines, 0, execute)
  {
    toolResults := [];
    var i := 0;
    while i < |lines|
      invariant toolResults + ExtractFrom(lines, i, execute) == ExtractFrom(lines, 0, execute)
      decreases |lines| - i
    {
      if StartsWith(lines[i], ToolCallMarker) {
        var toolCall := ParseToolCall(lines, i);
        var result := execute(toolCall.value);
        ScanStep(lines, i, toolCall.value, execute, toolResults);
        toolResults := toolResults + [result];
        i := i + toolCall.value.linesConsumed;
      } else {
        PlainStep(lines, i, execute);
        i := i + 1;
      }
    }
  }

  /** The indices, from `i` on, of the lines that start with `TOOL_CALL:`. */
  function ToolCallLines(lines: seq<string>, i: nat): (idx: seq<nat>)
    ensures forall k :: 0 <= k < |idx| ==> i <= idx[k] < |lines|
    decreases |lines| - i
  {
    if i >= |lines| then []
    else (if StartsWith(lines[i], ToolCallMarker) then [i] else []) + ToolCallLines(lines, i + 1)
  }

  /** Lines none of which starts with `TOOL_CALL:` contribute no index. */
  lemma {:induction false} SkipPlainLines(lines: seq<string>, a: nat, b: nat)
    requires a <= b <= |lines|
    requires forall j :: a <= j < b ==> !StartsWith(lines[j], ToolCallMarker)
    ensures ToolCallLines(lines, a) == ToolCallLines(lines, b)
    decreases b - a
  {
    if a < b {
      SkipPlainLines(lines, a + 1, b);
    }
  }

  /** The lines a `TOOL_CALL:` block consumes after its first hold no `TOOL_CALL:` line. */
  lemma BlockSpan(lines: seq<string>, i: nat)
    requires i < |lines| && StartsWith(lines[i], ToolCallMarker)
    ensures ToolCallLines(lines, i) == [i] + ToolCallLines(lines, i + ParsedToolCall(lines, i).value.linesConsumed)
  {
    var c := ParsedToolCall(lines, i).value.linesConsumed;
    BlockExtent(lines, i);
    forall j | i < j < i + c
      ensures !StartsWith(lines[j], ToolCallMarker)
    {
      ToolCallLineIsNotMarker(lines[j]);
    }
    SkipPlainLines(lines, i + 1, i + c);
  }

  /** Execute the blocks parsed at the given line indices, in that order. */
  function RunAt(lines: seq<string>, idx: seq<nat>, execute: ToolCall -> ToolResult): (results: seq<ToolResult>)
    requires forall k :: 0 <= k < |idx| ==> idx[k] < |lines|
    ensures |results| == |idx|
  {
    if |idx| == 0 then []
    else [execute(ParsedToolCall(lines, idx[0]).value)] + RunAt(lines, idx[1..], execute)
  }

  /** The `k`-th result of `RunAt` comes from the block parsed at the `k`-th index. */
  lemma {:induction false} RunAtIndex(lines: seq<string>, idx: seq<nat>, execute: ToolCall -> ToolResult, k: nat)
    requires forall k :: 0 <= k < |idx| ==> idx[k] < |lines|
    requires k < |idx|
    ensures RunAt(lines, idx, execute)[k] == execute(ParsedToolCall(lines, idx[k]).value)
    decreases k
  {
    if k > 0 {
      RunAtIndex(lines, idx[1..], execute, k - 1);
    }
  }

  /** One `TOOL_CALL:` block: its result comes first, then those of the lines after the block. */
  lemma BlockStep(lines: seq<string>, i: nat, next: nat, execute: ToolCall -> ToolResult)
    requires i < |lines| && StartsWith(lines[i], ToolCallMarker)
    requires next == i + ParsedToolCall(lines, i).value.linesConsumed
    requires ExtractFrom(lines, next, execute) == RunAt(lines, ToolCallLines(lines, next), execute)
    ensures ExtractFrom(lines, i, execute) == RunAt(lines, ToolCallLines(lines, i), execute)
  {
    BlockSpan(lines, i);
    BlockRuns(lines, i, ToolCallLines(lines, next), execute);
    ToolLineUnfolds(lines, i, next, execute);
  }

  /** The indices of a block's line and of the lines after it run the block first. */
  lemma BlockRuns(lines: seq<string>, i: nat, rest: seq<nat>, execute: ToolCall -> ToolResult)
    requires i < |lines|
    requires ToolCallLines(lines, i) == [i] + rest
    ensures forall k :: 0 <= k < |rest| ==> rest[k] < |lines|
    ensures RunAt(lines, ToolCallLines(lines, i), execute) == [execute(ParsedToolCall(lines, i).value)] + RunAt(lines, rest, execute)
  {
    var all := ToolCallLines(lines, i);
    forall k | 0 <= k < |rest|
      ensures rest[k] < |lines|
    {
      assert rest[k] == all[k + 1];
    }
    RunAtCons(lines, i, rest, execute);
  }

  /** Executing the block at a `TOOL_CALL:` line and moving past it keeps the scan's results on track. */
  lemma ScanStep(lines: seq<string>, i: nat, call: ToolCall, execute: ToolCall -> ToolResult, done: seq<ToolResult>)
    requires i < |lines| && StartsWith(lines[i], ToolCallMarker)
    requires ParsedToolCall(lines, i) == Some(call)
    requires done + ExtractFrom(lines, i, execute) == ExtractFrom(lines, 0, execute)
    ensures (done + [execute(call)]) + ExtractFrom(lines, i + call.linesConsumed, execute) == ExtractFrom(lines, 0, execute)
  {
    var next := i + call.linesConsumed;
    ToolLineUnfolds(lines, i, next, execute);
    AppendAssoc(done, [execute(call)], ExtractFrom(lines, next, execute));
  }

  /** On a `TOOL_CALL:` line the scan executes the block and resumes after it. */
  lemma ToolLineUnfolds(lines: seq<string>, i: nat, next: nat, execute: ToolCall -> ToolResult)
    requires i < |lines| && StartsWith(lines[i], ToolCallMarker)
    requires next == i + ParsedToolCall(lines, i).value.linesConsumed
    ensures ExtractFrom(lines, i, execute) == [execute(ParsedToolCall(lines, i).value)] + ExtractFrom(lines, next, execute)
  {
  }

  /** Running a list of indices runs its head, then its tail. */
  lemma RunAtCons(lines: seq<string>, i: nat, rest: seq<nat>, execute: ToolCall -> ToolResult)
    requires i < |lines|
    requires forall k :: 0 <= k < |rest| ==> rest[k] < |lines|
    ensures RunAt(lines, [i] + rest, execute) == [execute(ParsedToolCall(lines, i).value)] + RunAt(lines, rest, execute)
  {
    assert ([i] + rest)[0] == i && ([i] + rest)[1..] == rest;
  }

  /** A line that does not start with `TOOL_CALL:` adds no result and no index. */
  lemma PlainStep(lines: seq<string>, i: nat, execute: ToolCall -> ToolResult)
    requires i < |lines| && !StartsWith(lines[i], ToolCallMarker)
    ensures ExtractFrom(lines, i, execute) == ExtractFrom(lines, i + 1, execute)
    ensures ToolCallLines(lines, i) == ToolCallLines(lines, i + 1)
  {
  }

  /**
   * No `TOOL_CALL:` line is swallowed by the block before it: the results
   * are those of the blocks parsed at every line that starts with
   * `TOOL_CALL:`, one each, in the order of the lines.
   */
  lemma {:induction false} EveryToolCallRuns(lines: seq<string>, i: nat, execute: ToolCall -> ToolResult)
    ensures ExtractFrom(lines, i, execute) == RunAt(lines, ToolCallLines(lines, i), execute)
    decreases |lines| - i
  {
    if i >= |lines| {
      assert ToolCallLines(lines, i) == [];
    } else if StartsWith(lines[i], ToolCallMarker) {
      var next := i + ParsedToolCall(lines, i).value.linesConsumed;
      EveryToolCallRuns(lines, next, execute);
      BlockStep(lines, i, next, execute);
    } else {
      EveryToolCallRuns(lines, i + 1, execute);
      PlainStep(lines, i, execute);
    }
  }

  /**
   * The `k`-th result of a response is the execution of the call parsed at
   * its `k`-th line that starts with `TOOL_CALL:`.
   */
  lemma ResultsByLine(response: string, container: Option<string>, run: ProcessRequest -> ProcessOutcome, k: nat)
    requires k < |ToolCallLines(Split(response, '\n'), 0)|
    ensures |Extracted(response, container, run)| == |ToolCallLines(Split(response, '\n'), 0)|
    ensures var lines := Split(response, '\n');
      Extracted(response, container, run)[k] ==
        ExecuteToolCall(ParsedToolCall(lines, ToolCallLines(lines, 0)[k]).value, container, run)
  {
    var lines := Split(response, '\n');
    EveryToolCallRuns(lines, 0, ExecuteIn(container, run));
    RunAtIndex(lines, ToolCallLines(lines, 0), ExecuteIn(container, run), k);
  }

  /** A response with no `TOOL_CALL:` line executes nothing. */
  lemma NoToolCallNoResults(response: string, container: Option<string>, run: ProcessRequest -> ProcessOutcome)
    requires forall j :: 0 <= j < |Split(response, '\n')| ==> !StartsWith(Split(response, '\n')[j], ToolCallMarker)
    ensures Extracted(response, container, run) == []
  {
    var lines := Split(response, '\n');
    SkipPlainLines(lines, 0, |lines|);
    EveryToolCallRuns(lines, 0, ExecuteIn(container, run));
  }
}
