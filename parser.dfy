/**
 * The marker protocol of a model reply: `_parse_tool_call`
 * (llm_interpreter.py:497-524). A line starting with `TOOL_CALL:` opens an
 * invocation; the following lines, while they start (after stripping) with
 * `PARAMETERS:` or `REASONING:`, belong to it, up to nine of them.
 */
module Parser {
  import opened Text
  import opened Wrappers
  import opened Params

  const ToolCallMarker := "TOOL_CALL:"
  const ParametersMarker := "PARAMETERS:"
  const ReasoningMarker := "REASONING:"

  /** Lines `start + 1 .. start + LookaheadLimit - 1` are examined after a `TOOL_CALL:` line. */
  const LookaheadLimit := 10

  /** The `tool_call` dict: command, parameters, reasoning and the number of lines it spans. */
  datatype ToolCall = ToolCall(command: string, parameters: Params, reasoning: string, linesConsumed: nat)

  /** A line that continues an invocation: stripped, it starts with `PARAMETERS:` or `REASONING:`. */
  predicate IsMarkerLine(line: string)
  {
    StartsWith(Strip(line), ParametersMarker) || StartsWith(Strip(line), ReasoningMarker)
  }

  /** The text after a marker: `line.strip().replace(marker, '').strip()`. */
  function Payload(line: string, marker: string): string
    requires marker != ""
  {
    Strip(RemoveAll(Strip(line), marker))
  }

  /** The invocation a `TOOL_CALL:` line opens, before any lookahead. */
  function Opened(line: string): ToolCall
  {
    ToolCall(Strip(RemoveAll(line, ToolCallMarker)), [], "", 1)
  }

  /** Where the lookahead from a `TOOL_CALL:` line at `start` must stop. */
  function LookaheadEnd(lines: seq<string>, start: nat): nat
  {
    if |lines| < start + LookaheadLimit then |lines| else start + LookaheadLimit
  }

  /**
   * One continuation line applied to the invocation: a `PARAMETERS:` line
   * replaces the parameters, a `REASONING:` line the reasoning.
   */
  function Continue(line: string, call: ToolCall): ToolCall
  {
    if StartsWith(Strip(line), ParametersMarker) then
      call.(parameters := ParametersOf(Payload(line, ParametersMarker)), linesConsumed := call.linesConsumed + 1)
    else
      call.(reasoning := Payload(line, ReasoningMarker), linesConsumed := call.linesConsumed + 1)
  }

  /** The lookahead loop from line `i`, stopping before `end` or at the first other line. */
  function Lookahead(lines: seq<string>, i: nat, end: nat, call: ToolCall): (r: ToolCall)
    requires end <= |lines|
    ensures i <= end ==> call.linesConsumed <= r.linesConsumed <= call.linesConsumed + (end - i)
    decreases end - i
  {
    if i < end && IsMarkerLine(lines[i]) then Lookahead(lines, i + 1, end, Continue(lines[i], call))
    else call
  }

  /** The number of consecutive continuation lines from `i`, before `end`. */
  function MarkerRun(lines: seq<string>, i: nat, end: nat): (n: nat)
    requires i <= end <= |lines|
    ensures i + n <= end
    decreases end - i
  {
    if i < end && IsMarkerLine(lines[i]) then 1 + MarkerRun(lines, i + 1, end) else 0
  }

  /** The position of the last line in `lo .. hi` that starts with `marker` once stripped. */
  function LastMarked(lines: seq<string>, lo: nat, hi: nat, marker: string): (j: Option<nat>)
    requires lo <= hi <= |lines|
    ensures j.Some? ==> lo <= j.value < hi
    decreases hi - lo
  {
    if hi <= lo then None
    else if StartsWith(Strip(lines[hi - 1]), marker) then Some(hi - 1)
    else LastMarked(lines, lo, hi - 1, marker)
  }

  /** The run is made of continuation lines and ends at one that is not, or at `end`. */
  lemma {:induction false} MarkerRunIsMaximal(lines: seq<string>, i: nat, end: nat)
    requires i <= end <= |lines|
    ensures forall j :: i <= j < i + MarkerRun(lines, i, end) ==> IsMarkerLine(lines[j])
    ensures i + MarkerRun(lines, i, end) < end ==> !IsMarkerLine(lines[i + MarkerRun(lines, i, end)])
    decreases end - i
  {
    if i < end && IsMarkerLine(lines[i]) {
      MarkerRunIsMaximal(lines, i + 1, end);
    }
  }

  /** `LastMarked` finds a marked line with no marked line after it, or reports that none is marked. */
  lemma {:induction false} LastMarkedIsLast(lines: seq<string>, lo: nat, hi: nat, marker: string)
    requires lo <= hi <= |lines|
    ensures LastMarked(lines, lo, hi, marker).None? ==> forall k :: lo <= k < hi ==> !StartsWith(Strip(lines[k]), marker)
    ensures LastMarked(lines, lo, hi, marker).Some? ==> StartsWith(Strip(lines[LastMarked(lines, lo, hi, marker).value]), marker)
    ensures LastMarked(lines, lo, hi, marker).Some? ==>
      forall k :: LastMarked(lines, lo, hi, marker).value < k < hi ==> !StartsWith(Strip(lines[k]), marker)
    decreases hi - lo
  {
    if lo < hi && !StartsWith(Strip(lines[hi - 1]), marker) {
      LastMarkedIsLast(lines, lo, hi - 1, marker);
    }
  }

  /** `LastMarked` seen from its lower end: line `lo` is the answer only if nothing after it is. */
  lemma {:induction false} LastMarkedFromBelow(lines: seq<string>, lo: nat, hi: nat, marker: string)
    requires lo < hi <= |lines|
    ensures LastMarked(lines, lo, hi, marker) ==
      if LastMarked(lines, lo + 1, hi, marker).Some? then LastMarked(lines, lo + 1, hi, marker)
      else if StartsWith(Strip(lines[lo]), marker) then Some(lo)
      else None
    decreases hi - lo
  {
    if lo + 1 < hi && !StartsWith(Strip(lines[hi - 1]), marker) {
      LastMarkedFromBelow(lines, lo, hi - 1, marker);
    }
  }

  /** The parameters a run of continuation lines leaves: those of its last `PARAMETERS:` line. */
  function ParametersAfter(lines: seq<string>, lo: nat, hi: nat, current: Params): Params
    requires lo <= hi <= |lines|
  {
    match LastMarked(lines, lo, hi, ParametersMarker)
    case None => current
    case Some(j) => ParametersOf(Payload(lines[j], ParametersMarker))
  }

  /** The reasoning a run of continuation lines leaves: that of its last `REASONING:` line. */
  function ReasoningAfter(lines: seq<string>, lo: nat, hi: nat, current: string): string
    requires lo <= hi <= |lines|
  {
    match LastMarked(lines, lo, hi, ReasoningMarker)
    case None => current
    case Some(j) => Payload(lines[j], ReasoningMarker)
  }

  /** No line starts with both continuation markers. */
  lemma MarkersDiffer(s: string)
    ensures !(StartsWith(s, ParametersMarker) && StartsWith(s, ReasoningMarker))
  {
    if StartsWith(s, ParametersMarker) {
      assert s[0] == ParametersMarker[0] == 'P';
    }
  }

  /** A continuation line at the head of a run is overridden by a later line with the same marker. */
  lemma ContinueAfter(lines: seq<string>, i: nat, hi: nat, call: ToolCall)
    requires i < hi <= |lines| && IsMarkerLine(lines[i])
    ensures ParametersAfter(lines, i, hi, call.parameters) == ParametersAfter(lines, i + 1, hi, Continue(lines[i], call).parameters)
    ensures ReasoningAfter(lines, i, hi, call.reasoning) == ReasoningAfter(lines, i + 1, hi, Continue(lines[i], call).reasoning)
  {
    MarkersDiffer(Strip(lines[i]));
    LastMarkedFromBelow(lines, i, hi, ParametersMarker);
    LastMarkedFromBelow(lines, i, hi, ReasoningMarker);
  }

  /**
   * What the lookahead does, stated without the loop: it consumes exactly the
   * run of continuation lines, and the last `PARAMETERS:` and `REASONING:`
   * lines of that run win.
   */
  lemma {:induction false} LookaheadFacts(lines: seq<string>, i: nat, end: nat, call: ToolCall)
    requires i <= end <= |lines|
    ensures Lookahead(lines, i, end, call).command == call.command
    ensures Lookahead(lines, i, end, call).linesConsumed == call.linesConsumed + MarkerRun(lines, i, end)
    ensures Lookahead(lines, i, end, call).parameters ==
      ParametersAfter(lines, i, i + MarkerRun(lines, i, end), call.parameters)
    ensures Lookahead(lines, i, end, call).reasoning ==
      ReasoningAfter(lines, i, i + MarkerRun(lines, i, end), call.reasoning)
    decreases end - i
  {
    if i < end && IsMarkerLine(lines[i]) {
      var hi := i + MarkerRun(lines, i, end);
      assert hi == i + 1 + MarkerRun(lines, i + 1, end);
      LookaheadFacts(lines, i + 1, end, Continue(lines[i], call));
      ContinueAfter(lines, i, hi, call);
    } else {
      assert MarkerRun(lines, i, end) == 0;
      assert LastMarked(lines, i, i, ParametersMarker) == None;
      assert LastMarked(lines, i, i, ReasoningMarker) == None;
    }
  }

  /** What `_parse_tool_call(lines, start)` returns: `None` past the end, the invocation otherwise. */
  function ParsedToolCall(lines: seq<string>, start: nat): (r: Option<ToolCall>)
    ensures r.Some? <==> start < |lines|
    ensures r.Some? ==> 1 <= r.value.linesConsumed <= LookaheadLimit
    ensures r.Some? ==> start + r.value.linesConsumed <= |lines|
  {
    if start >= |lines| then None
    else
      Some(Lookahead(lines, start + 1, LookaheadEnd(lines, start), Opened(lines[start])))
  }

  /** `_parse_tool_call`: the lookahead loop over the lines after a `TOOL_CALL:` line. */
  method ParseToolCall(lines: seq<string>, start: nat) returns (toolCall: Option<ToolCall>)
    ensures toolCall == ParsedToolCall(lines, start)
  {
    if start >= |lines| {
      return None;
    }
    var end := LookaheadEnd(lines, start);
    var call := Opened(lines[start]);
    var i := start + 1;
    while i < |lines| && i < start + LookaheadLimit
      invariant start + 1 <= i <= end
      invariant Lookahead(lines, i, end, call) == Lookahead(lines, start + 1, end, Opened(lines[start]))
      decreases end - i
    {
      ghost var previous := call;
      var line := Strip(lines[i]);
      if StartsWith(line, ParametersMarker) {
        var paramStr := Strip(RemoveAll(line, ParametersMarker));
        var parameters := ParseParameters(paramStr);
        call := call.(parameters := parameters, linesConsumed := call.linesConsumed + 1);
        assert call == Continue(lines[i], previous);
      } else if StartsWith(line, ReasoningMarker) {
        call := call.(reasoning := Strip(RemoveAll(line, ReasoningMarker)), linesConsumed := call.linesConsumed + 1);
        assert call == Continue(lines[i], previous);
      } else {
        // a blank line or any other line ends the lookahead
        break;
      }
      i := i + 1;
    }
    return Some(call);
  }

  /**
   * The lookahead rule: a `TOOL_CALL:` line spans itself and the run of
   * continuation lines after it (at most nine; a blank or any other line
   * stops the run), the command is the line without its marker, and the last
   * `PARAMETERS:` and `REASONING:` lines of the run win.
   */
  lemma LookaheadRule(lines: seq<string>, start: nat)
    requires start < |lines|
    ensures ParsedToolCall(lines, start).value.command == Strip(RemoveAll(lines[start], ToolCallMarker))
    ensures ParsedToolCall(lines, start).value.linesConsumed == 1 + MarkerRun(lines, start + 1, LookaheadEnd(lines, start))
  {
    var end := LookaheadEnd(lines, start);
    assert ParsedToolCall(lines, start) == Some(Lookahead(lines, start + 1, end, Opened(lines[start])));
    LookaheadConsumed(lines, start + 1, end, Opened(lines[start]));
    LookaheadKeepsCommand(lines, start + 1, end, Opened(lines[start]));
  }

  /** Of the lines an invocation spans, the last `PARAMETERS:` line and the last `REASONING:` line win. */
  lemma LastMarkerWins(lines: seq<string>, start: nat)
    requires start < |lines|
    ensures ParsedToolCall(lines, start).value.parameters ==
      ParametersAfter(lines, start + 1, start + ParsedToolCall(lines, start).value.linesConsumed, [])
    ensures ParsedToolCall(lines, start).value.reasoning ==
      ReasoningAfter(lines, start + 1, start + ParsedToolCall(lines, start).value.linesConsumed, "")
  {
    var end := LookaheadEnd(lines, start);
    var call := Lookahead(lines, start + 1, end, Opened(lines[start]));
    assert ParsedToolCall(lines, start) == Some(call);
    LookaheadFacts(lines, start + 1, end, Opened(lines[start]));
    assert start + call.linesConsumed == start + 1 + MarkerRun(lines, start + 1, end);
  }

  /** The lookahead never changes the command. */
  lemma {:induction false} LookaheadKeepsCommand(lines: seq<string>, i: nat, end: nat, call: ToolCall)
    requires i <= end <= |lines|
    ensures Lookahead(lines, i, end, call).command == call.command
    decreases end - i
  {
    if i < end && IsMarkerLine(lines[i]) {
      LookaheadKeepsCommand(lines, i + 1, end, Continue(lines[i], call));
    }
  }

  /** The lookahead consumes exactly the run of continuation lines. */
  lemma {:induction false} LookaheadConsumed(lines: seq<string>, i: nat, end: nat, call: ToolCall)
    requires i <= end <= |lines|
    ensures Lookahead(lines, i, end, call).linesConsumed == call.linesConsumed + MarkerRun(lines, i, end)
    decreases end - i
  {
    if i < end && IsMarkerLine(lines[i]) {
      LookaheadConsumed(lines, i + 1, end, Continue(lines[i], call));
    }
  }

  /**
   * The lines an invocation spans after its `TOOL_CALL:` line are all
   * continuation lines, and the line after them, if the lookahead reached
   * it, is not one.
   */
  lemma BlockExtent(lines: seq<string>, start: nat)
    requires start < |lines|
    ensures forall j :: start < j < start + ParsedToolCall(lines, start).value.linesConsumed ==> IsMarkerLine(lines[j])
    ensures start + ParsedToolCall(lines, start).value.linesConsumed < LookaheadEnd(lines, start) ==>
      !IsMarkerLine(lines[start + ParsedToolCall(lines, start).value.linesConsumed])
  {
    var end := LookaheadEnd(lines, start);
    assert ParsedToolCall(lines, start) == Some(Lookahead(lines, start + 1, end, Opened(lines[start])));
    LookaheadConsumed(lines, start + 1, end, Opened(lines[start]));
    MarkerRunIsMaximal(lines, start + 1, end);
  }

  /** A `TOOL_CALL:` on the last line still yields an invocation, with no parameters and no reasoning. */
  lemma ToolCallOnLastLine(lines: seq<string>)
    requires |lines| > 0
    ensures ParsedToolCall(lines, |lines| - 1) == Some(Opened(lines[|lines| - 1]))
    ensures Opened(lines[|lines| - 1]).parameters == [] && Opened(lines[|lines| - 1]).reasoning == ""
    ensures Opened(lines[|lines| - 1]).linesConsumed == 1
  {
  }

  /** A line that starts, unstripped, with `TOOL_CALL:` is never a continuation line. */
  lemma ToolCallLineIsNotMarker(line: string)
    ensures StartsWith(line, ToolCallMarker) ==> !IsMarkerLine(line)
  {
    if StartsWith(line, ToolCallMarker) {
      assert line[0] == 'T' && line[9] == ':';
      StripKeepsLead(line, 9);
      assert Strip(line)[0] == 'T';
    }
  }
}
