# LLMunix interpreter: the tool-call loop

This project models the agentic loop of the LLMunix LLM interpreter
(`llm_interpreter.py`). The loop delegates a goal to the SystemAgent: at most
ten times it prompts the model with the execution context, and logs the reply.
It then parses the `TOOL_CALL:` / `PARAMETERS:` / `REASONING:` blocks in the
reply and runs each tool. Each tool runs on the host or through
`docker exec` in the container. The loop then updates the context and stops
as soon as the reply signals completion.

The modules follow the program's structure:

- `Wrappers`: `Option`.
- `Text`: the Python string operations the code relies on:
  - `strip` and `split()` with the `str.isspace` set;
  - `split(sep)`;
  - `replace(marker, '')`, which removes every occurrence;
  - `lower`, slicing and `join`.
- `Params`: the ordered `Dict[str, str]` and `_parse_parameters`.
- `Parser`: `_parse_tool_call` and its lookahead rule.
- `Executor`: `_execute_tool_call` and the curl, python3, shell and generic
  adapters. Each adapter builds a process request (argv and timeout) or
  refuses; the request then goes to the process runner.
- `Extraction`: `_extract_and_execute_tools`.
- `Context`: the execution-context dict, as a class updated in place by
  `_update_execution_context`.
- `Completion`: `_is_execution_complete`.
- `Formatting`: `_format_execution_history` and `_format_tool_results`.
- `Agent`: `_delegate_to_system_agent`, with what it writes to `history.md`
  and to `variables.json`.

The model and the process runner are parameters:

- `llm` maps what the prompt shows to the (already stripped) reply.
- `run` maps a process request to how the process ended: an exit code with
  its captured output, or an exception raised by `subprocess.run`.

The loops of the source are methods with loop invariants. Each is proved
equal to a recursive specification function, and the properties are proved
about that function:

- `Parser.ParseToolCall`
- `Params.ParseParameters`
- `Extraction.ScanLines`
- `Formatting.FormatExecutionHistory`
- `Formatting.FormatToolResults`
- `Agent.DelegateToSystemAgent`

## Model

| member | source | states |
|---|---|---|
| Text.StripTrims | llm_interpreter.py:503 | the result of `strip()` is empty or starts and ends with a non-whitespace character |
| Text.StripDropsSpace | llm_interpreter.py:503 | `strip()` removes only whitespace, from the two ends, and keeps the middle of the string as one piece |
| Text.SplitPieces | llm_interpreter.py:479 | no piece of `split(sep)` contains the separator |
| Text.SplitJoin | llm_interpreter.py:479 | joining the pieces of `split(sep)` with the separator gives the string back |
| Text.SplitWhitespaceOfWord | llm_interpreter.py:610 | `split()` of a non-empty string without whitespace is that one word |
| Text.SplitWhitespaceOfSpaces | llm_interpreter.py:610 | `split()` of a string of whitespace only gives no words |
| Text.SplitWhitespaceAtSpace | llm_interpreter.py:610 | `split()` cuts at every whitespace character: the words of `a + c + b` for a whitespace `c` are the words of `a` followed by the words of `b` |
| Params.ParseParameters | llm_interpreter.py:526-538 | the loop over the comma-separated segments builds exactly the dict `ParametersOf` describes (empty string gives the empty dict) |
| Params.ParametersLastWins | llm_interpreter.py:526-538 | the parsed dict has one entry per key, and a key maps to the trimmed value of the LAST segment that assigns it (split at its first `=`); a key no segment assigns is absent |
| Params.PutLookup | llm_interpreter.py:536 | after `params[key] = value`, `key` maps to `value` and every other key keeps its value |
| Params.PutKeys | llm_interpreter.py:536 | assignment keeps the keys' insertion order, appends a new key at the end, and keeps keys unique |
| Params.BindUniqueKeys | llm_interpreter.py:533-536 | the dict built from any sequence of segments has unique keys |
| Params.LastBinding | llm_interpreter.py:533-536 | finds the last segment that assigns a key, or reports that none does |
| Parser.ParsedToolCall | llm_interpreter.py:497-524 | `None` exactly when the start index is past the end; otherwise a call spanning between 1 and 10 lines, none past the end of the reply |
| Parser.ParseToolCall | llm_interpreter.py:497-524 | the lookahead loop returns the call `ParsedToolCall` describes |
| Parser.LookaheadRule | llm_interpreter.py:503-521 | the command is the `TOOL_CALL:` line with every marker removed and stripped; the call spans its line plus the run of continuation lines that follow, cut at the lookahead limit |
| Parser.LastMarkerWins | llm_interpreter.py:512-519 | the parameters come from the last `PARAMETERS:` line of the span and the reasoning from the last `REASONING:` line; without one, they stay empty |
| Parser.BlockExtent | llm_interpreter.py:510-521 | every line the call spans after its first is a continuation line, and the line that stopped the lookahead (if before the limit) is not |
| Parser.LookaheadFacts | llm_interpreter.py:510-521 | the lookahead keeps the command, consumes the maximal run of continuation lines, and the last marker of each kind wins |
| Parser.MarkerRunIsMaximal | llm_interpreter.py:510-521 | the counted run consists of continuation lines and is followed by a line that is not one, or by the limit |
| Parser.LastMarkedIsLast | llm_interpreter.py:513-519 | the marker line chosen is marked and no later line in the span carries the same marker |
| Parser.ToolCallOnLastLine | llm_interpreter.py:497-507 | a `TOOL_CALL:` on the last line yields a call with no parameters, no reasoning and one line consumed |
| Parser.ToolCallLineIsNotMarker | llm_interpreter.py:483-521 | a line starting with `TOOL_CALL:` never continues the block before it |
| Executor.ExecuteOutcome | llm_interpreter.py:540-570 | the result echoes the call's command, parameters and reasoning; it succeeds iff a process was spawned and exited with 0; a refusal leaves no output and the refusal message; an exception leaves no output and its message; an exit records stdout and stderr |
| Executor.RequiredParameters | llm_interpreter.py:572-605 | nothing is spawned exactly when curl lacks a non-empty url or python3 lacks a non-empty script, with the corresponding message |
| Executor.AdapterShape | llm_interpreter.py:540-669 | every spawned argv is the container prefix followed by the tool name; timeouts are 30 s for curl and the shell commands, 60 s for python3 and generic commands |
| Executor.ContainerMode | llm_interpreter.py:581-586 | an absent or empty container name runs the argv unchanged; a non-empty one puts `docker exec NAME` in front |
| Executor.PythonArguments | llm_interpreter.py:598-610 | the argv is `python3 SCRIPT` followed by exactly `args.split()`: non-empty words without whitespace whose concatenation is `args` without its whitespace |
| Executor.ShellArguments | llm_interpreter.py:619-640 | cat gets `[file]`, echo `[text]` and mkdir `['-p', path]` exactly when that parameter is non-empty, and no arguments otherwise; ls gets `[path]` when a path is given and `['/workspace']` otherwise; grep gets none |
| Executor.CurlArguments | llm_interpreter.py:572-596 | a spawned curl has a non-empty url and runs `curl -s -L URL -o FILE`, where FILE is `output_file` when given and `/workspace/fetched_content.html` otherwise |
| Executor.GenericFlagsRoundTrip | llm_interpreter.py:652-657 | the generic flags are two per parameter other than `command` and decode back to exactly those parameters, in order |
| Extraction.ExtractAndExecute | llm_interpreter.py:474-495 | splitting the reply at newlines and scanning the lines returns the results `Extracted` describes |
| Extraction.ScanLines | llm_interpreter.py:482-493 | the scanning loop, handed the tool executor, returns the results `ExtractFrom` describes from the first line on |
| Extraction.EveryToolCallRuns | llm_interpreter.py:474-495 | the results are, in line order, one per line starting with `TOOL_CALL:`, each from the call parsed at that line: no such line is skipped by the block before it |
| Extraction.BlockSpan | llm_interpreter.py:483-489 | the lines a block consumes after its `TOOL_CALL:` line hold no other `TOOL_CALL:` line |
| Extraction.ResultsByLine | llm_interpreter.py:474-495 | there are as many results as lines starting with `TOOL_CALL:`, and the k-th result is the execution of the call parsed at the k-th such line |
| Extraction.NoToolCallNoResults | llm_interpreter.py:474-495 | a reply with no line starting with `TOOL_CALL:` executes nothing |
| Context.ExecutionContext.constructor | llm_interpreter.py:404-415 | the context starts with the goal and container, empty history and results, state `initialized` |
| Context.ExecutionContext.Update | llm_interpreter.py:671-686 | the response is appended to the history, the results to the results, and the state moves as `NextStatus` says |
| Context.StatusLabelInjective | llm_interpreter.py:679-684 | the three state labels are distinct |
| Context.ReplayAppends | llm_interpreter.py:671-677 | after any updates, history and results are the old ones followed by the new ones, in order; goal and container are untouched |
| Context.ReplayStatus | llm_interpreter.py:679-684 | the state is `error_recovery` or `progressing` according to the last update that brought results, and unchanged when none did |
| Context.OneFailureIsEnough | llm_interpreter.py:680-682 | one failed result in an update puts the context into `error_recovery` |
| Context.InitializedUntilFirstResult | llm_interpreter.py:679-684 | the context stays `initialized` exactly until an update brings a result |
| Context.LastActiveIsLast | llm_interpreter.py:679-684 | no update after the one `LastActive` finds brings results |
| Completion.RecentSuccessByIndex | llm_interpreter.py:699 | the result condition holds iff there is a result and each of the last (up to) three succeeded |
| Completion.RecentFailureNeedsPhrase | llm_interpreter.py:699-701 | with a failure among the last three results, the step completes iff the lowered reply contains a completion phrase |
| Completion.PhraseCompletes | llm_interpreter.py:690-701 | a completion phrase anywhere in the lowered reply completes, whatever the results |
| Completion.CaseInsensitive | llm_interpreter.py:695 | lowering the reply first does not change the verdict |
| Completion.OnlyRecentResultsCount | llm_interpreter.py:699 | results before the last three do not change the verdict |
| Completion.NoResultsNeedsPhrase | llm_interpreter.py:699-701 | with no results, the step completes iff a phrase is present |
| Completion.CompletionSurvivesAppend | llm_interpreter.py:688-701 | text added after or before a completing reply keeps it completing |
| Completion.AbandonedCountsAsDone | llm_interpreter.py:690-696 | the plain substring test lets "abandoned" complete the run, through "done" |
| Formatting.FormatExecutionHistory | llm_interpreter.py:730-739 | the loop produces `ExecutionHistoryText`: the placeholder for no history, else the numbered last three steps joined by newlines |
| Formatting.FormatToolResults | llm_interpreter.py:741-751 | the loop produces `ToolResultsText`: the placeholder for no results, else one marked line per result of the last five |
| Formatting.StepLinesAt | llm_interpreter.py:736-737 | the k-th line shows step k+1 and the first 200 characters of its response |
| Formatting.ResultLinesAt | llm_interpreter.py:747-749 | the k-th line is built from the k-th result of the window |
| Formatting.ResultMark | llm_interpreter.py:748 | a result line starts with the check mark iff the result succeeded |
| Formatting.HistoryPlaceholder | llm_interpreter.py:732-733 | the placeholder appears iff there is no history |
| Formatting.ResultsPlaceholder | llm_interpreter.py:743-744 | the placeholder appears iff there are no results |
| Formatting.HistoryWindowOnly | llm_interpreter.py:736 | history older than the last three steps does not change the section |
| Formatting.ResultsWindowOnly | llm_interpreter.py:747 | results older than the last five do not change the section |
| Formatting.HistoryTextBounded | llm_interpreter.py:735-739 | the history section is at most 636 characters, however long the history and its responses |
| Agent.DelegateToSystemAgent | llm_interpreter.py:335-383 | the loop over the context object produces the outcome `Run` describes, and reports the budget exhausted iff the run did not complete |
| Agent.RunSettles | llm_interpreter.py:350-378 | every run does 1 to 10 iterations and logs one section per reply, headed with its iteration number. Each reply is the model's answer to the prompt built from the context at its iteration. The context is the replay of the replies and the results each produced. One snapshot is taken per iteration that did not complete. The run stops at the first completing reply, or after ten. |
| Agent.RunFromSettles | llm_interpreter.py:353-378 | from any consistent state (each reply so far answers its iteration's prompt), the rest of the loop ends in a settled outcome |
| Agent.AnswersStep | llm_interpreter.py:358-361 | the reply to the prompt built from the current context extends the record of replies that answer their iteration's prompt |
| Agent.StepConsistent | llm_interpreter.py:353-378 | an iteration whose reply answers the current prompt and does not complete keeps the loop state consistent |
| Agent.FinalStepSettles | llm_interpreter.py:372-375 | the iteration whose reply answers the current prompt and completes leaves a settled outcome without a snapshot for itself |
| Agent.NextStep | llm_interpreter.py:369-370 | the updated context is the replay of one more step |
| Agent.LogStep | llm_interpreter.py:363-364 | each iteration appends one `history.md` section headed "SystemAgent Iteration N" holding the reply |
| Agent.SnapshotStep | llm_interpreter.py:378 | the snapshot written after an iteration reflects the context after that iteration |
| Agent.ExhaustedMeansNoCompletion | llm_interpreter.py:353-383 | the budget runs out iff all ten replies fail the completion check |
| Agent.ReportedIffExhaustedOrLast | llm_interpreter.py:380-381 | the warning as written is issued iff the budget ran out or the run completed at the tenth iteration |
| Agent.LateCompletionReportedAsMaximum | llm_interpreter.py:380-381 | a model that answers "done" only at the tenth prompt completes the run, yet the warning is issued |

## Left out

- Timestamps, the environment information and its detection, `workspace_dir` and `state_dir`: the environment, `workspace_dir` and `state_dir` appear in every prompt, but they stay constant during the loop; the timestamps are not modelled.
- The prompt text of `_build_iteration_prompt`, the SystemAgent.md specification it embeds, the workspace file listing and the CLI tool list are left out of `Agent.PromptView`. The view holds the goal, container, iteration, state and the two formatted sections. The file listing changes as tools write files, and the model does not capture that.
- `run` is one fixed function of the process request, so two identical requests end identically within a run. The effects of tools on the file system (`curl -o`, scripts, `mkdir -p`) on later commands are not modelled.
- Reading SystemAgent.md and its `FileNotFoundError`: this is file I/O before the loop starts.
- The OpenAI client in `_call_llm`, including its `ERROR:` string on failure: this is the oracle `llm`, whose reply may be any string.
- Docker and `subprocess.run`: this is the oracle `run`. A timeout or a missing binary is its `Raised` outcome.
- `plan.md`: this holds the same goal, state and iteration count as `variables.json`, which is modelled as `Agent.StateSnapshot`.
- The `history.md` file itself: it is modelled as the list of its sections.
- Console output (`print`).
- `Text.Lower` maps only the characters whose lowercase contains an ASCII letter (A-Z, KELVIN SIGN, LATIN CAPITAL LETTER I WITH DOT ABOVE); all other characters are kept. This is exact for the tests it feeds, which look for ASCII phrases.
- The `else: i += 1` branch after `if tool_call:` in `_extract_and_execute_tools`: it cannot be taken. The parser returns a non-empty dict for every index inside the reply.
- The `get('lines_consumed', 1)` default: the parser always sets the key.
- `_execute_tool_call`'s `except` also catches exceptions from the adapters' own code. In the source only `subprocess.run` can raise, so that is the only exception modelled.
- The interpreter's boot, workspace and Docker setup, cleanup, the `main` entry point, the tests, and the other interpreters of the repository: they are outside the loop.

## Findings

| source | as written | input that shows it | evidently intended | confidence | as-written member | corrected member |
|---|---|---|---|---|---|---|
| llm_interpreter.py:380-381 | after the loop, "Maximum iterations reached" is printed whenever `iteration >= max_iterations`, which also holds when the loop broke out at iteration 10 because the reply completed | a model that replies "" to prompts 1-9 and "done" to prompt 10: the run completes at iteration 10 and the warning is still printed | warn only when the loop ended without a completing reply | not executed | Agent.MaxIterationsReported (shown by Agent.LateCompletionReportedAsMaximum) | Agent.Exhausted (proved by Agent.ExhaustedMeansNoCompletion; reported by Agent.DelegateToSystemAgent) |
