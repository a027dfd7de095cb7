/**
 * Tool execution: `_execute_tool_call` and its adapters
 * (llm_interpreter.py:540-669).
 *
 * Each adapter first builds a process request (an argv and a timeout), or
 * refuses when a required parameter is missing; the request is then handed
 * to the process runner. The runner (`subprocess.run`, possibly through
 * `docker exec`) is an oracle `run` that maps a request to the way the
 * process ended: it exited with a return code and captured output, or
 * spawning it raised an exception.
 */
module Executor {
  import opened Wrappers
  import opened Text
  import opened Params
  import opened Parser

  /** What `subprocess.run(argv, capture_output=True, text=True, timeout=...)` is asked to do. */
  datatype ProcessRequest = ProcessRequest(argv: seq<string>, timeout: nat)

  /** How a process request ended: it exited, or `subprocess.run` raised (missing binary, timeout). */
  datatype ProcessOutcome =
    | Exited(returnCode: int, stdout: string, stderr: string)
    | Raised(message: string)

  /** The result record of one tool call; the timestamp is not modelled. */
  datatype ToolResult = ToolResult(
    tool: string,
    parameters: Params,
    reasoning: string,
    success: bool,
    output: string,
    error: string)

  /** An adapter either refuses before spawning anything, or asks for one process. */
  datatype Prepared = Refused(message: string) | Spawn(request: ProcessRequest)

  const FetchTimeout: nat := 30
  const ScriptTimeout: nat := 60
  const ShellTimeout: nat := 30
  const GenericTimeout: nat := 60

  const DefaultFetchTarget := "/workspace/fetched_content.html"
  const DefaultListPath := "/workspace"

  const MissingUrl := "URL parameter required for curl"
  const MissingScript := "Script parameter required for python3"

  /** The commands that go through the basic shell adapter. */
  const ShellCommands: seq<string> := ["cat", "ls", "grep", "echo", "mkdir"]

  /** `if self.context.container_name:` — a name is used only when it is present and non-empty. */
  predicate InContainerMode(container: Option<string>)
  {
    container.Some? && container.value != ""
  }

  /** The words put in front of a host argv to run it inside the container. */
  function ContainerPrefix(container: Option<string>): seq<string>
  {
    if InContainerMode(container) then ["docker", "exec", container.value] else []
  }

  function WithContainer(container: Option<string>, argv: seq<string>): seq<string>
  {
    ContainerPrefix(container) + argv
  }

  /** The argv of `_execute_curl` on the host, once a url is known. */
  function CurlArgv(params: Params): seq<string>
  {
    ["curl", "-s", "-L", Get(params, "url", ""), "-o", Get(params, "output_file", DefaultFetchTarget)]
  }

  /** The argv of `_execute_python` on the host, once a script is known. */
  function PythonArgv(params: Params): seq<string>
  {
    var args := Get(params, "args", "");
    ["python3", Get(params, "script", "")] + (if args != "" then SplitWhitespace(args) else [])
  }

  /** The arguments `_execute_shell_command` passes after the command name. */
  function ShellArgs(command: string, params: Params): seq<string>
  {
    if command == "cat" then
      var file := Get(params, "file", "");
      if file != "" then [file] else []
    else if command == "ls" then
      [Get(params, "path", DefaultListPath)]
    else if command == "mkdir" then
      var path := Get(params, "path", "");
      if path != "" then ["-p", path] else []
    else if command == "echo" then
      var text := Get(params, "text", "");
      if text != "" then [text] else []
    else
      []
  }

  /** `--key value` for every parameter except `command`, in insertion order. */
  function GenericArgs(params: Params): seq<string>
  {
    if |params| == 0 then []
    else
      (if params[0].0 != "command" then ["--" + params[0].0, params[0].1] else [])
      + GenericArgs(params[1..])
  }

  /** The dispatch of `_execute_tool_call` together with the request each adapter builds. */
  function Prepare(command: string, params: Params, container: Option<string>): Prepared
  {
    if command == "curl" then
      if Get(params, "url", "") == "" then Refused(MissingUrl)
      else Spawn(ProcessRequest(WithContainer(container, CurlArgv(params)), FetchTimeout))
    else if command == "python3" then
      if Get(params, "script", "") == "" then Refused(MissingScript)
      else Spawn(ProcessRequest(WithContainer(container, PythonArgv(params)), ScriptTimeout))
    else if command in ShellCommands then
      Spawn(ProcessRequest(WithContainer(container, [command] + ShellArgs(command, params)), ShellTimeout))
    else
      Spawn(ProcessRequest(WithContainer(container, [command] + GenericArgs(params)), GenericTimeout))
  }

  /** `_execute_tool_call`: dispatch, build the request, run it, and record how it ended. */
  function ExecuteToolCall(call: ToolCall, container: Option<string>, run: ProcessRequest -> ProcessOutcome): ToolResult
  {
    var blank := ToolResult(call.command, call.parameters, call.reasoning, false, "", "");
    match Prepare(call.command, call.parameters, container)
    case Refused(message) => blank.(error := message)
    case Spawn(request) =>
      match run(request)
      case Exited(code, out, err) => blank.(success := code == 0, output := out, error := err)
      case Raised(message) => blank.(error := message)
  }

  /**
   * Executing a tool call never fails itself. The result always echoes the
   * call; it succeeds exactly when a process was spawned and exited with 0;
   * a refusal or a raised exception leaves no output and its message as the error.
   */
  lemma ExecuteOutcome(call: ToolCall, container: Option<string>, run: ProcessRequest -> ProcessOutcome)
    ensures var r := ExecuteToolCall(call, container, run);
      r.tool == call.command && r.parameters == call.parameters && r.reasoning == call.reasoning
    ensures var r := ExecuteToolCall(call, container, run);
      var prepared := Prepare(call.command, call.parameters, container);
      r.success <==> prepared.Spawn? && run(prepared.request).Exited? && run(prepared.request).returnCode == 0
    ensures var r := ExecuteToolCall(call, container, run);
      var prepared := Prepare(call.command, call.parameters, container);
      prepared.Refused? ==> r.output == "" && r.error == prepared.message
    ensures var r := ExecuteToolCall(call, container, run);
      var prepared := Prepare(call.command, call.parameters, container);
      prepared.Spawn? ==>
        match run(prepared.request)
        case Exited(_, out, err) => r.output == out && r.error == err
        case Raised(message) => r.output == "" && r.error == message
  {
  }

  /** A refusal happens exactly when curl has no url or python3 has no script; nothing is spawned then. */
  lemma RequiredParameters(command: string, params: Params, container: Option<string>)
    ensures Prepare(command, params, container).Refused? <==>
      (command == "curl" && Get(params, "url", "") == "") ||
      (command == "python3" && Get(params, "script", "") == "")
    ensures Prepare(command, params, container).Refused? ==>
      Prepare(command, params, container).message == if command == "curl" then MissingUrl else MissingScript
  {
  }

  /**
   * Every spawned argv is the container prefix, then the tool's own name,
   * and the timeout depends only on the adapter: 30 seconds for curl and
   * the shell commands, 60 for python3 and everything else.
   */
  lemma AdapterShape(command: string, params: Params, container: Option<string>)
    requires Prepare(command, params, container).Spawn?
    ensures var argv := Prepare(command, params, container).request.argv;
      |ContainerPrefix(container)| < |argv| &&
      argv[..|ContainerPrefix(container)|] == ContainerPrefix(container) &&
      argv[|ContainerPrefix(container)|] == command
    ensures Prepare(command, params, container).request.timeout ==
      if command == "curl" || command in ShellCommands then 30 else 60
  {
  }

  /**
   * A spawned curl fetches the given url silently, following redirects, into
   * `output_file`, or into `/workspace/fetched_content.html` when none is given.
   */
  lemma CurlArguments(params: Params, container: Option<string>)
    requires Prepare("curl", params, container).Spawn?
    ensures Lookup(params, "url") == Some(Get(params, "url", "")) && Get(params, "url", "") != ""
    ensures Prepare("curl", params, container).request.argv ==
      ContainerPrefix(container) +
      ["curl", "-s", "-L", Get(params, "url", ""), "-o",
       if Lookup(params, "output_file").Some? then Lookup(params, "output_file").value else DefaultFetchTarget]
  {
  }

  /** An absent or empty container name runs on the host; a non-empty one wraps the argv in `docker exec NAME`. */
  lemma ContainerMode(container: Option<string>, argv: seq<string>)
    ensures !InContainerMode(container) ==> WithContainer(container, argv) == argv
    ensures InContainerMode(container) ==>
      |WithContainer(container, argv)| == |argv| + 3 &&
      WithContainer(container, argv)[..3] == ["docker", "exec", container.value] &&
      WithContainer(container, argv)[3..] == argv
  {
  }

  /**
   * `python3 SCRIPT` followed by `args.split()`: words cut at every
   * whitespace character (see `SplitWhitespaceOfWord`,
   * `SplitWhitespaceAtSpace` and `SplitWhitespaceOfSpaces`), none of them
   * empty, which together give back the text of `args` without its whitespace.
   */
  lemma PythonArguments(params: Params)
    ensures PythonArgv(params)[..2] == ["python3", Get(params, "script", "")]
    ensures PythonArgv(params)[2..] == SplitWhitespace(Get(params, "args", ""))
    ensures Concat(PythonArgv(params)[2..]) == RemoveSpaces(Get(params, "args", ""))
    ensures forall k :: 2 <= k < |PythonArgv(params)| ==>
      PythonArgv(params)[k] != "" && NoSpace(PythonArgv(params)[k])
  {
    var args := Get(params, "args", "");
    var argv := PythonArgv(params);
    if args != "" {
      assert argv[2..] == SplitWhitespace(args);
      SplitWhitespaceKeepsText(args);
      SplitWhitespaceWords(args);
    } else {
      assert argv[2..] == [];
      assert LStrip(args) == "";
    }
  }

  /**
   * The shell adapter's arguments: a file, a path or a text only when it is
   * non-empty, except `ls`, which always lists one path and falls back to
   * the workspace only when no `path` is given at all; `grep` gets none.
   */
  lemma ShellArguments(params: Params)
    ensures ShellArgs("cat", params) == [] <==> Get(params, "file", "") == ""
    ensures ShellArgs("echo", params) == [] <==> Get(params, "text", "") == ""
    ensures ShellArgs("mkdir", params) == [] <==> Get(params, "path", "") == ""
    ensures Lookup(params, "file").Some? && Lookup(params, "file").value != "" ==>
      ShellArgs("cat", params) == [Lookup(params, "file").value]
    ensures Lookup(params, "text").Some? && Lookup(params, "text").value != "" ==>
      ShellArgs("echo", params) == [Lookup(params, "text").value]
    ensures Lookup(params, "path").Some? && Lookup(params, "path").value != "" ==>
      ShellArgs("mkdir", params) == ["-p", Lookup(params, "path").value]
    ensures ShellArgs("ls", params) == [if Lookup(params, "path").Some? then Lookup(params, "path").value else DefaultListPath]
    ensures ShellArgs("grep", params) == []
  {
  }

  /** The parameters a generic command sees: all but `command`, in order. */
  function WithoutCommand(params: Params): (r: Params)
    ensures |r| <= |params|
  {
    if |params| == 0 then []
    else (if params[0].0 != "command" then [params[0]] else []) + WithoutCommand(params[1..])
  }

  /** Read `--key value` pairs back into parameters. */
  function DecodeFlags(args: seq<string>): Params
    decreases |args|
  {
    if |args| < 2 then []
    else
      var flag := args[0];
      [(if StartsWith(flag, "--") then flag[2..] else flag, args[1])] + DecodeFlags(args[2..])
  }

  /** The generic adapter loses nothing but the `command` entry: its flags decode back to the parameters. */
  lemma {:induction false} GenericFlagsRoundTrip(params: Params)
    ensures |GenericArgs(params)| == 2 * |WithoutCommand(params)|
    ensures DecodeFlags(GenericArgs(params)) == WithoutCommand(params)
    decreases |params|
  {
    if |params| > 0 {
      GenericFlagsRoundTrip(params[1..]);
      var rest := GenericArgs(params[1..]);
      if params[0].0 != "command" {
        var flag := "--" + params[0].0;
        assert StartsWith(flag, "--") && flag[2..] == params[0].0;
        assert GenericArgs(params) == [flag, params[0].1] + rest;
        assert ([flag, params[0].1] + rest)[2..] == rest;
      } else {
        assert GenericArgs(params) == rest;
      }
    }
  }
}
