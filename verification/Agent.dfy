/** The agent layer: tool execution, the workspace and its reconstruction from the log,
    and the message history that is sent to the provider. */
module Agent {
  import opened Options
  import opened Store
  import opened Money

  const OBSERVATION_CHARS: nat := 2000

  // A path as safe_join resolves it, relative to the workspace root.
  type Path = seq<string>
  type Files = map<Path, string>

  datatype Message = Prompt(text: string) | Assistant(action: Action) | Observed(observation: Observation)

  datatype Response = Response(action: Action, inTokens: int, outTokens: int, cost: real)

  datatype SandboxResult = SandboxResult(exitCode: int, stdout: string, stderr: string,
                                         timedOut: bool, oomKilled: bool)

  /** What the worker cannot see into: `resolve` is safe_join (None: it raises), `render` is
      str() of a value that is not a string, `sandbox` runs a file and leaves the files alone,
      `answers` relates a message history to the answers the provider may give. */
  datatype Env = Env(resolve: string -> Option<Path>,
                     render: Json -> string,
                     sandbox: (Files, Path) -> SandboxResult,
                     answers: (seq<Message>, Response) -> bool)

  function Clip(text: string): string {
    if |text| <= OBSERVATION_CHARS then text else text[..OBSERVATION_CHARS] + "...[truncated]"
  }

  // str(value)
  function Text(env: Env, value: Json): string {
    if value.Str? then value.s else env.render(value)
  }

  function Get(action: Action, key: string, default: Json): Json {
    if key in action then action[key] else default
  }

  predicate IsTool(action: Action, tool: string) {
    Get(action, "tool", Null) == Str(tool)
  }

  function Args(action: Action): Json {
    Get(action, "args", Obj(map[]))
  }

  // safe_join(workspace, args["path"]); None stands for TypeError, KeyError and UnsafePathError.
  function Target(env: Env, action: Action): Option<Path> {
    var args := Args(action);
    if args.Obj? && "path" in args.fields && args.fields["path"].Str?
    then env.resolve(args.fields["path"].s)
    else None
  }

  function Content(action: Action): Option<Json> {
    var args := Args(action);
    if args.Obj? && "content" in args.fields then Some(args.fields["content"]) else None
  }

  /* ---------- tool execution ---------- */

  datatype Execution = Performed(observation: Observation, files: Files) | Raised

  function Execute(env: Env, files: Files, action: Action): Execution {
    if IsTool(action, "write_file") then
      match (Target(env, action), Content(action))
      case (Some(path), Some(content)) => Performed(Written, files[path := Text(env, content)])
      case _ => Performed(Error(BadArguments), files)
    else if IsTool(action, "run_code") then
      match Target(env, action)
      case Some(path) =>
        var r := env.sandbox(files, path);
        Performed(Ran(r.exitCode, Clip(r.stdout), Clip(r.stderr), r.timedOut, r.oomKilled), files)
      case None => Performed(Error(BadArguments), files)
    else if IsTool(action, "finish") then
      if Args(action).Obj? then
        var given := Args(action).fields;
        Performed(Summary(if "summary" in given then Text(env, given["summary"]) else ""), files)
      else Raised                              // args.get on a value without .get: AttributeError
    else if IsTool(action, "invalid") then
      Performed(Error(NoToolCall), files)
    else Performed(Error(UnknownTool), files)
  }

  /* ---------- the workspace ---------- */

  predicate IsWrite(p: Payload) {
    p.AgentPayload? && IsTool(p.action, "write_file") && !p.observation.Error?
  }

  // The files after the successful writes of the log, as the executing worker left them.
  function Live(env: Env, log: seq<Event>): Files {
    if log == [] then map[]
    else
      var files, p := Live(env, log[..|log| - 1]), log[|log| - 1].payload;
      if IsWrite(p) && Target(env, p.action).Some? && Content(p.action).Some?
      then files[Target(env, p.action).value := Text(env, Content(p.action).value)]
      else files
  }

  // materialize_workspace: None when a KeyError, TypeError or UnsafePathError escapes.
  function Replay(env: Env, log: seq<Event>): Option<Files> {
    if log == [] then Some(map[])
    else
      var before, p := Replay(env, log[..|log| - 1]), log[|log| - 1].payload;
      if before.None? || !IsWrite(p) then before
      else match (Target(env, p.action), Content(p.action))
           case (Some(path), Some(Str(text))) => Some(before.value[path := text])
           case _ => None
  }

  /** What cannot be rebuilt from a prefix cannot be rebuilt from the log. */
  lemma {:induction false} ReplayStops(env: Env, log: seq<Event>, k: nat)
    requires k <= |log| && Replay(env, log[..k]) == None
    ensures Replay(env, log) == None
    decreases |log| - k
  {
    if k < |log| {
      assert log[..k + 1][..k] == log[..k];
      ReplayStops(env, log, k + 1);
    } else {
      assert log[..k] == log;
    }
  }

  // The observation of event e is what its action does to the files of the prefix.
  predicate ObservedIn(env: Env, pre: seq<Event>, e: Event) {
    e.payload.AgentPayload? ==>
      var x := Execute(env, Live(env, pre), e.payload.action);
      x.Performed? && x.observation == e.payload.observation
  }

  predicate Consistent(env: Env, log: seq<Event>) {
    forall i :: 0 <= i < |log| ==> ObservedIn(env, log[..i], log[i])
  }

  predicate StringContents(log: seq<Event>) {
    forall i :: 0 <= i < |log| && IsWrite(log[i].payload) ==>
      Content(log[i].payload.action).Some? && Content(log[i].payload.action).value.Str?
  }

  lemma LiveAppend(env: Env, pre: seq<Event>, e: Event)
    requires ObservedIn(env, pre, e)
    ensures Live(env, pre + [e]) ==
              if e.payload.AgentPayload? then Execute(env, Live(env, pre), e.payload.action).files
              else Live(env, pre)
  {
    assert (pre + [e])[..|pre|] == pre;
  }

  /** Rebuilding from the log succeeds exactly when every successful write carried a string,
      and then it yields the files the executing workers saw. `_execute` converts the content
      with str(); `materialize_workspace` does not, hence the condition. */
  lemma {:induction false} RebuildExact(env: Env, log: seq<Event>)
    requires Consistent(env, log)
    ensures Replay(env, log).Some? <==> StringContents(log)
    ensures Replay(env, log).Some? ==> Replay(env, log).value == Live(env, log)
  {
    if log != [] {
      var pre := log[..|log| - 1];
      forall i | 0 <= i < |pre| ensures ObservedIn(env, pre[..i], pre[i]) {
        assert pre[..i] == log[..i];
        assert ObservedIn(env, log[..i], log[i]);
      }
      RebuildExact(env, pre);
      assert ObservedIn(env, log[..|log| - 1], log[|log| - 1]);
      assert StringContents(log) <==> StringContents(pre) && (IsWrite(log[|log| - 1].payload) ==>
        Content(log[|log| - 1].payload.action).Some? && Content(log[|log| - 1].payload.action).value.Str?) by {
        assert forall i :: 0 <= i < |pre| ==> log[i] == pre[i];
      }
    }
  }

  // The event records a successful write to the path.
  predicate WritesTo(env: Env, e: Event, path: Path) {
    && e.payload.AgentPayload? && e.payload.observation == Written
    && var a := e.payload.action;
       && "tool" in a && a["tool"] == Str("write_file") && "args" in a && a["args"].Obj?
       && var args := a["args"].fields;
          "content" in args && "path" in args && args["path"].Str? && env.resolve(args["path"].s) == Some(path)
  }

  // str(content)
  function TextOf(env: Env, e: Event, path: Path): string
    requires WritesTo(env, e, path)
  {
    var content := e.payload.action["args"].fields["content"];
    if content.Str? then content.s else env.render(content)
  }

  lemma WritesExact(env: Env, pre: seq<Event>, e: Event, path: Path)
    requires ObservedIn(env, pre, e)
    ensures WritesTo(env, e, path) <==> IsWrite(e.payload) && Target(env, e.payload.action) == Some(path)
    ensures WritesTo(env, e, path) ==> Content(e.payload.action).Some?
    ensures WritesTo(env, e, path) ==> TextOf(env, e, path) == Text(env, Content(e.payload.action).value)
    ensures IsWrite(e.payload) ==> Target(env, e.payload.action).Some? && Content(e.payload.action).Some?
  {
  }

  // i is the last write to the path.
  ghost predicate LastWrite(env: Env, log: seq<Event>, path: Path, i: nat) {
    i < |log| && WritesTo(env, log[i], path) && forall j :: i < j < |log| ==> !WritesTo(env, log[j], path)
  }

  // The text at a path, if there is a file.
  function FileAt(files: Files, path: Path): Option<string> {
    if path in files then Some(files[path]) else None
  }

  lemma LastWriteStep(env: Env, pre: seq<Event>, e: Event, path: Path, i: nat)
    ensures LastWrite(env, pre + [e], path, i) <==>
              if WritesTo(env, e, path) then i == |pre| else LastWrite(env, pre, path, i)
  {
    var log := pre + [e];
    assert forall j :: 0 <= j < |pre| ==> log[j] == pre[j];
    if LastWrite(env, log, path, i) && i < |pre| { assert !WritesTo(env, log[|pre|], path); }
  }

  lemma LiveStep(env: Env, pre: seq<Event>, e: Event, path: Path)
    requires ObservedIn(env, pre, e)
    ensures FileAt(Live(env, pre + [e]), path)
              == if WritesTo(env, e, path) then Some(TextOf(env, e, path)) else FileAt(Live(env, pre), path)
  {
    assert (pre + [e])[..|pre|] == pre;
    WritesExact(env, pre, e, path);
  }

  /** The workspace holds the paths that were written, each with the text of the last write. */
  lemma {:induction false} FilesAreLastWrites(env: Env, log: seq<Event>, path: Path)
    requires Consistent(env, log)
    ensures if exists i: nat :: LastWrite(env, log, path, i)
            then forall i: nat :: LastWrite(env, log, path, i) ==>
                   FileAt(Live(env, log), path) == Some(TextOf(env, log[i], path))
            else FileAt(Live(env, log), path) == None
  {
    if log != [] {
      var n := |log| - 1;
      var pre := log[..n];
      forall i | 0 <= i < n ensures ObservedIn(env, pre[..i], pre[i]) {
        assert pre[..i] == log[..i] && ObservedIn(env, log[..i], log[i]);
      }
      FilesAreLastWrites(env, pre, path);
      assert log == pre + [log[n]] && ObservedIn(env, log[..n], log[n]);
      LiveStep(env, pre, log[n], path);
      forall i: nat
        ensures LastWrite(env, log, path, i) <==>
                  if WritesTo(env, log[n], path) then i == n else LastWrite(env, pre, path, i)
      {
        LastWriteStep(env, pre, log[n], path, i);
      }
      if WritesTo(env, log[n], path) {
        assert LastWrite(env, log, path, n);
      } else if i: nat :| LastWrite(env, pre, path, i) {
        assert LastWrite(env, log, path, i);
      }
    }
  }

  /** A number as content is written by the worker but cannot be rebuilt after a takeover. */
  lemma NumberContentNotRebuilt(env: Env)
    requires env.resolve("a") == Some(["a"])
    ensures exists log :: Consistent(env, log) && ["a"] in Live(env, log) && Replay(env, log) == None
  {
    var action: Action := map["tool" := Str("write_file"),
                              "args" := Obj(map["path" := Str("a"), "content" := Num(1)])];
    var e := Event(1, AgentStep, AgentPayload(action, Written, 0, 0, 0.0), StepKey(0, 0), Meta("w", 1, false));
    var log := [e];
    assert log[..0] == [];
    assert log[..|log| - 1] == [];
    assert Consistent(env, log);
    assert ["a"] in Live(env, log) && Replay(env, log) == None;
  }

  /* ---------- the message history ---------- */

  function Turn(e: Event): seq<Message> {
    if e.payload.AgentPayload? then [Assistant(e.payload.action), Observed(e.payload.observation)] else []
  }

  // build_messages
  function Messages(prompt: string, log: seq<Event>): seq<Message> {
    if log == [] then [Prompt(prompt)] else Messages(prompt, log[..|log| - 1]) + Turn(log[|log| - 1])
  }

  // The positions of the charged events, in order.
  function Charged(log: seq<Event>): (at: seq<nat>)
    ensures forall k :: 0 <= k < |at| ==> at[k] < |log| && log[at[k]].payload.AgentPayload?
    ensures forall i :: 0 <= i < |log| && log[i].payload.AgentPayload? ==> i in at
    ensures forall j, k :: 0 <= j < k < |at| ==> at[j] < at[k]
  {
    if log == [] then []
    else
      var n := |log| - 1;
      var before := Charged(log[..n]);
      if log[n].payload.AgentPayload? then before + [n] else before
  }

  // The messages behind the prompt are, two by two, action and observation of the events at these
  // positions.
  predicate Tells(messages: seq<Message>, log: seq<Event>, at: seq<nat>) {
    && |messages| == 1 + 2 * |at|
    && forall k :: 0 <= k < |at| ==> at[k] < |log| && TellsOne(messages, log[at[k]].payload, k)
  }

  predicate TellsOne(messages: seq<Message>, p: Payload, k: nat) {
    && p.AgentPayload? && 2 * k + 2 < |messages|
    && messages[2 * k + 1] == Assistant(p.action) && messages[2 * k + 2] == Observed(p.observation)
  }

  // The prompt, and after it each charged event's action and what was observed.
  predicate IsHistory(messages: seq<Message>, prompt: string, log: seq<Event>) {
    messages != [] && messages[0] == Prompt(prompt) && Tells(messages, log, Charged(log))
  }

  lemma TellsMore(messages: seq<Message>, pre: seq<Event>, e: Event, at: seq<nat>)
    requires Tells(messages, pre, at)
    ensures Tells(messages + Turn(e), pre + [e], if e.payload.AgentPayload? then at + [|pre|] else at)
  {
    var messages', log := messages + Turn(e), pre + [e];
    forall k | 0 <= k < |at| ensures at[k] < |log| && TellsOne(messages', log[at[k]].payload, k) {
      assert TellsOne(messages, pre[at[k]].payload, k);
    }
    if e.payload.AgentPayload? { assert TellsOne(messages', e.payload, |at|); }
  }

  lemma HistoryGrows(messages: seq<Message>, prompt: string, pre: seq<Event>, e: Event)
    requires IsHistory(messages, prompt, pre)
    ensures IsHistory(messages + Turn(e), prompt, pre + [e])
  {
    TellsMore(messages, pre, e, Charged(pre));
    assert (pre + [e])[..|pre|] == pre;
    assert Charged(pre + [e]) == if e.payload.AgentPayload? then Charged(pre) + [|pre|] else Charged(pre);
  }

  /** The model sees, in order, every action and its observation, and nothing else. */
  lemma {:induction false} MessagesAreHistory(prompt: string, log: seq<Event>)
    ensures IsHistory(Messages(prompt, log), prompt, log)
  {
    if log != [] {
      var pre, e := log[..|log| - 1], log[|log| - 1];
      MessagesAreHistory(prompt, pre);
      HistoryGrows(Messages(prompt, pre), prompt, pre, e);
      assert log == pre + [e] && Messages(prompt, log) == Messages(prompt, pre) + Turn(e);
    }
  }

  // The answer as llm_cache hands it back: the cost column has six decimals.
  function Stored(r: Response): Response { r.(cost := CachedCost(r.cost)) }

  // A fresh answer, or one that has been through the cache.
  ghost predicate AnswerTo(env: Env, messages: seq<Message>, r: Response) {
    env.answers(messages, r) || exists given :: env.answers(messages, given) && r == Stored(given)
  }
}
