/**
 * The step interpreter of the issue processor: a process is a list of
 * steps (an agent task, a piece of code, or a loop over a list), each of
 * which records a completion marker in the context memory so that a re-run
 * resumes where the previous one stopped.
 *
 * The interpreter is given twice: as functions (`StepRun` and its helpers)
 * that say what a run does to the memory and which effects it performs, and
 * as the imperative `Engine` whose methods follow the source's control flow
 * and are proved to agree with those functions.
 */
module StepEngine {
  import opened Wrappers
  import opened Strings
  import opened JsonValue
  import opened ContextMemory
  import opened ProcessHelpers

  type Overrides = map<string, string>

  /** A step of a process. Task and loop steps are always skippable; code steps say. */
  datatype Step =
    | ExecuteCode(stepId: string, code: string, skippable: bool, parameters: Option<seq<(string, string)>>)
    | Task(stepId: string, summary: string, description: string)
    | ForEach(stepId: string, variableName: string, expression: Option<string>, body: seq<Step>,
              isParallel: bool, listFunc: Option<string>, listFuncWithParams: Option<string>)

  predicate Skippable(s: Step) {
    if s.ExecuteCode? then s.skippable else true
  }

  /** What an agent conversation answers, and the memory its tool calls left behind. */
  datatype AgentReply = Replied(response: Option<string>, mem: Memory) | AgentFailed(error: string, mem: Memory)

  /** What a code step's function did to the memory. */
  datatype CodeReply = CodeDone(mem: Memory) | CodeFailed(error: string, mem: Memory)

  /**
   * Everything outside the interpreter: the agent (profile, prompt, memory),
   * the functions of code steps, and the callables that compute loop lists.
   */
  datatype World = World(
    agent: (string, string, Memory) -> AgentReply,
    code: (string, Memory, Overrides, Option<seq<(string, string)>>) -> CodeReply,
    listFunc: string -> Result<seq<string>>,
    listFuncWithParams: (string, Memory, Overrides) -> Result<seq<string>>,
    wording: Wording)

  /** The effects a run performs, in order. */
  datatype Effect =
    | Read(key: string)
    | Write(key: string, value: Json)
    | AgentCall(profile: string, prompt: string)
    | CodeCall(code: string)
    | ListCall(name: string)

  datatype State = State(mem: Memory, trace: seq<Effect>)

  datatype Outcome = Outcome(st: State, err: Option<string>)

  /** The arguments `Step.execute` receives besides the memory tool. */
  datatype Ctx = Ctx(summary: seq<string>, prefix: string, profiles: seq<string>, overrides: Overrides, parentId: string)

  const DoneMarker: string := "done"
  const NoProfile: string := "IndexError: list index out of range"
  const ListFailure: string := "Failed to calculate expression_list"
  const NoMemoryTool: string := "no server offers add_or_update_memory_entry"

  function StatusKey(qid: string): string { qid + "_status" }
  function ResponseKey(qid: string): string { qid + "_response" }
  function ExpressionListKey(qid: string): string { qid + "_expression_list" }
  function IterationStatusKey(iid: string): string { iid + "_iteration_status" }

  /** The first text item of an answer is the completion marker. */
  predicate IsDone(texts: seq<string>) {
    |texts| > 0 && texts[0] == DoneMarker
  }

  /** An answer that holds an entry (not empty, not the not-found sentinel). */
  predicate Usable(texts: seq<string>) {
    |texts| > 0 && texts[0] != Sentinel
  }

  function ReadsOf(keys: seq<string>): (r: seq<Effect>)
    ensures |r| == |keys| && forall i :: 0 <= i < |keys| ==> r[i] == Read(keys[i])
  {
    seq(|keys|, i requires 0 <= i < |keys| => Read(keys[i]))
  }

  function ReadKey(st: State, key: string): State {
    st.(trace := st.trace + [Read(key)])
  }

  function WriteKey(st: State, key: string, value: Json): State {
    State(st.mem[key := value], st.trace + [Write(key, value)])
  }

  /** The value a task stores as its response: the agent's text, or `null`. */
  function ResponseValue(response: Option<string>): Json {
    if response.Some? then JStr(response.value) else JNull
  }

  function ShowOptional(s: Option<string>): string {
    if s.Some? then s.value else "None"
  }

  /**
   * The fixed instruction texts of the step prompts. The interpreter takes
   * them from its world, so its proofs do not depend on their wording;
   * `SourceWording` holds the texts the source uses.
   */
  datatype Wording = Wording(taskGuideline: string, listStore: string, listRules: string)

  const SourceWording: Wording := Wording(
    " - Make sure to do what is required in this step till it is finished. Always, automatically continue if needed.",
    " - Make sure to determine the list that will be processed, and store it in context memory using key `",
    "`.\n - Do not do any looping or actions on this list. This will be done later.\n"
    + " - If the list is for file paths, so do not return the fullpath of each file, just return the relative path to the input given path.\n")

  /** The prompt of a task: the process summary, then the step's description. */
  function TaskPrompt(wd: Wording, summary: seq<string>, prefix: string, description: string): string {
    "\n" + Join(summary, "\n") + "\n\n## Current Step (" + prefix + ") Details:\n" + description
    + "\n\n### Current Step Guidelines:\n" + wd.taskGuideline + "\n"
  }

  /** The prompt that asks the agent to compute a loop's list and store it under `key`. */
  function ExpressionPrompt(wd: Wording, summary: seq<string>, prefix: string, variableName: string, expression: Option<string>, key: string): string {
    "\n" + Join(summary, "\n") + "\n\n## Current Step (" + prefix + ") Details:\nForEach " + variableName
    + " in " + ShowOptional(expression) + " will do the following:\n\n### Current Step Guidelines:\n"
    + wd.listStore + key + wd.listRules
  }

  /** The parameters of a code step after substitution, and the memory keys read. */
  datatype Params = Params(values: seq<(string, string)>, keysRead: seq<string>)

  /** A prompt after substitution against `mem`. */
  function SubstituteIn(prompt: string, mem: Memory, overrides: Overrides): Interp {
    Interpolate(prompt, FindVars(prompt), mem, overrides)
  }

  /** Each parameter substituted in dictionary order. */
  function InterpolateParams(ps: seq<(string, string)>, mem: Memory, overrides: Overrides): Params
    decreases |ps|
  {
    if |ps| == 0 then Params([], [])
    else
      var init := InterpolateParams(ps[..|ps| - 1], mem, overrides);
      var last := ps[|ps| - 1];
      var ip := SubstituteIn(last.1, mem, overrides);
      Params(init.values + [(last.0, ip.prompt)], init.keysRead + ip.keysRead)
  }

  // ---------------------------------------------------------------- the interpreter as functions

  /** `Step.execute`. */
  function StepRun(w: World, s: Step, c: Ctx, st: State): Outcome
    decreases s, 4, 0
  {
    var key := StatusKey(QualifiedId(c.parentId, s.stepId));
    var st1 := ReadKey(st, key);
    if Skippable(s) && IsDone(Render(Lookup(st.mem, key))) then Outcome(st1, None)
    else
      var o := ActualRun(w, s, c, st1);
      if o.err.Some? then o else Outcome(WriteKey(o.st, key, JStr(DoneMarker)), None)
  }

  /** `actual_execute` of each kind of step. */
  function ActualRun(w: World, s: Step, c: Ctx, st: State): Outcome
    decreases s, 3, 0
  {
    match s
    case ExecuteCode(_, code, _, parameters) =>
      var ip := if parameters.Some? then InterpolateParams(parameters.value, st.mem, c.overrides) else Params([], []);
      var st1 := st.(trace := st.trace + ReadsOf(ip.keysRead));
      var r := w.code(code, st1.mem, c.overrides, if parameters.Some? then Some(ip.values) else None);
      Outcome(State(r.mem, st1.trace + [CodeCall(code)]), if r.CodeFailed? then Some(r.error) else None)
    case Task(_, _, description) =>
      if |c.profiles| == 0 then Outcome(st, Some(NoProfile))
      else
        var ip := SubstituteIn(TaskPrompt(w.wording, c.summary, c.prefix, description), st.mem, c.overrides);
        var st1 := st.(trace := st.trace + ReadsOf(ip.keysRead));
        var r := w.agent(c.profiles[0], ip.prompt, st1.mem);
        var st2 := State(r.mem, st1.trace + [AgentCall(c.profiles[0], ip.prompt)]);
        if r.AgentFailed? then Outcome(st2, Some(r.error))
        else Outcome(WriteKey(st2, ResponseKey(QualifiedId(c.parentId, s.stepId)), ResponseValue(r.response)), None)
    case ForEach(_, _, _, _, _, _, _) =>
      if |c.profiles| == 0 then Outcome(st, Some(NoProfile))
      else
        var l := ListRun(w, s, c, st);
        if l.err.Some? then Outcome(l.st, l.err)
        else IterationsRun(w, s, c, l.items, 0, l.st)
  }

  datatype ListOutcome = ListOutcome(items: seq<string>, st: State, err: Option<string>)

  /**
   * `ForEach._get_expression_list`: a list callable when the loop has one;
   * otherwise the list stored in memory, computed by the agent first when
   * it is not stored yet.
   */
  function ListRun(w: World, s: Step, c: Ctx, st: State): ListOutcome
    requires s.ForEach? && |c.profiles| > 0
  {
    if s.listFunc.Some? then
      var st1 := st.(trace := st.trace + [ListCall(s.listFunc.value)]);
      match w.listFunc(s.listFunc.value)
      case Ok(items) => ListOutcome(items, st1, None)
      case Err(e) => ListOutcome([], st1, Some(e))
    else if s.listFuncWithParams.Some? then
      var st1 := st.(trace := st.trace + [ListCall(s.listFuncWithParams.value)]);
      match w.listFuncWithParams(s.listFuncWithParams.value, st.mem, c.overrides)
      case Ok(items) => ListOutcome(items, st1, None)
      case Err(e) => ListOutcome([], st1, Some(e))
    else StoredListRun(w, s, c, st)
  }

  /** The loop list kept in memory under `<id>_expression_list`, asking the agent for it when missing. */
  function StoredListRun(w: World, s: Step, c: Ctx, st: State): ListOutcome
    requires s.ForEach? && |c.profiles| > 0
  {
    var key := ExpressionListKey(QualifiedId(c.parentId, s.stepId));
    var stored := Render(Lookup(st.mem, key));
    if Usable(stored) then ListOutcome(stored, ReadKey(st, key), None)
    else ComputedListRun(w, s, c, key, ReadKey(st, key))
  }

  /** The agent is asked to store the list under `key`, which is then read again. */
  function ComputedListRun(w: World, s: Step, c: Ctx, key: string, st: State): ListOutcome
    requires s.ForEach? && |c.profiles| > 0
  {
    var ip := SubstituteIn(ExpressionPrompt(w.wording, c.summary, c.prefix, s.variableName, s.expression, key), st.mem, c.overrides);
    var st1 := st.(trace := st.trace + ReadsOf(ip.keysRead));
    var r := w.agent(c.profiles[0], ip.prompt, st1.mem);
    var st2 := State(r.mem, st1.trace + [AgentCall(c.profiles[0], ip.prompt)]);
    if r.AgentFailed? then ListOutcome([], st2, Some(r.error))
    else
      var computed := Render(Lookup(st2.mem, key));
      if Usable(computed) then ListOutcome(computed, ReadKey(st2, key), None)
      else ListOutcome([], ReadKey(st2, key), Some(ListFailure))
  }

  /** The profile iteration `i` (counted from 0) runs under. */
  function IterationProfile(s: Step, c: Ctx, i: nat): string
    requires s.ForEach? && |c.profiles| > 0
  {
    if s.isParallel then c.profiles[i % |c.profiles|] else c.profiles[0]
  }

  /** The iterations of a loop from item `i` on, in list order. */
  function IterationsRun(w: World, s: Step, c: Ctx, items: seq<string>, i: nat, st: State): Outcome
    requires s.ForEach? && |c.profiles| > 0 && i <= |items|
    decreases s, 2, |items| - i
  {
    if i == |items| then Outcome(st, None)
    else
      var o := IterationRun(w, s, c, items[i], IterationProfile(s, c, i), i + 1, st);
      if o.err.Some? then o else IterationsRun(w, s, c, items, i + 1, o.st)
  }

  /** The context the body of iteration `n` runs in. */
  function IterationCtx(s: Step, c: Ctx, item: string, profile: string, n: nat): Ctx
    requires s.ForEach?
  {
    Ctx(c.summary, c.prefix, [profile], c.overrides[s.variableName := item], IterationId(c.parentId, s.stepId, n))
  }

  /** `ForEach._process_iteration` for iteration number `n` (counted from 1). */
  function IterationRun(w: World, s: Step, c: Ctx, item: string, profile: string, n: nat, st: State): Outcome
    requires s.ForEach?
    decreases s, 1, 0
  {
    var key := IterationStatusKey(IterationId(c.parentId, s.stepId, n));
    var st1 := ReadKey(st, key);
    if IsDone(Render(Lookup(st.mem, key))) then Outcome(st1, None)
    else
      var st2 := WriteKey(st1, s.variableName, JStr(item));
      var o := BodyRun(w, s, IterationCtx(s, c, item, profile, n), 0, st2);
      if o.err.Some? then o else Outcome(WriteKey(o.st, key, JStr(DoneMarker)), None)
  }

  /** The body steps of a loop from step `j` on; step `j` is numbered `prefix.(j+1)`. */
  function BodyRun(w: World, s: Step, inner: Ctx, j: nat, st: State): Outcome
    requires s.ForEach? && j <= |s.body|
    decreases s, 0, |s.body| - j
  {
    if j == |s.body| then Outcome(st, None)
    else
      assert s.body[j] in s.body;
      var o := StepRun(w, s.body[j], inner.(prefix := inner.prefix + "." + NatToString(j + 1)), st);
      if o.err.Some? then o else BodyRun(w, s, inner, j + 1, o.st)
  }

  // ---------------------------------------------------------------- summaries

  /** `get_summary` of each kind of step: code steps are hidden, a loop lists its body indented. */
  function StepSummary(s: Step, prefix: string): seq<string>
    decreases s, 1, 0
  {
    match s
    case ExecuteCode(_, _, _, _) => []
    case Task(_, summary, _) => [prefix + "- " + summary]
    case ForEach(_, variableName, expression, _, _, _, _) =>
      [prefix + "- Foreach " + variableName + " in " + ShowOptional(expression) + " will do the following:"]
      + BodySummary(s, prefix, 0)
  }

  /** The summaries of the body steps from `j` on; step `j` is numbered `\tprefix.(j+1)`. */
  function BodySummary(s: Step, prefix: string, j: nat): seq<string>
    requires s.ForEach? && j <= |s.body|
    decreases s, 0, |s.body| - j
  {
    if j == |s.body| then []
    else
      assert s.body[j] in s.body;
      StepSummary(s.body[j], "\t" + prefix + "." + NatToString(j + 1)) + BodySummary(s, prefix, j + 1)
  }

  /** `Step.get_summary`, with the loop of `ForEach.get_summary`. */
  method GetSummary(s: Step, prefix: string) returns (lines: seq<string>)
    ensures lines == StepSummary(s, prefix)
    decreases s
  {
    match s
    case ExecuteCode(_, _, _, _) =>
      lines := [];
    case Task(_, summary, _) =>
      lines := [prefix + "- " + summary];
    case ForEach(_, variableName, expression, body, _, _, _) =>
      lines := [prefix + "- Foreach " + variableName + " in " + ShowOptional(expression) + " will do the following:"];
      var i := 1;
      while i <= |body|
        invariant 1 <= i <= |body| + 1
        invariant lines + BodySummary(s, prefix, i - 1) == StepSummary(s, prefix)
      {
        assert body[i - 1] in body;
        var stepLines := GetSummary(body[i - 1], "\t" + prefix + "." + NatToString(i));
        lines := lines + stepLines;
        i := i + 1;
      }
  }

  // ---------------------------------------------------------------- processes

  datatype Process = Process(
    processId: string, description: string, inputs: seq<(string, Json)>,
    guidelines: seq<string>, steps: seq<Step>, profiles: seq<string>)

  const SummaryIntro: string :=
    "You are a smart assistant that help in implementing specific process that is represented of multiple steps"

  /** The fixed instructions closing every process summary (their wording is abridged here). */
  const SummaryClosing: seq<string> := [
    "You will receive first a summary for the process, then the details of the current step you should execute. Please Make sure to only execute the current step.",
    "Do not loop to repeat the current step to other thing except it is mentioned in the step details itself.",
    "Never Try to create some directory if it is mentioned that it is already created.",
    "\n## MANDATORY TOOL USAGE\n"
  ]

  /** `Process.get_summary`: the fixed framing, the description and the guidelines; no step lines. */
  function ProcessSummary(p: Process): (lines: seq<string>)
    ensures |lines| == 4 + |p.guidelines| + |SummaryClosing|
    ensures lines[2] == p.description
    ensures lines[4..4 + |p.guidelines|] == p.guidelines
  {
    [SummaryIntro, "## Process Overview:", p.description, "## Process Guidelines:"] + p.guidelines + SummaryClosing
  }

  /** The tools one MCP server advertises. */
  datatype Server = Server(tools: seq<string>)

  const MemoryTool: string := "add_or_update_memory_entry"

  /**
   * The server whose `call_tool` `Process.run` ends up using: the first
   * server advertising the memory-write tool, else the last server.
   */
  method SelectToolServer(servers: seq<Server>) returns (idx: Option<nat>)
    ensures idx.Some? ==> idx.value < |servers|
    ensures |servers| == 0 <==> idx.None?
    ensures (exists i :: 0 <= i < |servers| && MemoryTool in servers[i].tools) ==>
      idx.Some? && MemoryTool in servers[idx.value].tools
      && forall i :: 0 <= i < idx.value ==> MemoryTool !in servers[i].tools
    ensures (forall i :: 0 <= i < |servers| ==> MemoryTool !in servers[i].tools) && |servers| > 0 ==>
      idx == Some(|servers| - 1)
  {
    idx := None;
    var k := 0;
    while k < |servers|
      invariant 0 <= k <= |servers|
      invariant k == 0 <==> idx.None?
      invariant k > 0 ==> idx == Some(k - 1)
      invariant forall i :: 0 <= i < k ==> MemoryTool !in servers[i].tools
    {
      idx := Some(k);
      var found := false;
      var t := 0;
      while t < |servers[k].tools|
        invariant 0 <= t <= |servers[k].tools|
        invariant found <==> MemoryTool in servers[k].tools[..t]
      {
        if servers[k].tools[t] == MemoryTool {
          found := true;
          break;
        }
        t := t + 1;
      }
      assert !found ==> servers[k].tools[..t] == servers[k].tools;
      if found {
        return;
      }
      k := k + 1;
    }
  }

  /** Whether some server advertises the memory-write tool. */
  predicate HasMemoryServer(servers: seq<Server>) {
    exists i :: 0 <= i < |servers| && MemoryTool in servers[i].tools
  }

  /** Writing the process inputs, in order. */
  function Seed(st: State, inputs: seq<(string, Json)>): State
    decreases |inputs|
  {
    if |inputs| == 0 then st
    else WriteKey(Seed(st, inputs[..|inputs| - 1]), inputs[|inputs| - 1].0, inputs[|inputs| - 1].1)
  }

  /** The context of top-level step `i` (counted from 0): numbered `i+1`, no overrides, no parent. */
  function TopCtx(p: Process, i: nat): Ctx {
    Ctx(ProcessSummary(p), NatToString(i + 1), p.profiles, map[], "")
  }

  function StepsRun(w: World, p: Process, i: nat, st: State): Outcome
    requires i <= |p.steps|
    decreases |p.steps| - i
  {
    if i == |p.steps| then Outcome(st, None)
    else
      var o := StepRun(w, p.steps[i], TopCtx(p, i), st);
      if o.err.Some? then o else StepsRun(w, p, i + 1, o.st)
  }

  /**
   * `Process.run`: seed the inputs, then run the steps in order; the first
   * failure ends the run (the source swallows it).
   */
  function ProcessRun(w: World, p: Process, servers: seq<Server>, st: State): Outcome {
    if !HasMemoryServer(servers) then Outcome(st, Some(NoMemoryTool))
    else StepsRun(w, p, 0, Seed(st, p.inputs))
  }

  // ---------------------------------------------------------------- the imperative interpreter

  lemma MulAtLeast(n: int, d: int)
    requires n > 0 && d >= 1
    ensures n * d >= n
  {
    assert n * d == n * (d - 1) + n;
  }

  lemma ModUnique(x: nat, n: nat, q: int, r: int)
    requires n > 0 && 0 <= r < n && x == n * q + r
    ensures x % n == r
  {
    var q1, r1 := x / n, x % n;
    var d := q1 - q;
    assert n * d == n * q1 - n * q;
    assert n * d == r - r1;
    if d >= 1 {
      MulAtLeast(n, d);
      assert false;
    } else if d <= -1 {
      MulAtLeast(n, -d);
      assert false;
    }
  }

  lemma ModSuccessor(a: nat, n: nat)
    requires n > 0
    ensures (a % n + 1) % n == (a + 1) % n
  {
    var q, r := a / n, a % n;
    assert a == n * q + r;
    if r + 1 < n {
      ModUnique(a + 1, n, q, r + 1);
      ModUnique(r + 1, n, 0, r + 1);
    } else {
      assert n * (q + 1) == n * q + n;
      ModUnique(a + 1, n, q + 1, 0);
      ModUnique(r + 1, n, 1, 0);
    }
  }

  class Engine {
    const world: World
    /** The context memory, as the memory tool sees it. */
    var mem: Memory
    /** The effects performed so far. */
    var trace: seq<Effect>

    function Now(): State
      reads this
    {
      State(mem, trace)
    }

    constructor (w: World, m: Memory)
      ensures world == w && mem == m && trace == []
    {
      world, mem, trace := w, m, [];
    }

    /** `func("read_memory_entry", ...)`: the text items of the answer. */
    method ReadEntry(key: string) returns (texts: seq<string>)
      modifies this
      ensures Now() == ReadKey(old(Now()), key)
      ensures texts == Render(Lookup(mem, key))
    {
      trace := trace + [Read(key)];
      texts := Render(Lookup(mem, key));
    }

    /** `func("add_or_update_memory_entry", ...)`. */
    method WriteEntry(key: string, value: Json)
      modifies this
      ensures Now() == WriteKey(old(Now()), key, value)
    {
      mem := mem[key := value];
      trace := trace + [Write(key, value)];
    }

    /** `replace_context_variables` against the current memory, recording its reads. */
    method Substitute(prompt: string, overrides: Overrides) returns (result: string)
      modifies this
      ensures var ip := SubstituteIn(prompt, old(mem), overrides);
        result == ip.prompt && Now() == old(Now()).(trace := old(trace) + ReadsOf(ip.keysRead))
    {
      var keys;
      result, keys := ReplaceContextVariables(prompt, mem, overrides);
      trace := trace + ReadsOf(keys);
    }

    method Execute(s: Step, c: Ctx) returns (err: Option<string>)
      modifies this
      decreases s, 4, 0
      ensures Outcome(Now(), err) == StepRun(world, s, c, old(Now()))
    {
      var key := StatusKey(QualifiedId(c.parentId, s.stepId));
      var status := ReadEntry(key);
      if Skippable(s) && IsDone(status) {
        return None;
      }
      err := ActualExecute(s, c);
      if err.Some? {
        return;
      }
      WriteEntry(key, JStr(DoneMarker));
    }

    method ActualExecute(s: Step, c: Ctx) returns (err: Option<string>)
      modifies this
      decreases s, 3, 0
      ensures Outcome(Now(), err) == ActualRun(world, s, c, old(Now()))
    {
      match s
      case ExecuteCode(_, _, _, _) =>
        err := RunCode(s, c);
      case Task(_, _, _) =>
        err := RunTask(s, c);
      case ForEach(_, _, _, _, _, _, _) =>
        err := RunForEach(s, c);
    }

    /** A code step: the code runs once, on the substituted parameters. */
    method RunCode(s: Step, c: Ctx) returns (err: Option<string>)
      requires s.ExecuteCode?
      modifies this
      ensures Outcome(Now(), err) == ActualRun(world, s, c, old(Now()))
    {
      var args: Option<seq<(string, string)>> := None;
      if s.parameters.Some? {
        var values := SubstituteParams(s.parameters.value, c.overrides);
        args := Some(values);
      }
      var r := world.code(s.code, mem, c.overrides, args);
      mem, trace := r.mem, trace + [CodeCall(s.code)];
      err := if r.CodeFailed? then Some(r.error) else None;
    }

    /** A task step: the first profile's agent answers the prompt, and the answer is stored. */
    method RunTask(s: Step, c: Ctx) returns (err: Option<string>)
      requires s.Task?
      modifies this
      ensures Outcome(Now(), err) == ActualRun(world, s, c, old(Now()))
    {
      if |c.profiles| == 0 {
        return Some(NoProfile);
      }
      var prompt := Substitute(TaskPrompt(world.wording, c.summary, c.prefix, s.description), c.overrides);
      var r := world.agent(c.profiles[0], prompt, mem);
      mem, trace := r.mem, trace + [AgentCall(c.profiles[0], prompt)];
      if r.AgentFailed? {
        return Some(r.error);
      }
      WriteEntry(ResponseKey(QualifiedId(c.parentId, s.stepId)), ResponseValue(r.response));
      err := None;
    }

    /** A for-each step: one iteration per item of the list, in order, stopping at the first failure. */
    method RunForEach(s: Step, c: Ctx) returns (err: Option<string>)
      requires s.ForEach?
      modifies this
      decreases s, 2, 1
      ensures Outcome(Now(), err) == ActualRun(world, s, c, old(Now()))
    {
      if |c.profiles| == 0 {
        return Some(NoProfile);
      }
      var items;
      items, err := GetExpressionList(s, c);
      if err.Some? {
        return;
      }
      err := RunIterations(s, c, items);
    }

    /** The iterations over the list: round-robin over the profiles when parallel, the first profile otherwise. */
    method RunIterations(s: Step, c: Ctx, items: seq<string>) returns (err: Option<string>)
      requires s.ForEach? && |c.profiles| > 0
      modifies this
      decreases s, 2, 0
      ensures Outcome(Now(), err) == IterationsRun(world, s, c, items, 0, old(Now()))
    {
      ghost var start := Now();
      var i := 0;
      if s.isParallel {
        var pid := 0;
        while i < |items|
          invariant 0 <= i <= |items| && pid == i % |c.profiles|
          invariant IterationsRun(world, s, c, items, 0, start) == IterationsRun(world, s, c, items, i, Now())
        {
          err := ProcessIteration(s, c, items[i], c.profiles[pid], i + 1);
          if err.Some? {
            return;
          }
          ModSuccessor(i, |c.profiles|);
          pid := (pid + 1) % |c.profiles|;
          i := i + 1;
        }
      } else {
        while i < |items|
          invariant 0 <= i <= |items|
          invariant IterationsRun(world, s, c, items, 0, start) == IterationsRun(world, s, c, items, i, Now())
        {
          err := ProcessIteration(s, c, items[i], c.profiles[0], i + 1);
          if err.Some? {
            return;
          }
          i := i + 1;
        }
      }
      err := None;
    }

    /** The parameters of a code step, each substituted in turn. */
    method SubstituteParams(ps: seq<(string, string)>, overrides: Overrides) returns (values: seq<(string, string)>)
      modifies this
      ensures var ip := InterpolateParams(ps, old(mem), overrides);
        values == ip.values && Now() == old(Now()).(trace := old(trace) + ReadsOf(ip.keysRead))
    {
      values := [];
      var keys: seq<string> := [];
      var i := 0;
      while i < |ps|
        invariant 0 <= i <= |ps| && mem == old(mem) && trace == old(trace)
        invariant Params(values, keys) == InterpolateParams(ps[..i], mem, overrides)
      {
        assert ps[..i + 1][..i] == ps[..i];
        var value, read := ReplaceContextVariables(ps[i].1, mem, overrides);
        values, keys := values + [(ps[i].0, value)], keys + read;
        i := i + 1;
      }
      assert ps[..i] == ps;
      trace := trace + ReadsOf(keys);
    }

    method GetExpressionList(s: Step, c: Ctx) returns (items: seq<string>, err: Option<string>)
      requires s.ForEach? && |c.profiles| > 0
      modifies this
      ensures ListOutcome(items, Now(), err) == ListRun(world, s, c, old(Now()))
    {
      if s.listFunc.Some? {
        trace := trace + [ListCall(s.listFunc.value)];
        match world.listFunc(s.listFunc.value)
        case Ok(xs) => return xs, None;
        case Err(e) => return [], Some(e);
      }
      if s.listFuncWithParams.Some? {
        trace := trace + [ListCall(s.listFuncWithParams.value)];
        match world.listFuncWithParams(s.listFuncWithParams.value, mem, c.overrides)
        case Ok(xs) => return xs, None;
        case Err(e) => return [], Some(e);
      }
      items, err := GetStoredList(s, c);
    }

    method GetStoredList(s: Step, c: Ctx) returns (items: seq<string>, err: Option<string>)
      requires s.ForEach? && |c.profiles| > 0
      modifies this
      ensures ListOutcome(items, Now(), err) == StoredListRun(world, s, c, old(Now()))
    {
      var key := ExpressionListKey(QualifiedId(c.parentId, s.stepId));
      var stored := ReadEntry(key);
      if Usable(stored) {
        return stored, None;
      }
      items, err := ComputeList(s, c, key);
    }

    method ComputeList(s: Step, c: Ctx, key: string) returns (items: seq<string>, err: Option<string>)
      requires s.ForEach? && |c.profiles| > 0
      modifies this
      ensures ListOutcome(items, Now(), err) == ComputedListRun(world, s, c, key, old(Now()))
    {
      var prompt := Substitute(ExpressionPrompt(world.wording, c.summary, c.prefix, s.variableName, s.expression, key), c.overrides);
      var r := world.agent(c.profiles[0], prompt, mem);
      mem, trace := r.mem, trace + [AgentCall(c.profiles[0], prompt)];
      if r.AgentFailed? {
        return [], Some(r.error);
      }
      var computed := ReadEntry(key);
      if Usable(computed) {
        return computed, None;
      }
      return [], Some(ListFailure);
    }

    method ProcessIteration(s: Step, c: Ctx, item: string, profile: string, n: nat) returns (err: Option<string>)
      requires s.ForEach?
      modifies this
      decreases s, 1, 0
      ensures Outcome(Now(), err) == IterationRun(world, s, c, item, profile, n, old(Now()))
    {
      var key := IterationStatusKey(IterationId(c.parentId, s.stepId, n));
      var status := ReadEntry(key);
      if IsDone(status) {
        return None;
      }
      WriteEntry(s.variableName, JStr(item));
      var inner := IterationCtx(s, c, item, profile, n);
      ghost var start := Now();
      var j := 0;
      while j < |s.body|
        invariant 0 <= j <= |s.body|
        invariant BodyRun(world, s, inner, 0, start) == BodyRun(world, s, inner, j, Now())
      {
        assert s.body[j] in s.body;
        err := Execute(s.body[j], inner.(prefix := c.prefix + "." + NatToString(j + 1)));
        if err.Some? {
          return;
        }
        j := j + 1;
      }
      WriteEntry(key, JStr(DoneMarker));
      err := None;
    }

    method Run(p: Process, servers: seq<Server>) returns (err: Option<string>)
      modifies this
      ensures Outcome(Now(), err) == ProcessRun(world, p, servers, old(Now()))
    {
      var idx := SelectToolServer(servers);
      if idx.None? || MemoryTool !in servers[idx.value].tools {
        return Some(NoMemoryTool);
      }
      ghost var start := Now();
      var k := 0;
      while k < |p.inputs|
        invariant 0 <= k <= |p.inputs|
        invariant Now() == Seed(start, p.inputs[..k])
      {
        assert p.inputs[..k + 1][..k] == p.inputs[..k];
        WriteEntry(p.inputs[k].0, p.inputs[k].1);
        k := k + 1;
      }
      assert p.inputs[..k] == p.inputs;
      ghost var seeded := Now();
      var i := 0;
      while i < |p.steps|
        invariant 0 <= i <= |p.steps|
        invariant StepsRun(world, p, 0, seeded) == StepsRun(world, p, i, Now())
      {
        err := Execute(p.steps[i], TopCtx(p, i));
        if err.Some? {
          return;
        }
        i := i + 1;
      }
      err := None;
    }
  }
}
