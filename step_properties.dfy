/**
 * Properties of the step interpreter, stated on the functions of
 * `StepEngine` (which the `Engine` methods are proved to follow): completion
 * markers make a re-run skip finished work, loop lists are memoised, parallel
 * iterations take the profiles round-robin, and the outline has one line per
 * task and loop.
 */
module StepProperties {
  import opened Wrappers
  import opened Strings
  import opened JsonValue
  import opened ContextMemory
  import opened ProcessHelpers
  import opened StepEngine

  // ---------------------------------------------------------------- completion markers

  /** A step that finished without error leaves its marker reading "done". */
  lemma CompletedStepMarked(w: World, s: Step, c: Ctx, st: State)
    ensures var key := StatusKey(QualifiedId(c.parentId, s.stepId));
      var o := StepRun(w, s, c, st);
      o.err.None? ==> IsDone(Render(Lookup(o.st.mem, key)))
  {
  }

  /**
   * Running a skippable step a second time, on the state the first successful
   * run left, only reads its marker: nothing is called and nothing is written.
   */
  lemma RerunSkipsStep(w: World, s: Step, c: Ctx, st: State)
    requires Skippable(s)
    ensures var key := StatusKey(QualifiedId(c.parentId, s.stepId));
      var o := StepRun(w, s, c, st);
      o.err.None? ==> StepRun(w, s, c, o.st) == Outcome(ReadKey(o.st, key), None)
  {
    CompletedStepMarked(w, s, c, st);
  }

  /** A skippable step whose marker reads "done" only reads that marker. */
  lemma MarkedStepSkipped(w: World, s: Step, c: Ctx, st: State)
    requires Skippable(s) && IsDone(Render(Lookup(st.mem, StatusKey(QualifiedId(c.parentId, s.stepId)))))
    ensures StepRun(w, s, c, st) == Outcome(ReadKey(st, StatusKey(QualifiedId(c.parentId, s.stepId))), None)
  {
  }

  /** A code step that is not skippable calls its code even when its marker reads "done". */
  lemma UnskippableCodeReruns(w: World, s: Step, c: Ctx, st: State)
    requires s.ExecuteCode? && !s.skippable
    ensures var o := StepRun(w, s, c, st);
      |st.trace| < |o.st.trace| && o.st.trace[..|st.trace|] == st.trace
      && CodeCall(s.code) in o.st.trace[|st.trace|..]
  {
    var key := StatusKey(QualifiedId(c.parentId, s.stepId));
    var st1 := ReadKey(st, key);
    var a := ActualRun(w, s, c, st1);
    CodeRunEndsWithCall(w, s, c, st1);
    var o := StepRun(w, s, c, st);
    var p := |a.st.trace| - 1;
    if a.err.None? {
      assert o.st.trace == a.st.trace + [Write(key, JStr(DoneMarker))];
    }
    assert o.st.trace[p] == CodeCall(s.code);
    assert o.st.trace[|st.trace|..][p - |st.trace|] == CodeCall(s.code);
  }

  /** A code step's `actual_execute` extends the trace and ends it with the code call. */
  lemma CodeRunEndsWithCall(w: World, s: Step, c: Ctx, st: State)
    requires s.ExecuteCode?
    ensures var t := ActualRun(w, s, c, st).st.trace;
      |st.trace| < |t| && t[..|st.trace|] == st.trace && t[|t| - 1] == CodeCall(s.code)
  {
    var ip := if s.parameters.Some? then InterpolateParams(s.parameters.value, st.mem, c.overrides) else Params([], []);
    var t := ActualRun(w, s, c, st).st.trace;
    assert t == st.trace + ReadsOf(ip.keysRead) + [CodeCall(s.code)];
  }

  /** A task's `actual_execute`: one agent call under the first profile, the reply stored as its response. */
  lemma TaskActualRun(w: World, s: Step, c: Ctx, st: State)
    requires s.Task? && |c.profiles| > 0
    ensures var qid := QualifiedId(c.parentId, s.stepId);
      var ip := SubstituteIn(TaskPrompt(w.wording, c.summary, c.prefix, s.description), st.mem, c.overrides);
      var r := w.agent(c.profiles[0], ip.prompt, st.mem);
      var st2 := State(r.mem, st.trace + ReadsOf(ip.keysRead) + [AgentCall(c.profiles[0], ip.prompt)]);
      ActualRun(w, s, c, st)
        == if r.AgentFailed? then Outcome(st2, Some(r.error))
           else Outcome(WriteKey(st2, ResponseKey(qid), ResponseValue(r.response)), None)
  {
  }

  /**
   * A task not yet done asks the agent once, under the first profile, and
   * stores the reply under `<id>_response` before marking itself done.
   */
  lemma TaskStoresResponse(w: World, s: Step, c: Ctx, st: State)
    requires s.Task? && |c.profiles| > 0
    requires !IsDone(Render(Lookup(st.mem, StatusKey(QualifiedId(c.parentId, s.stepId)))))
    ensures var qid := QualifiedId(c.parentId, s.stepId);
      var ip := SubstituteIn(TaskPrompt(w.wording, c.summary, c.prefix, s.description), st.mem, c.overrides);
      var r := w.agent(c.profiles[0], ip.prompt, st.mem);
      var o := StepRun(w, s, c, st);
      var added := [Read(StatusKey(qid))] + ReadsOf(ip.keysRead) + [AgentCall(c.profiles[0], ip.prompt)];
      (r.AgentFailed? ==> o == Outcome(State(r.mem, st.trace + added), Some(r.error)))
      && (r.Replied? ==>
            o.err.None?
            && o.st.mem == r.mem[ResponseKey(qid) := ResponseValue(r.response)][StatusKey(qid) := JStr(DoneMarker)]
            && o.st.trace == st.trace + added
                 + [Write(ResponseKey(qid), ResponseValue(r.response)), Write(StatusKey(qid), JStr(DoneMarker))])
  {
    var qid := QualifiedId(c.parentId, s.stepId);
    var st1 := ReadKey(st, StatusKey(qid));
    TaskActualRun(w, s, c, st1);
    assert StepRun(w, s, c, st) == (var o := ActualRun(w, s, c, st1);
      if o.err.Some? then o else Outcome(WriteKey(o.st, StatusKey(qid), JStr(DoneMarker)), None));
    var ip := SubstituteIn(TaskPrompt(w.wording, c.summary, c.prefix, s.description), st.mem, c.overrides);
    assert st1.trace + ReadsOf(ip.keysRead) + [AgentCall(c.profiles[0], ip.prompt)]
      == st.trace + ([Read(StatusKey(qid))] + ReadsOf(ip.keysRead) + [AgentCall(c.profiles[0], ip.prompt)]);
  }

  // ---------------------------------------------------------------- loop lists

  /** How many agent conversations a trace holds. */
  function AgentCalls(t: seq<Effect>): (n: nat)
    ensures n <= |t|
  {
    if |t| == 0 then 0 else (if t[0].AgentCall? then 1 else 0) + AgentCalls(t[1..])
  }

  lemma {:induction false} AgentCallsAppend(a: seq<Effect>, b: seq<Effect>)
    ensures AgentCalls(a + b) == AgentCalls(a) + AgentCalls(b)
  {
    if |a| == 0 {
      assert a + b == b;
    } else {
      assert (a + b)[1..] == a[1..] + b;
      AgentCallsAppend(a[1..], b);
    }
  }

  lemma {:induction false} AgentCallsOfReads(keys: seq<string>)
    ensures AgentCalls(ReadsOf(keys)) == 0
  {
    if |keys| > 0 {
      assert ReadsOf(keys)[1..] == ReadsOf(keys[1..]);
      AgentCallsOfReads(keys[1..]);
    }
  }

  /** A loop with a list callable calls it once and touches no memory entry. */
  lemma ListFromCallable(w: World, s: Step, c: Ctx, st: State)
    requires s.ForEach? && |c.profiles| > 0
    requires s.listFunc.Some? || s.listFuncWithParams.Some?
    ensures var l := ListRun(w, s, c, st);
      var name := if s.listFunc.Some? then s.listFunc.value else s.listFuncWithParams.value;
      l.st == State(st.mem, st.trace + [ListCall(name)])
  {
  }

  /** A list already stored under `<id>_expression_list` is used as it is, with one read. */
  lemma StoredListReused(w: World, s: Step, c: Ctx, st: State)
    requires s.ForEach? && |c.profiles| > 0 && s.listFunc.None? && s.listFuncWithParams.None?
    requires Usable(Render(Lookup(st.mem, ExpressionListKey(QualifiedId(c.parentId, s.stepId)))))
    ensures var key := ExpressionListKey(QualifiedId(c.parentId, s.stepId));
      ListRun(w, s, c, st) == ListOutcome(Render(Lookup(st.mem, key)), ReadKey(st, key), None)
  {
  }

  /**
   * A list not stored yet costs one agent conversation; the list is what
   * the agent stored under the key, and its absence is reported.
   */
  lemma ComputedListAsksOnce(w: World, s: Step, c: Ctx, st: State)
    requires s.ForEach? && |c.profiles| > 0 && s.listFunc.None? && s.listFuncWithParams.None?
    requires !Usable(Render(Lookup(st.mem, ExpressionListKey(QualifiedId(c.parentId, s.stepId)))))
    ensures var key := ExpressionListKey(QualifiedId(c.parentId, s.stepId));
      var ip := SubstituteIn(ExpressionPrompt(w.wording, c.summary, c.prefix, s.variableName, s.expression, key), st.mem, c.overrides);
      var r := w.agent(c.profiles[0], ip.prompt, st.mem);
      var l := ListRun(w, s, c, st);
      var added := [Read(key)] + ReadsOf(ip.keysRead) + [AgentCall(c.profiles[0], ip.prompt)];
      (r.AgentFailed? ==> l == ListOutcome([], State(r.mem, st.trace + added), Some(r.error)))
      && (r.Replied? ==>
            l.st == State(r.mem, st.trace + added + [Read(key)])
            && (if Usable(Render(Lookup(r.mem, key))) then l.err.None? && l.items == Render(Lookup(r.mem, key))
                else l.err == Some(ListFailure)))
  {
    var key := ExpressionListKey(QualifiedId(c.parentId, s.stepId));
    var ip := SubstituteIn(ExpressionPrompt(w.wording, c.summary, c.prefix, s.variableName, s.expression, key), st.mem, c.overrides);
    assert ReadKey(st, key).trace + ReadsOf(ip.keysRead) + [AgentCall(c.profiles[0], ip.prompt)]
      == st.trace + ([Read(key)] + ReadsOf(ip.keysRead) + [AgentCall(c.profiles[0], ip.prompt)]);
  }

  lemma OneAgentCall(key: string, keys: seq<string>, profile: string, prompt: string)
    ensures AgentCalls([Read(key)] + ReadsOf(keys) + [AgentCall(profile, prompt)]) == 1
  {
    AgentCallsAppend([Read(key)], ReadsOf(keys));
    AgentCallsOfReads(keys);
    AgentCallsAppend([Read(key)] + ReadsOf(keys), [AgentCall(profile, prompt)]);
    assert AgentCalls([Read(key)]) == 0;
    assert AgentCalls([AgentCall(profile, prompt)]) == 1;
  }

  /** The effects a run added to the trace `t0` it started from, when it only appended. */
  predicate Extends(t0: seq<Effect>, t: seq<Effect>) {
    |t0| <= |t| && t[..|t0|] == t0
  }

  lemma AppendExtends(t0: seq<Effect>, e: seq<Effect>)
    ensures Extends(t0, t0 + e) && (t0 + e)[|t0|..] == e
  {
  }

  /** The effect count of a list found without the agent. */
  lemma ListWithoutAgent(w: World, s: Step, c: Ctx, st: State)
    requires s.ForEach? && |c.profiles| > 0
    requires s.listFunc.Some? || s.listFuncWithParams.Some?
      || Usable(Render(Lookup(st.mem, ExpressionListKey(QualifiedId(c.parentId, s.stepId)))))
    ensures var l := ListRun(w, s, c, st);
      Extends(st.trace, l.st.trace) && l.st.mem == st.mem && AgentCalls(l.st.trace[|st.trace|..]) == 0
  {
    var key := ExpressionListKey(QualifiedId(c.parentId, s.stepId));
    var e: seq<Effect>;
    if s.listFunc.Some? || s.listFuncWithParams.Some? {
      ListFromCallable(w, s, c, st);
      e := [ListCall(if s.listFunc.Some? then s.listFunc.value else s.listFuncWithParams.value)];
    } else {
      StoredListReused(w, s, c, st);
      e := [Read(key)];
    }
    assert AgentCalls(e) == 0;
    assert ListRun(w, s, c, st).st.trace == st.trace + e;
    AppendExtends(st.trace, e);
  }

  /** The effect count of a list the agent is asked for. */
  lemma ListWithAgent(w: World, s: Step, c: Ctx, st: State)
    requires s.ForEach? && |c.profiles| > 0 && s.listFunc.None? && s.listFuncWithParams.None?
    requires !Usable(Render(Lookup(st.mem, ExpressionListKey(QualifiedId(c.parentId, s.stepId)))))
    ensures var l := ListRun(w, s, c, st);
      Extends(st.trace, l.st.trace) && AgentCalls(l.st.trace[|st.trace|..]) == 1
  {
    var key := ExpressionListKey(QualifiedId(c.parentId, s.stepId));
    var e: seq<Effect>;
    ComputedListAsksOnce(w, s, c, st);
    var ip := SubstituteIn(ExpressionPrompt(w.wording, c.summary, c.prefix, s.variableName, s.expression, key), st.mem, c.overrides);
    OneAgentCall(key, ip.keysRead, c.profiles[0], ip.prompt);
    var added := [Read(key)] + ReadsOf(ip.keysRead) + [AgentCall(c.profiles[0], ip.prompt)];
    if w.agent(c.profiles[0], ip.prompt, st.mem).AgentFailed? {
      e := added;
    } else {
      e := added + [Read(key)];
      AgentCallsAppend(added, [Read(key)]);
      assert AgentCalls([Read(key)]) == 0;
      assert st.trace + added + [Read(key)] == st.trace + e;
    }
    assert ListRun(w, s, c, st).st.trace == st.trace + e;
    AppendExtends(st.trace, e);
  }

  /** Finding a loop's list asks the agent at most once, and not at all when a callable or a stored list serves. */
  lemma ListAsksAgentAtMostOnce(w: World, s: Step, c: Ctx, st: State)
    requires s.ForEach? && |c.profiles| > 0
    ensures var l := ListRun(w, s, c, st);
      Extends(st.trace, l.st.trace) && AgentCalls(l.st.trace[|st.trace|..]) <= 1
    ensures var l := ListRun(w, s, c, st);
      var stored := Render(Lookup(st.mem, ExpressionListKey(QualifiedId(c.parentId, s.stepId))));
      (s.listFunc.Some? || s.listFuncWithParams.Some? || Usable(stored)) <==>
        AgentCalls(l.st.trace[|st.trace|..]) == 0
  {
    if s.listFunc.Some? || s.listFuncWithParams.Some?
      || Usable(Render(Lookup(st.mem, ExpressionListKey(QualifiedId(c.parentId, s.stepId))))) {
      ListWithoutAgent(w, s, c, st);
    } else {
      ListWithAgent(w, s, c, st);
    }
  }

  // ---------------------------------------------------------------- iterations

  /** An iteration whose marker reads "done" only reads it, whatever the loop is. */
  lemma MarkedIterationSkipped(w: World, s: Step, c: Ctx, item: string, profile: string, n: nat, st: State)
    requires s.ForEach?
    requires IsDone(Render(Lookup(st.mem, IterationStatusKey(IterationId(c.parentId, s.stepId, n)))))
    ensures IterationRun(w, s, c, item, profile, n, st)
      == Outcome(ReadKey(st, IterationStatusKey(IterationId(c.parentId, s.stepId, n))), None)
  {
  }

  /** Different iterations of a loop keep their markers under different keys. */
  lemma IterationKeysDiffer(parentId: string, stepId: string, n1: nat, n2: nat)
    requires n1 != n2
    ensures IterationStatusKey(IterationId(parentId, stepId, n1)) != IterationStatusKey(IterationId(parentId, stepId, n2))
  {
    var q := QualifiedId(parentId, stepId) + "__";
    var s1, s2 := NatToString(n1), NatToString(n2);
    var t := "_iteration_status";
    assert IterationStatusKey(IterationId(parentId, stepId, n1)) == q + s1 + t;
    assert IterationStatusKey(IterationId(parentId, stepId, n2)) == q + s2 + t;
    if q + s1 + t == q + s2 + t {
      assert s1 == (q + s1 + t)[|q|..|q| + |s1|];
      assert s2 == (q + s2 + t)[|q|..|q| + |s2|];
      NatToStringInjective(n1, n2);
    }
  }

  /** In parallel mode the first `|profiles|` iterations take the profiles in order. */
  lemma ParallelProfilesInOrder(s: Step, c: Ctx, i: nat)
    requires s.ForEach? && s.isParallel && i < |c.profiles|
    ensures IterationProfile(s, c, i) == c.profiles[i]
  {
    ModUnique(i, |c.profiles|, 0, i);
  }

  /** In parallel mode the profiles repeat with period `|profiles|`; sequentially the first is always used. */
  lemma ProfilesRoundRobin(s: Step, c: Ctx, i: nat)
    requires s.ForEach? && |c.profiles| > 0
    ensures IterationProfile(s, c, i + |c.profiles|) == IterationProfile(s, c, i)
    ensures !s.isParallel ==> IterationProfile(s, c, i) == c.profiles[0]
  {
    var n := |c.profiles|;
    var q, r := i / n, i % n;
    assert n * (q + 1) == n * q + n;
    ModUnique(i + n, n, q + 1, r);
  }

  // ---------------------------------------------------------------- resuming a process

  /** The marker keys of the top-level steps, in order. */
  function StatusKeys(steps: seq<Step>): (keys: seq<string>)
    ensures |keys| == |steps|
    ensures forall i :: 0 <= i < |steps| ==> keys[i] == StatusKey(steps[i].stepId)
  {
    seq(|steps|, i requires 0 <= i < |steps| => StatusKey(steps[i].stepId))
  }

  /** Seeding inputs leaves every other key as it was. */
  lemma {:induction false} SeedKeepsOtherKeys(st: State, inputs: seq<(string, Json)>, key: string)
    requires forall i :: 0 <= i < |inputs| ==> inputs[i].0 != key
    ensures Lookup(Seed(st, inputs).mem, key) == Lookup(st.mem, key)
  {
    if |inputs| > 0 {
      SeedKeepsOtherKeys(st, inputs[..|inputs| - 1], key);
    }
  }

  lemma ReadsOfSuffix(keys: seq<string>, i: nat, t: seq<Effect>)
    requires i < |keys|
    ensures t + [Read(keys[i])] + ReadsOf(keys[i + 1..]) == t + ReadsOf(keys[i..])
  {
    assert ReadsOf(keys[i..]) == [Read(keys[i])] + ReadsOf(keys[i + 1..]);
  }

  /** A marked top-level step is passed over with one read. */
  lemma TopStepSkipped(w: World, p: Process, i: nat, st: State)
    requires i < |p.steps|
    requires Skippable(p.steps[i]) && IsDone(Render(Lookup(st.mem, StatusKey(p.steps[i].stepId))))
    ensures StepsRun(w, p, i, st) == StepsRun(w, p, i + 1, ReadKey(st, StatusKey(p.steps[i].stepId)))
  {
    var c := TopCtx(p, i);
    assert QualifiedId(c.parentId, p.steps[i].stepId) == p.steps[i].stepId;
    MarkedStepSkipped(w, p.steps[i], c, st);
  }

  /** Top-level steps from `i` on that are all marked done are skipped one after another. */
  lemma {:induction false} StepsSkipped(w: World, p: Process, i: nat, st: State)
    requires i <= |p.steps|
    requires forall j :: i <= j < |p.steps| ==>
      Skippable(p.steps[j]) && IsDone(Render(Lookup(st.mem, StatusKey(p.steps[j].stepId))))
    ensures StepsRun(w, p, i, st) == Outcome(State(st.mem, st.trace + ReadsOf(StatusKeys(p.steps)[i..])), None)
    decreases |p.steps| - i
  {
    var keys := StatusKeys(p.steps);
    if i == |p.steps| {
      assert keys[i..] == [];
    } else {
      TopStepSkipped(w, p, i, st);
      StepsSkipped(w, p, i + 1, ReadKey(st, keys[i]));
      ReadsOfSuffix(keys, i, st.trace);
    }
  }

  /**
   * Re-running a process whose steps are all skippable and already marked
   * done (and whose inputs do not overwrite a marker) seeds the inputs and
   * then only reads the markers: no agent, code or list callable is used.
   */
  lemma RerunOfCompletedProcess(w: World, p: Process, servers: seq<Server>, st: State)
    requires HasMemoryServer(servers)
    requires forall j :: 0 <= j < |p.steps| ==>
      Skippable(p.steps[j]) && IsDone(Render(Lookup(st.mem, StatusKey(p.steps[j].stepId))))
    requires forall i, j :: 0 <= i < |p.inputs| && 0 <= j < |p.steps| ==> p.inputs[i].0 != StatusKey(p.steps[j].stepId)
    ensures var seeded := Seed(st, p.inputs);
      ProcessRun(w, p, servers, st) == Outcome(State(seeded.mem, seeded.trace + ReadsOf(StatusKeys(p.steps))), None)
  {
    var seeded := Seed(st, p.inputs);
    forall j | 0 <= j < |p.steps|
      ensures IsDone(Render(Lookup(seeded.mem, StatusKey(p.steps[j].stepId))))
    {
      SeedKeepsOtherKeys(st, p.inputs, StatusKey(p.steps[j].stepId));
    }
    StepsSkipped(w, p, 0, seeded);
    assert StatusKeys(p.steps)[0..] == StatusKeys(p.steps);
  }

  // ---------------------------------------------------------------- outline

  /** The number of summary lines a step should contribute: one per task and per loop, none per code step. */
  function OutlineSize(s: Step): nat
    decreases s, 1
  {
    match s
    case ExecuteCode(_, _, _, _) => 0
    case Task(_, _, _) => 1
    case ForEach(_, _, _, body, _, _, _) => 1 + BodyOutlineSize(s, 0)
  }

  function BodyOutlineSize(s: Step, j: nat): nat
    requires s.ForEach? && j <= |s.body|
    decreases s, 0, |s.body| - j
  {
    if j == |s.body| then 0
    else
      assert s.body[j] in s.body;
      OutlineSize(s.body[j]) + BodyOutlineSize(s, j + 1)
  }

  /** The outline of a step has one line per task and loop it contains, whatever the prefix. */
  lemma {:induction false} SummaryLength(s: Step, prefix: string)
    ensures |StepSummary(s, prefix)| == OutlineSize(s)
    decreases s, 1
  {
    if s.ForEach? {
      BodySummaryLength(s, prefix, 0);
    }
  }

  lemma {:induction false} BodySummaryLength(s: Step, prefix: string, j: nat)
    requires s.ForEach? && j <= |s.body|
    ensures |BodySummary(s, prefix, j)| == BodyOutlineSize(s, j)
    decreases s, 0, |s.body| - j
  {
    if j < |s.body| {
      assert s.body[j] in s.body;
      SummaryLength(s.body[j], "\t" + prefix + "." + NatToString(j + 1));
      BodySummaryLength(s, prefix, j + 1);
    }
  }

  /** A loop's outline starts with its header line, and every line of a task's outline names its summary. */
  lemma SummaryHeads(s: Step, prefix: string)
    ensures s.ExecuteCode? ==> StepSummary(s, prefix) == []
    ensures s.Task? ==> StepSummary(s, prefix) == [prefix + "- " + s.summary]
    ensures s.ForEach? ==>
      |StepSummary(s, prefix)| >= 1 && StepSummary(s, prefix)[0] == prefix + "- Foreach " + s.variableName + " in " + ShowOptional(s.expression) + " will do the following:"
  {
  }
}
