# A Dafny model of the GitHub bug reproducer

The system turns GitHub bug reports into reproductions. It has these parts:

- **Webhook receiver** (`GithubWebhook`). It checks the signature on each delivery. It keeps the "issue opened" events whose labels pass the filter and queues one message for each of them.
- **Scaling updater** (`ScalingUpdater`). It sizes the worker service from the queue length and the number of pooled accounts.
- **Worker** (`Worker`). It takes one message and acquires an AWS account from the pool. It runs the issue processor with that account's role, uploads the result, comments on the issue and deletes the message. It always releases the account.
- **Account pool** (`AccountManager`). A DynamoDB table of accounts that are AVAILABLE or IN_USE. Its operations are register, deregister, acquire, release, list and cleanup.
- **Issue processor** (`Processor`). It reads the issue, classifies it by its labels and builds its prompt. It keeps track of step directories and helper resources. It drives a **step interpreter** (`StepEngine`, `StepProperties`, `ProcessHelpers`).
- **Step interpreter.** A process is a list of steps: agent tasks, code steps, and sequential or parallel loops over lists. Each step writes a completion marker into the **context memory** (`ContextMemory`), a key/value MCP server backed by files. A re-run therefore resumes where the last run stopped.
- **Agents.** They talk to Bedrock through the Converse API (`ConverseAgent`). One of them can search AWS documentation through the **Mynah** tool server (`MynahSearch`).
- **Supporting pieces.** A custom resource that registers the repository webhook (`WebhookRegistrator`), a utility that migrates issues between repositories (`IssueMigrator`), and the first-generation Lambda issue processor (`IssueProcessorLambda`).

Everything outside the process is an input to the model. This covers AWS and GitHub calls, MCP tool calls, model endpoints, clocks and the file system. An oracle's answer is a parameter, or a stream of answers consumed in order. What the code asks of the outside world is returned as a list of effects, or kept as the state of a class.

Some code updates state step by step:

- the memory server;
- the step engine;
- the account table;
- the webhook lists;
- the processor's `Memory` object.

That code is modelled as classes and methods with loops. Each method is proved equal to a specification function, and the properties are lemmas about those functions. Pure code is modelled as functions. `Strings`, `JsonValue` and `Wrappers` hold the Python built-ins that the rest relies on.

## Model

| member | source | states |
|---|---|---|
| ContextMemory.WriteAllSnoc | cdk-github-bug-reproducer-cdk/lambda/ecs_task/agents/context_memory.py:40-43 | writing one more entry after a batch is the batch's result with that key set |
| ContextMemory.WriteAllLookup | cdk-github-bug-reproducer-cdk/lambda/ecs_task/agents/context_memory.py:40-44 | after a batch write a key of the batch reads back the last value the batch gave it; every other key reads what it read before |
| ContextMemory.SentinelIndistinguishable | cdk-github-bug-reproducer-cdk/lambda/ecs_task/agents/context_memory.py:55-63 | a stored value equal to the not-found text reads exactly like a missing entry |
| ContextMemory.ListSet | cdk-github-bug-reproducer-cdk/lambda/ecs_task/agents/context_memory.py:90-92 | the listed keys are exactly the dictionary's keys, each once |
| ContextMemory.MemoryServer.Startup | cdk-github-bug-reproducer-cdk/lambda/ecs_task/agents/context_memory.py:109-117 | an existing directory is loaded into the dictionary, skipping its hidden files; a missing one is created empty; every cached entry the file system accepts is on disk |
| ContextMemory.MemoryServer.AddOrUpdate | cdk-github-bug-reproducer-cdk/lambda/ecs_task/agents/context_memory.py:19-29 | the dictionary is updated in every case; a key the file system accepts is also written to its file and the call answers true; otherwise the write raises and the files are unchanged |
| ContextMemory.MemoryServer.AddOrUpdateMany | cdk-github-bug-reproducer-cdk/lambda/ecs_task/agents/context_memory.py:33-44 | the entries are written in iteration order up to the first refused file; with none refused the call answers true; otherwise it raises for that key, which is cached but not written, and later entries are untouched |
| ContextMemory.MemoryServer.Read | cdk-github-bug-reproducer-cdk/lambda/ecs_task/agents/context_memory.py:49-63 | the answer is the cached value, else the value on disk, else the not-found text, which for an accepted key is the value on disk; an entry found only on disk is loaded into the dictionary; the files are unchanged |
| ContextMemory.MemoryServer.ReadMany | cdk-github-bug-reproducer-cdk/lambda/ecs_task/agents/context_memory.py:68-86 | the answer has exactly the requested keys, each with what a single read answers; the dictionary loads each key in request order; the files are unchanged |
| ContextMemory.MemoryServer.List | cdk-github-bug-reproducer-cdk/lambda/ecs_task/agents/context_memory.py:90-92 | the answer lists every dictionary key once and nothing else |
| ContextMemory.MemoryServer.Delete | cdk-github-bug-reproducer-cdk/lambda/ecs_task/agents/context_memory.py:96-106 | the key is gone from the dictionary and from disk, whether or not it was there; the call answers true |
| ContextMemory.RestartRoundTrip | cdk-github-bug-reproducer-cdk/lambda/ecs_task/agents/context_memory.py:109-115 | an entry written under a key the file system accepts reads back the same value after a restart |
| ContextMemory.FirstRefused | cdk-github-bug-reproducer-cdk/lambda/ecs_task/agents/context_memory.py:40-43 | the position of the first entry whose file the file system refuses: every earlier key is accepted, and that one is not |
| ContextMemory.Lookup | cdk-github-bug-reproducer-cdk/lambda/ecs_task/agents/context_memory.py:55-63 | the value stored under the key, or the not-found text when there is none |
| ContextMemory.WriteAll | cdk-github-bug-reproducer-cdk/lambda/ecs_task/agents/context_memory.py:40-43 | the dictionary after setting each entry in turn, so a later entry overwrites an earlier one with the same key |
| ContextMemory.Answer | cdk-github-bug-reproducer-cdk/lambda/ecs_task/agents/context_memory.py:51-63 | a read answers the dictionary first, then the disk, then the not-found text |
| IssueProcessorLambda.FirstBlockUnique | lambda/issue_processor.py:19-28 | two positions that both qualify as the first closed TypeScript block are the same block |
| IssueProcessorLambda.ExtractedUnique | lambda/issue_processor.py:19-28 | a description determines what is extracted from it |
| IssueProcessorLambda.ClosedBeforeNext | lambda/issue_processor.py:20-25 | one more line closes a block exactly when it is a fence line that is not an opening line and an opening line came before it |
| IssueProcessorLambda.ScanOpens | lambda/issue_processor.py:20-22 | a line starting with the TypeScript fence starts a new, empty block, even inside an open one |
| IssueProcessorLambda.ScanCloses | lambda/issue_processor.py:23-25 | another fence line inside a block ends it and records its lines joined by newlines; the first one recorded is the first closed block |
| IssueProcessorLambda.ScanOther | lambda/issue_processor.py:26-27 | any other line is kept when a block is open and ignored otherwise |
| IssueProcessorLambda.ScanDone | lambda/issue_processor.py:28 | after the last line the first recorded block, or nothing, is what the description yields |
| IssueProcessorLambda.ExtractReproductionSteps | lambda/issue_processor.py:14-28 | the result is nothing when no block is ever closed, otherwise the lines between the first opening fence and its closing fence, joined by newlines |
| IssueProcessorLambda.ScanLines | lambda/issue_processor.py:16-28 | the loop over the lines yields exactly that result |
| IssueProcessorLambda.BlockFound | lambda/issue_processor.py:19-28 | a TypeScript block with no opening fence before it, closed by a fence with no fence inside, is what is extracted |
| IssueProcessorLambda.NoOpeningNoSteps | lambda/issue_processor.py:19-28 | a description without an opening fence yields nothing |
| IssueProcessorLambda.ReadIssue | lambda/issue_processor.py:69-73 | the number defaults to null and the description to ""; a missing label list is not a bug; with a label list the read succeeds iff every label has a name, and the issue is a bug iff some label is named "bug" |
| IssueProcessorLambda.Handle | lambda/issue_processor.py:66-86 | a bad event is an error; a non-bug answers "Not a bug issue." with no effects; a description that is not text raises; no or empty steps answer "No reproduction steps found."; otherwise the app is created, uploaded and announced in a comment, in that order |
| ScalingUpdater.DesiredCount | cdk-github-bug-reproducer-cdk/lambda/ecs_scaling_updater/index.py:49 | no messages gives zero tasks; otherwise one task per message capped at the account count, and at least one |
| ScalingUpdater.DesiredCountIsLargest | cdk-github-bug-reproducer-cdk/lambda/ecs_scaling_updater/index.py:49 | with messages waiting, the count is the largest that exceeds neither the messages nor the accounts (taking at least one account) |
| ScalingUpdater.DesiredCountMonotone | cdk-github-bug-reproducer-cdk/lambda/ecs_scaling_updater/index.py:49 | more messages never give fewer tasks |
| ScalingUpdater.ParseResourceId | cdk-github-bug-reproducer-cdk/lambda/ecs_scaling_updater/index.py:52-65 | an id is accepted iff it splits at "/" into exactly three parts whose first is "service"; the cluster and service are then the other two parts and rebuild the id |
| ScalingUpdater.ParseResourceIdOfNames | cdk-github-bug-reproducer-cdk/lambda/ecs_scaling_updater/index.py:52-65 | a cluster and a service without slashes are found again in their resource id |
| ScalingUpdater.Handle | cdk-github-bug-reproducer-cdk/lambda/ecs_scaling_updater/index.py:19-98 | a failed account scan, a failed queue read or a message count that is not an int answers 500 with the error and no update; otherwise a malformed id answers 400 with no update, and a well-formed one makes the update with the parsed cluster and service and the computed count; that update failing answers 500; 200 exactly when it succeeds, reporting the count, the accounts and the messages |
| IssueProcessorLambda.UploadUrl | lambda/issue_processor.py:47-55 | the app is published under cdk-issues/<issue number>/ in the bucket, and the link points there |
| ProcessHelpers.ReturnValue | cdk-github-bug-reproducer-cdk/lambda/ecs_task/issue_processor/process_definitions.py:41-52 | no text exactly when the answer is empty, its first item has no text or is the not-found text; otherwise the texts of the items that have one |
| ProcessHelpers.ReturnValueOfStoredString | cdk-github-bug-reproducer-cdk/lambda/ecs_task/issue_processor/process_definitions.py:41-52 | a string stored under a key is read back as that text |
| ProcessHelpers.ReturnValueOfStoredList | cdk-github-bug-reproducer-cdk/lambda/ecs_task/issue_processor/process_definitions.py:41-52 | a list of strings stored under a key is read back as its items, one per line |
| ProcessHelpers.ReturnValueOfMissing | cdk-github-bug-reproducer-cdk/lambda/ecs_task/issue_processor/process_definitions.py:41-52 | a missing key, or an entry holding null, reads as no text |
| ProcessHelpers.FindVars | cdk-github-bug-reproducer-cdk/lambda/ecs_task/issue_processor/process_definitions.py:68 | every name found is non-empty and holds no closing brace |
| ProcessHelpers.FindVarsWithoutDollar | cdk-github-bug-reproducer-cdk/lambda/ecs_task/issue_processor/process_definitions.py:68 | a text without a dollar sign has no placeholders |
| ProcessHelpers.FindVarsAfterPlain | cdk-github-bug-reproducer-cdk/lambda/ecs_task/issue_processor/process_definitions.py:68 | after dollar-free text, a placeholder's name is the first one found |
| ProcessHelpers.FindVarsOfJoin | cdk-github-bug-reproducer-cdk/lambda/ecs_task/issue_processor/process_definitions.py:68 | dollar-free parts joined by one placeholder name it once per joint |
| ProcessHelpers.Resolve | cdk-github-bug-reproducer-cdk/lambda/ecs_task/issue_processor/process_definitions.py:72-87 | the definition of one variable's resolution, by cases: an override gives its value and reads no memory; otherwise exactly one memory read, whose first text is used unless the answer is empty or the not-found text (the substitution properties are the Interpolate lemmas) |
| ProcessHelpers.SubstitutedStep | cdk-github-bug-reproducer-cdk/lambda/ecs_task/issue_processor/process_definitions.py:71-87 | substituting one more variable carries the loop's invariant forward: the rest of the variables lead to the full substitution |
| ProcessHelpers.ReplaceContextVariables | cdk-github-bug-reproducer-cdk/lambda/ecs_task/issue_processor/process_definitions.py:55-91 | the result and the memory keys read are those of substituting every placeholder found, in order of appearance |
| ProcessHelpers.InterpolateRepeatAbsent | cdk-github-bug-reproducer-cdk/lambda/ecs_task/issue_processor/process_definitions.py:71-87 | substituting a name absent from the text changes nothing but still reads memory once per occurrence |
| ProcessHelpers.InterpolateSinglePlaceholder | cdk-github-bug-reproducer-cdk/lambda/ecs_task/issue_processor/process_definitions.py:55-91 | a prompt whose only placeholders are one name has every occurrence replaced by the resolved value, or is untouched when it does not resolve; memory is read once per occurrence |
| ProcessHelpers.InterpolateNoneRepeat | cdk-github-bug-reproducer-cdk/lambda/ecs_task/issue_processor/process_definitions.py:85-86 | a variable that does not resolve leaves the text unchanged for every occurrence |
| ProcessHelpers.InterpolateOverride | cdk-github-bug-reproducer-cdk/lambda/ecs_task/issue_processor/process_definitions.py:73-75 | an override is substituted at every occurrence and memory is never read |
| ProcessHelpers.QualifiedId | cdk-github-bug-reproducer-cdk/lambda/ecs_task/issue_processor/process_definitions.py:146-148 | without a parent id the id is the step id; with one it starts with the parent id and two underscores and ends with the step id |
| ProcessHelpers.IterationScopedIdsDiffer | cdk-github-bug-reproducer-cdk/lambda/ecs_task/issue_processor/process_definitions.py:267-268 | a body step gets different ids in different iterations, so its completion markers never collide |
| StepEngine.ReadsOf | cdk-github-bug-reproducer-cdk/lambda/ecs_task/issue_processor/process_definitions.py:77-79 | one memory read per key, in order |
| StepEngine.GetSummary | cdk-github-bug-reproducer-cdk/lambda/ecs_task/issue_processor/process_definitions.py:371-378 | the lines are the step's summary: none for code, one line for a task, a loop's heading followed by its body's summaries numbered and indented |
| StepEngine.ProcessSummary | cdk-github-bug-reproducer-cdk/lambda/ecs_task/issue_processor/process_definitions.py:514-543 | the fixed framing, the description at line three and the guidelines after the heading, and no step lines |
| StepEngine.SelectToolServer | cdk-github-bug-reproducer-cdk/lambda/ecs_task/issue_processor/process_definitions.py:489-497 | the server used is the first that advertises the memory-write tool, or the last server when none does; no server leaves none |
| StepEngine.ModSuccessor | cdk-github-bug-reproducer-cdk/lambda/ecs_task/issue_processor/process_definitions.py:360 | advancing the profile index modulo the number of profiles keeps it equal to the iteration count modulo that number |
| StepEngine.Engine.constructor | cdk-github-bug-reproducer-cdk/lambda/ecs_task/issue_processor/process_definitions.py:475-484 | a fresh interpreter over the given memory, with no effects performed yet |
| StepEngine.Engine.ReadEntry | cdk-github-bug-reproducer-cdk/lambda/ecs_task/issue_processor/process_definitions.py:114-116 | a read adds one read effect and answers the entry's text items |
| StepEngine.Engine.WriteEntry | cdk-github-bug-reproducer-cdk/lambda/ecs_task/issue_processor/process_definitions.py:122-125 | a write sets the entry and adds one write effect |
| StepEngine.Engine.Substitute | cdk-github-bug-reproducer-cdk/lambda/ecs_task/issue_processor/process_definitions.py:55-91 | the prompt is substituted against the current memory and each memory key read is recorded, in order |
| StepEngine.Engine.Execute | cdk-github-bug-reproducer-cdk/lambda/ecs_task/issue_processor/process_definitions.py:109-125 | the memory, effects and error after the step are those of the interpreter's definition: the marker is read, a skippable step marked done ends there, otherwise the step runs and a success writes the marker |
| StepEngine.Engine.ActualExecute | cdk-github-bug-reproducer-cdk/lambda/ecs_task/issue_processor/process_definitions.py:128-133 | each kind of step is dispatched to its own execution, with the result the definition gives |
| StepEngine.Engine.RunCode | cdk-github-bug-reproducer-cdk/lambda/ecs_task/issue_processor/process_definitions.py:166-177 | the parameters are substituted in order, then the code runs once on them |
| StepEngine.Engine.RunTask | cdk-github-bug-reproducer-cdk/lambda/ecs_task/issue_processor/process_definitions.py:203-226 | with no profile the step raises; otherwise the first profile's agent answers the substituted prompt and the answer is stored as the step's response |
| StepEngine.Engine.RunForEach | cdk-github-bug-reproducer-cdk/lambda/ecs_task/issue_processor/process_definitions.py:345-351 | with no profile the step raises; otherwise the list is obtained and, unless that fails, the iterations run |
| StepEngine.Engine.RunIterations | cdk-github-bug-reproducer-cdk/lambda/ecs_task/issue_processor/process_definitions.py:352-369 | the iterations run in list order, numbered from one, round-robin over the profiles when parallel and on the first profile otherwise, stopping at the first failure |
| StepEngine.Engine.SubstituteParams | cdk-github-bug-reproducer-cdk/lambda/ecs_task/issue_processor/process_definitions.py:171-174 | each parameter is substituted in dictionary order and the memory keys read are recorded |
| StepEngine.Engine.GetExpressionList | cdk-github-bug-reproducer-cdk/lambda/ecs_task/issue_processor/process_definitions.py:270-279 | a list callable gives the list; otherwise the stored list is used |
| StepEngine.Engine.GetStoredList | cdk-github-bug-reproducer-cdk/lambda/ecs_task/issue_processor/process_definitions.py:281-288 | a usable stored list is used as is; otherwise the agent is asked for it |
| StepEngine.Engine.ComputeList | cdk-github-bug-reproducer-cdk/lambda/ecs_task/issue_processor/process_definitions.py:289-315 | the agent is asked once to store the list, which is then read again; a list still missing raises "Failed to calculate expression_list" |
| StepEngine.Engine.ProcessIteration | cdk-github-bug-reproducer-cdk/lambda/ecs_task/issue_processor/process_definitions.py:317-336 | an iteration marked done is skipped; otherwise the item is stored under the loop variable, the body runs with the item as an override and a success marks the iteration done |
| StepEngine.Engine.Run | cdk-github-bug-reproducer-cdk/lambda/ecs_task/issue_processor/process_definitions.py:475-512 | without a memory server the run stops; otherwise the inputs are written in order and the steps run in order, numbered from one, until the first failure |
| StepEngine.StepRun | cdk-github-bug-reproducer-cdk/lambda/ecs_task/issue_processor/process_definitions.py:109-125 | Step.execute: read the status entry; a skippable step already marked done does nothing more; otherwise run the step and, unless it failed, mark it done |
| StepEngine.IterationRun | cdk-github-bug-reproducer-cdk/lambda/ecs_task/issue_processor/process_definitions.py:317-336 | one loop iteration: skip it when its own status entry says done; otherwise store the item under the loop variable, run the body with the item as an override and mark the iteration done unless it failed |
| StepEngine.StepsRun | cdk-github-bug-reproducer-cdk/lambda/ecs_task/issue_processor/process_definitions.py:505-507 | the top-level steps in order, numbered from 1; the first failure ends the run |
| StepEngine.ProcessRun | cdk-github-bug-reproducer-cdk/lambda/ecs_task/issue_processor/process_definitions.py:475-512 | Process.run: without a memory server, an error before any step; otherwise the inputs are written in order and then the steps run |
| StepProperties.CompletedStepMarked | cdk-github-bug-reproducer-cdk/lambda/ecs_task/issue_processor/process_definitions.py:109-125 | a step that finished without error leaves its marker reading "done" |
| StepProperties.RerunSkipsStep | cdk-github-bug-reproducer-cdk/lambda/ecs_task/issue_processor/process_definitions.py:117-119 | running a skippable step again on the state its successful run left only reads its marker: nothing is called and nothing is written |
| StepProperties.MarkedStepSkipped | cdk-github-bug-reproducer-cdk/lambda/ecs_task/issue_processor/process_definitions.py:117-119 | a skippable step whose marker reads "done" only reads that marker |
| StepProperties.UnskippableCodeReruns | cdk-github-bug-reproducer-cdk/lambda/ecs_task/issue_processor/process_definitions.py:156-164 | a code step that is not skippable calls its code even when its marker reads "done" |
| StepProperties.CodeRunEndsWithCall | cdk-github-bug-reproducer-cdk/lambda/ecs_task/issue_processor/process_definitions.py:166-177 | a code step's execution only appends to the effects, and its last effect is the code call |
| StepProperties.TaskActualRun | cdk-github-bug-reproducer-cdk/lambda/ecs_task/issue_processor/process_definitions.py:203-226 | a task makes one agent call under the first profile with the substituted prompt and stores the reply as its response |
| StepProperties.TaskStoresResponse | cdk-github-bug-reproducer-cdk/lambda/ecs_task/issue_processor/process_definitions.py:203-226 | a task not yet done asks the agent once, stores the reply under its response key and then marks itself done |
| StepProperties.AgentCalls | cdk-github-bug-reproducer-cdk/lambda/ecs_task/issue_processor/process_definitions.py:209 | a trace holds no more agent conversations than effects |
| StepProperties.AgentCallsAppend | cdk-github-bug-reproducer-cdk/lambda/ecs_task/issue_processor/process_definitions.py:209 | agent conversations of two traces add up |
| StepProperties.AgentCallsOfReads | cdk-github-bug-reproducer-cdk/lambda/ecs_task/issue_processor/process_definitions.py:282-284 | memory reads are not agent conversations |
| StepProperties.ListFromCallable | cdk-github-bug-reproducer-cdk/lambda/ecs_task/issue_processor/process_definitions.py:271-279 | a loop with a list callable calls it once and touches no memory entry |
| StepProperties.StoredListReused | cdk-github-bug-reproducer-cdk/lambda/ecs_task/issue_processor/process_definitions.py:281-288 | a list already stored under the loop's list key is used as it is, with one read |
| StepProperties.ComputedListAsksOnce | cdk-github-bug-reproducer-cdk/lambda/ecs_task/issue_processor/process_definitions.py:289-315 | a list not stored yet costs one agent conversation; the list is what the agent stored under the key, and its absence raises |
| StepProperties.OneAgentCall | cdk-github-bug-reproducer-cdk/lambda/ecs_task/issue_processor/process_definitions.py:289-309 | the effects of computing a list hold exactly one agent conversation |
| StepProperties.AppendExtends | cdk-github-bug-reproducer-cdk/lambda/ecs_task/issue_processor/process_definitions.py:109-125 | an appended trace extends the one it started from |
| StepProperties.ListWithoutAgent | cdk-github-bug-reproducer-cdk/lambda/ecs_task/issue_processor/process_definitions.py:271-288 | a list found through a callable involves no agent conversation |
| StepProperties.ListWithAgent | cdk-github-bug-reproducer-cdk/lambda/ecs_task/issue_processor/process_definitions.py:289-315 | a list the agent is asked for involves exactly one agent conversation |
| StepProperties.ListAsksAgentAtMostOnce | cdk-github-bug-reproducer-cdk/lambda/ecs_task/issue_processor/process_definitions.py:270-315 | finding a loop's list asks the agent at most once, and not at all when a callable or a stored list serves |
| StepProperties.MarkedIterationSkipped | cdk-github-bug-reproducer-cdk/lambda/ecs_task/issue_processor/process_definitions.py:321-327 | an iteration whose marker reads "done" only reads it |
| StepProperties.IterationKeysDiffer | cdk-github-bug-reproducer-cdk/lambda/ecs_task/issue_processor/process_definitions.py:322 | different iterations of a loop keep their markers under different keys |
| StepProperties.ParallelProfilesInOrder | cdk-github-bug-reproducer-cdk/lambda/ecs_task/issue_processor/process_definitions.py:356-360 | in parallel mode the first iterations take the profiles in order |
| StepProperties.ProfilesRoundRobin | cdk-github-bug-reproducer-cdk/lambda/ecs_task/issue_processor/process_definitions.py:356-367 | in parallel mode the profiles repeat with the period of their number; sequentially the first is always used |
| StepProperties.StatusKeys | cdk-github-bug-reproducer-cdk/lambda/ecs_task/issue_processor/process_definitions.py:115 | the marker key of each top-level step, in order |
| StepProperties.SeedKeepsOtherKeys | cdk-github-bug-reproducer-cdk/lambda/ecs_task/issue_processor/process_definitions.py:499-504 | writing the inputs leaves every other key as it was |
| StepProperties.ReadsOfSuffix | cdk-github-bug-reproducer-cdk/lambda/ecs_task/issue_processor/process_definitions.py:114-116 | one read followed by the rest of the reads is the reads of the suffix |
| StepProperties.TopStepSkipped | cdk-github-bug-reproducer-cdk/lambda/ecs_task/issue_processor/process_definitions.py:506-508 | a marked top-level step is passed over with one read |
| StepProperties.StepsSkipped | cdk-github-bug-reproducer-cdk/lambda/ecs_task/issue_processor/process_definitions.py:506-508 | top-level steps that are all marked done are skipped one after another, each with one read |
| StepProperties.RerunOfCompletedProcess | cdk-github-bug-reproducer-cdk/lambda/ecs_task/issue_processor/process_definitions.py:475-512 | re-running a process whose steps are all skippable and marked done writes the inputs and then only reads the markers |
| StepProperties.SummaryLength | cdk-github-bug-reproducer-cdk/lambda/ecs_task/issue_processor/process_definitions.py:371-378 | a step's outline has one line per task and loop it contains |
| StepProperties.BodySummaryLength | cdk-github-bug-reproducer-cdk/lambda/ecs_task/issue_processor/process_definitions.py:374-377 | a loop body's outline has one line per task and loop in it |
| StepProperties.SummaryHeads | cdk-github-bug-reproducer-cdk/lambda/ecs_task/issue_processor/process_definitions.py:180-184 | code steps contribute no line, a task one line naming its summary, a loop its heading first |
| ConverseAgent.ChooseSession | cdk-github-bug-reproducer-cdk/lambda/ecs_task/issue_processor/converse_agent.py:75-88 | role assumption exactly when the profile starts with the IAM role ARN prefix, carrying that ARN; otherwise the named profile itself |
| ConverseAgent.FirstOccurrence | cdk-github-bug-reproducer-cdk/lambda/ecs_task/issue_processor/converse_agent.py:206-207 | the position found holds the tag, no earlier position from the start does, and none is found only when the tag never occurs there |
| ConverseAgent.LastOpening | cdk-github-bug-reproducer-cdk/lambda/ecs_task/issue_processor/converse_agent.py:206-207 | the position found opens a tag that a closing tag follows, no later one below the bound does, and none is found only when no such opening exists |
| ConverseAgent.CaptureSpan | cdk-github-bug-reproducer-cdk/lambda/ecs_task/issue_processor/converse_agent.py:206-209 | a captured span starts after an opening tag and ends at the first closing tag after it |
| ConverseAgent.CaptureSpanIsLastMatch | cdk-github-bug-reproducer-cdk/lambda/ecs_task/issue_processor/converse_agent.py:206-209 | the greedy prefix picks the last opening tag that has a closing tag after it and the lazy group stops at the first such closing tag; no match exactly when no opening tag is followed by a closing tag |
| ConverseAgent.FirstTextIndex | cdk-github-bug-reproducer-cdk/lambda/ecs_task/issue_processor/converse_agent.py:200-204 | the index found is a text item with no text item before it; none is found only when no item is text |
| ConverseAgent.ToolRequests | cdk-github-bug-reproducer-cdk/lambda/ecs_task/issue_processor/converse_agent.py:218-224 | at most one request per content item |
| ConverseAgent.ToolResponses | cdk-github-bug-reproducer-cdk/lambda/ecs_task/issue_processor/converse_agent.py:217-232 | the list succeeds exactly when every requested tool returns or is unknown; then it holds one entry per request in order, the tool's result or an error entry |
| ConverseAgent.ToolsRunStep | cdk-github-bug-reproducer-cdk/lambda/ecs_task/issue_processor/converse_agent.py:218-232 | one more content item keeps the loop's accumulated responses consistent with the full list, or fixes the failure when that tool aborts |
| ConverseAgent.RunEachTool | cdk-github-bug-reproducer-cdk/lambda/ecs_task/issue_processor/converse_agent.py:217-232 | the loop over the content items yields exactly the responses list, or the first aborting failure |
| ConverseAgent.Await | cdk-github-bug-reproducer-cdk/lambda/ecs_task/issue_processor/converse_agent.py:115-124 | waiting for an answer consumes at least one endpoint reply |
| ConverseAgent.Agent.constructor | cdk-github-bug-reproducer-cdk/lambda/ecs_task/issue_processor/converse_agent.py:62-95 | an agent with the given profile, output tags and tools, an empty transcript and the endpoint's replies still to come |
| ConverseAgent.Agent.InvokeWithPrompt | cdk-github-bug-reproducer-cdk/lambda/ecs_task/issue_processor/converse_agent.py:97-103 | the transcript, remaining replies and result are those of invoking with the prompt as a single text item |
| ConverseAgent.Agent.Invoke | cdk-github-bug-reproducer-cdk/lambda/ecs_task/issue_processor/converse_agent.py:105-128 | the transcript, remaining replies and result are those of the invoke run from the old state; content holding an unknown-tool error entry raises the not-serialisable error before the message is appended or anything is sent |
| ConverseAgent.Agent.RunTools | cdk-github-bug-reproducer-cdk/lambda/ecs_task/issue_processor/converse_agent.py:217-232 | the tool loop's result is the responses list for the content |
| ConverseAgent.Agent.HandleResponse | cdk-github-bug-reproducer-cdk/lambda/ecs_task/issue_processor/converse_agent.py:179-247 | the transcript, remaining replies and result are those of handling the response from the old state, including the failed tool follow-up when a tool was unknown |
| ConverseAgent.InvokeExtendsTranscript | cdk-github-bug-reproducer-cdk/lambda/ecs_task/issue_processor/converse_agent.py:105-114 | content with an unknown-tool error entry raises the not-serialisable error and leaves the transcript and replies as they were; any other content is appended as a user message that starts the new transcript after the old one |
| ConverseAgent.HandleExtendsTranscript | cdk-github-bug-reproducer-cdk/lambda/ecs_task/issue_processor/converse_agent.py:181 | the old transcript followed by the model's message is a prefix of the transcript after handling |
| ConverseAgent.AwaitSkipsRetries | cdk-github-bug-reproducer-cdk/lambda/ecs_task/issue_processor/converse_agent.py:115-124 | replies that are not answers, put in front, do not change which answer is awaited |
| ConverseAgent.RetriesAreTransparent | cdk-github-bug-reproducer-cdk/lambda/ecs_task/issue_processor/converse_agent.py:119-124 | any number of throttling or model-timeout replies ahead of the answer leave the result and the transcript of invoke unchanged, and every part of the outcome when the content serialises |
| ConverseAgent.OtherExceptionPropagates | cdk-github-bug-reproducer-cdk/lambda/ecs_task/issue_processor/converse_agent.py:135-177 | an endpoint exception other than throttling or timeout is raised out of invoke |
| ConverseAgent.EndTurnReturnsFirstText | cdk-github-bug-reproducer-cdk/lambda/ecs_task/issue_processor/converse_agent.py:195-210 | without a pair of output tags an end_turn answer returns the first text item, or nothing when there is none |
| ConverseAgent.TaggedAnswer | cdk-github-bug-reproducer-cdk/lambda/ecs_task/issue_processor/converse_agent.py:205-210 | with two output tags: no text raises, a match returns the captured text, no match returns the whole text |
| ConverseAgent.ToolUseAnswersWithResults | cdk-github-bug-reproducer-cdk/lambda/ecs_task/issue_processor/converse_agent.py:214-239 | a tool_use answer whose tools all run sends their results, one per request in order, as the next user message; a tool that raises anything but the unknown-tool error fails with "Failed to execute tool: "; an unknown tool makes the follow-up fail the same way with the not-serialisable error |
| ConverseAgent.UnknownToolBecomesErrorEntry | cdk-github-bug-reproducer-cdk/lambda/ecs_task/issue_processor/converse_agent.py:226-233 | a tool raising the unknown-tool error contributes an error entry carrying that message, and the follow-up invoke then fails with "Failed to execute tool: " and the not-serialisable error, after recording the model message |
| ConverseAgent.MaxTokensContinues | cdk-github-bug-reproducer-cdk/lambda/ecs_task/issue_processor/converse_agent.py:241-244 | a max_tokens answer sends "Please continue." and returns nothing unless that continuation fails |
| ConverseAgent.UnknownStopReasonRaises | cdk-github-bug-reproducer-cdk/lambda/ecs_task/issue_processor/converse_agent.py:246-247 | any other stop reason raises "Unknown stop reason: " without calling the endpoint again |
| ConverseAgent.FinalText | cdk-github-bug-reproducer-cdk/lambda/ecs_task/issue_processor/converse_agent.py:195-210 | the answer of an end_turn: the first text, or nothing when there is none; with two tags configured, the part between them, the whole text when they do not match, and an error when there is no text |
| ConverseAgent.HasToolError | cdk-github-bug-reproducer-cdk/lambda/ecs_task/issue_processor/converse_agent.py:229-233 | some content item is an unknown-tool error entry, which json.dumps cannot write |
| ConverseAgent.InvokeRun | cdk-github-bug-reproducer-cdk/lambda/ecs_task/issue_processor/converse_agent.py:105-128 | invoke as a function of the transcript and the endpoint replies: the serialisation check, the user message, the retry loop, then the response handling |
| ConverseAgent.HandleRun | cdk-github-bug-reproducer-cdk/lambda/ecs_task/issue_processor/converse_agent.py:179-247 | _handle_response as a function: record the model message, then answer, continue after max_tokens, run the tools and invoke again, or raise on an unknown stop reason |
| MynahSearch.WaitAt | cdk-github-bug-reproducer-cdk/lambda/ecs_task/agents/mynah_mcp2.py:100-139 | every wait lies between the initial wait of 1 and the cap of 128 seconds |
| MynahSearch.WaitAtMonotone | cdk-github-bug-reproducer-cdk/lambda/ecs_task/agents/mynah_mcp2.py:139 | the waits never shrink from one retry to the next |
| MynahSearch.RetryRun | cdk-github-bug-reproducer-cdk/lambda/ecs_task/agents/mynah_mcp2.py:98-148 | the call count stays within the retry budget; "max retries reached" only once the budget is spent; a returned value is the last call's success; a re-raised error is the last call's failure, and a retryable one is re-raised only on the last allowed call |
| MynahSearch.RetryRunRetried | cdk-github-bug-reproducer-cdk/lambda/ecs_task/agents/mynah_mcp2.py:103-138 | every call before the last failed with a retryable error |
| MynahSearch.RetryRunWaitsAt | cdk-github-bug-reproducer-cdk/lambda/ecs_task/agents/mynah_mcp2.py:133-139 | one wait slept after each call but the last, the i-th being the initial wait times 1.5 to the i, capped at 128 |
| MynahSearch.RetryRunWaits | cdk-github-bug-reproducer-cdk/lambda/ecs_task/agents/mynah_mcp2.py:98-148 | the two facts above together: retryable failures before the last call and one growing, capped wait after each |
| MynahSearch.CallWithRetries | cdk-github-bug-reproducer-cdk/lambda/ecs_task/agents/mynah_mcp2.py:98-148 | the decorator's loop yields exactly the retry run from the first attempt with the initial wait |
| MynahSearch.NonRetryableRaisedAtOnce | cdk-github-bug-reproducer-cdk/lambda/ecs_task/agents/mynah_mcp2.py:110-131 | a first call failing with a non-retryable error is re-raised after one call and no sleep |
| MynahSearch.AlwaysRetryableGivesUpAfterFive | cdk-github-bug-reproducer-cdk/lambda/ecs_task/agents/mynah_mcp2.py:95-142 | when every call fails retryably the wrapper calls five times, sleeps 1, 1.5, 2.25 and 3.375 seconds and re-raises the fifth error |
| MynahSearch.AttributesJson | cdk-github-bug-reproducer-cdk/lambda/ecs_task/agents/mynah_mcp2.py:249 | one key/value object per context attribute, in order |
| MynahSearch.ToDictFields | cdk-github-bug-reproducer-cdk/lambda/ecs_task/agents/mynah_mcp2.py:246-270 | the dictionary holds the attributes and requester always, and each optional key exactly when its value is truthy, with that value |
| MynahSearch.FieldOfPair | cdk-github-bug-reproducer-cdk/lambda/ecs_task/agents/mynah_mcp2.py:248-251 | looking a key up in the two mandatory entries finds the first that matches |
| MynahSearch.FieldOfEntry | cdk-github-bug-reproducer-cdk/lambda/ecs_task/agents/mynah_mcp2.py:253-268 | an optional entry answers its key only when present |
| MynahSearch.FieldsOfToDict | cdk-github-bug-reproducer-cdk/lambda/ecs_task/agents/mynah_mcp2.py:248-268 | a lookup in the assembled dictionary finds the first part whose key matches |
| MynahSearch.CodeStructureOnlyWhenGiven | cdk-github-bug-reproducer-cdk/lambda/ecs_task/agents/mynah_mcp2.py:256-259 | a code query carries its code structure exactly when that structure is not empty, and always its language name |
| MynahSearch.CreateSearchRequest | cdk-github-bug-reproducer-cdk/lambda/ecs_task/agents/mynah_mcp2.py:418-444 | a code query exactly when code search is enabled and asked for, with no attributes; otherwise a text query with the given attributes; requester, count, body type and request id always set |
| MynahSearch.SearchRequestFor | cdk-github-bug-reproducer-cdk/lambda/ecs_task/agents/mynah_mcp2.py:393-413 | a missing count takes the configured one and an empty attribute list the four default document types |
| MynahSearch.AwsDocsAttributes | cdk-github-bug-reproducer-cdk/lambda/ecs_task/agents/mynah_mcp2.py:368-390 | the domain and documentation attributes first, then the blog attribute exactly when asked for and the FAQ attribute exactly when asked for |
| MynahSearch.Decoded | cdk-github-bug-reproducer-cdk/lambda/ecs_task/agents/mynah_mcp2.py:284-303 | one decoding outcome per suggestion element, in order |
| MynahSearch.KeptPositionsIncrease | cdk-github-bug-reproducer-cdk/lambda/ecs_task/agents/mynah_mcp2.py:284-303 | the positions kept increase, lie inside the list and each holds an excerpt |
| MynahSearch.KeptPositionsComplete | cdk-github-bug-reproducer-cdk/lambda/ecs_task/agents/mynah_mcp2.py:285 | every element carrying an excerpt is kept |
| MynahSearch.CollectAtKept | cdk-github-bug-reproducer-cdk/lambda/ecs_task/agents/mynah_mcp2.py:284-303 | the k-th excerpt collected is the one at the k-th kept position |
| MynahSearch.CollectKeepsOrder | cdk-github-bug-reproducer-cdk/lambda/ecs_task/agents/mynah_mcp2.py:280-305 | the response holds, in input order, exactly the elements that carry an excerpt |
| MynahSearch.CollectFails | cdk-github-bug-reproducer-cdk/lambda/ecs_task/agents/mynah_mcp2.py:284-298 | one element that raises makes the whole decoding raise |
| MynahSearch.ExcerptsKeepOrder | cdk-github-bug-reproducer-cdk/lambda/ecs_task/agents/mynah_mcp2.py:280-305 | the excerpts of a suggestion list are exactly its excerpt-carrying elements, in order |
| MynahSearch.BadSuggestionFails | cdk-github-bug-reproducer-cdk/lambda/ecs_task/agents/mynah_mcp2.py:285-298 | a suggestion element that raises makes decoding raise |
| MynahSearch.FromDictSuggestions | cdk-github-bug-reproducer-cdk/lambda/ecs_task/agents/mynah_mcp2.py:280-305 | a listed answer decodes exactly when its suggestions do, to those excerpts and the answer's query id |
| MynahSearch.FromDictWithoutSuggestions | cdk-github-bug-reproducer-cdk/lambda/ecs_task/agents/mynah_mcp2.py:282-305 | an answer without suggestions decodes to no suggestions with its query id and facets |
| MynahSearch.Dashes | cdk-github-bug-reproducer-cdk/lambda/ecs_task/agents/mynah_mcp2.py:498 | eighty dashes of the separator line are exactly n dash characters |
| MynahSearch.EntryTexts | cdk-github-bug-reproducer-cdk/lambda/ecs_task/agents/mynah_mcp2.py:485-488 | one formatted entry per suggestion, numbered from 1 in order |
| MynahSearch.ConcatInOrder | cdk-github-bug-reproducer-cdk/lambda/ecs_task/agents/mynah_mcp2.py:490 | joining strings puts each one right after those before it |
| MynahSearch.FormatSuggestions | cdk-github-bug-reproducer-cdk/lambda/ecs_task/agents/mynah_mcp2.py:478-490 | "No results found." exactly when there are no suggestions, otherwise the header followed by the numbered entries |
| MynahSearch.EntriesInOrder | cdk-github-bug-reproducer-cdk/lambda/ecs_task/agents/mynah_mcp2.py:485-499 | the k-th entry of the text is the k-th suggestion numbered k+1, after the entries before it |
| MynahSearch.SearchToolRequest | cdk-github-bug-reproducer-cdk/lambda/ecs_task/agents/mynah_mcp2.py:506-515 | the tool asks for the caller's count of results, which its signature defaults to 5, as a text query over the default document types |
| MynahSearch.Retryable | cdk-github-bug-reproducer-cdk/lambda/ecs_task/agents/mynah_mcp2.py:109-131 | a client error is retried exactly when its code is one of the ten listed throttling and capacity codes; a connection, timeout or read-timeout error is always retried; anything else is not |
| MynahSearch.NextWait | cdk-github-bug-reproducer-cdk/lambda/ecs_task/agents/mynah_mcp2.py:139 | the next wait is 1.5 times the last, capped at 128 seconds |
| MynahSearch.ToDict | cdk-github-bug-reproducer-cdk/lambda/ecs_task/agents/mynah_mcp2.py:244-272 | the request dictionary: the attributes and the requester, then each optional part only when it is set |
| MynahSearch.FromDict | cdk-github-bug-reproducer-cdk/lambda/ecs_task/agents/mynah_mcp2.py:276-306 | the response decoded from the answer: the excerpt of each suggestion that carries one, in order, with the query id and facets |
| MynahSearch.Text | cdk-github-bug-reproducer-cdk/lambda/ecs_task/agents/mynah_mcp2.py:288-290 | a field read with a default of the empty text shows as Python's str of the stored value, so null shows as None and true as True |
| MynahSearch.FormatSuggestion | cdk-github-bug-reproducer-cdk/lambda/ecs_task/agents/mynah_mcp2.py:492-500 | one numbered entry: title, link, summary or N/A, a rule of eighty dashes, the suggestion body and another rule |
| AccountManager.FirstAvailable | cdk-github-bug-reproducer-cdk/lambda/account_manager/index.py:225-231 | the account picked is AVAILABLE and none before it in the scan is; nothing is picked only when no scanned account is AVAILABLE |
| AccountManager.ScanLimitOne | cdk-github-bug-reproducer-cdk/lambda/account_manager/index.py:226-229 | a scan limited to one item returns at most one account, and one exactly when the first scanned account is AVAILABLE |
| AccountManager.ScanLimitOneMissesAvailable | cdk-github-bug-reproducer-cdk/lambda/account_manager/index.py:226-237 | a pool whose first scanned account is in use and whose second is AVAILABLE gets "no available accounts" although FirstAvailable finds one |
| AccountManager.DeregisterRequestRejected | cdk-github-bug-reproducer-cdk/lambda/account_manager/index.py:174-185 | the delete request defines a placeholder its condition never uses |
| AccountManager.BeforeTotal | cdk-github-bug-reproducer-cdk/lambda/account_manager/index.py:337 | two different positions are ordered one way or the other by the listing's stable sort |
| AccountManager.BeforeTransitive | cdk-github-bug-reproducer-cdk/lambda/account_manager/index.py:337 | the stable sort's ordering is transitive |
| AccountManager.InsertKeepsPermutation | cdk-github-bug-reproducer-cdk/lambda/account_manager/index.py:337 | inserting the next position into a permutation of those before it keeps a permutation |
| AccountManager.Reorder | cdk-github-bug-reproducer-cdk/lambda/account_manager/index.py:337 | the listed items are the scanned items at the permuted positions |
| AccountManager.SortPositions | cdk-github-bug-reproducer-cdk/lambda/account_manager/index.py:337 | the new order is a permutation of the scanned positions, sorted by status then last update, and ties keep scan order |
| AccountManager.ResetStep | cdk-github-bug-reproducer-cdk/lambda/account_manager/index.py:365-384 | one more scanned account keeps "exactly the stale accounts seen so far are reset", and extends the cleaned list by it when stale |
| AccountManager.ResetDone | cdk-github-bug-reproducer-cdk/lambda/account_manager/index.py:365-384 | after the whole scan the table is the cleaned table |
| AccountManager.ResetStale | cdk-github-bug-reproducer-cdk/lambda/account_manager/index.py:365-384 | the loop yields the table with every stale account reset and the stale ids in scan order |
| AccountManager.StaleIdsExact | cdk-github-bug-reproducer-cdk/lambda/account_manager/index.py:365-368 | an id is reported exactly when it is scanned and has been in use for more than an hour |
| AccountManager.CleanupResetsStale | cdk-github-bug-reproducer-cdk/lambda/account_manager/index.py:365-384 | after cleanup no account is stale, owners are still recorded exactly for accounts in use, and accounts that were not stale are unchanged |
| AccountManager.AccountPool.constructor | cdk-github-bug-reproducer-cdk/lambda/account_manager/index.py:14-20 | a pool over the given table with no events published |
| AccountManager.AccountPool.Register | cdk-github-bug-reproducer-cdk/lambda/account_manager/index.py:83-160 | missing parameters are refused untouched; an existing account only gets the new role and time; a new one is added AVAILABLE and an AccountRegistered event is published; the pool invariant is kept |
| AccountManager.AccountPool.DeregisterAsWritten | cdk-github-bug-reproducer-cdk/lambda/account_manager/index.py:162-212 | a missing id gives 400, and every present id gives 500 because the request is rejected |
| AccountManager.AccountPool.Deregister | cdk-github-bug-reproducer-cdk/lambda/account_manager/index.py:162-212 | with a well-formed request: a missing id gives 400, a known account is deleted with an AccountDeregistered event, an unknown one gives 200 with the "already not registered" error; the invariant is kept |
| AccountManager.AccountPool.Acquire | cdk-github-bug-reproducer-cdk/lambda/account_manager/index.py:214-274 | a missing task id gives 400; no AVAILABLE account gives 404; otherwise the first AVAILABLE account of the scan becomes IN_USE by the task and is returned; no event is published; the invariant is kept |
| AccountManager.AccountPool.Release | cdk-github-bug-reproducer-cdk/lambda/account_manager/index.py:276-328 | missing parameters give 400; only an account IN_USE by the same task becomes AVAILABLE without owner; anything else gives 400 and leaves the table unchanged |
| AccountManager.AccountPool.List | cdk-github-bug-reproducer-cdk/lambda/account_manager/index.py:330-343 | with the numbers converted so that json.dumps can write them: every scanned account is listed once, in the stable sorted order of the listing key, and the table is unchanged |
| AccountManager.AccountPool.CleanupStale | cdk-github-bug-reproducer-cdk/lambda/account_manager/index.py:353-403 | the table becomes the cleaned table and the answer counts and lists the stale ids in scan order |
| AccountManager.AccountPool.Handle | cdk-github-bug-reproducer-cdk/lambda/account_manager/index.py:48-81 | each operation name gives exactly the outcome of that operation on the old table and events (register, deregister, acquire, release, list, cleanup); an unknown operation gives 400 with its name and changes nothing; the pool invariant is kept |
| AccountManager.ScannedItems | cdk-github-bug-reproducer-cdk/lambda/account_manager/index.py:333-336 | the scanned items are the table's records in scan order |
| AccountManager.ListingOrder | cdk-github-bug-reproducer-cdk/lambda/account_manager/index.py:337 | in a listing AVAILABLE accounts come first, each group by ascending last update, ties in scan order |
| AccountManager.CleanupKeepsOwners | cdk-github-bug-reproducer-cdk/lambda/account_manager/index.py:365-384 | cleanup keeps the owner invariant |
| AccountManager.AccountPool.ListAsWritten | cdk-github-bug-reproducer-cdk/lambda/account_manager/index.py:330-351 | as written: an empty table lists as 200 with an empty array, and any non-empty table answers 500 "Internal error: " with the Decimal serialisation error, changing nothing |
| AccountManager.NonEmptyScanNotSerialisable | cdk-github-bug-reproducer-cdk/lambda/account_manager/index.py:133-137 | every scanned record carries its registration and update times as numbers, which the resource layer reads back as Decimal, so no non-empty scan can be written by json.dumps |
| AccountManager.IsStale | cdk-github-bug-reproducer-cdk/lambda/account_manager/index.py:356-367 | an account in use whose last update is more than an hour old |
| AccountManager.Reset | cdk-github-bug-reproducer-cdk/lambda/account_manager/index.py:370-382 | a cleaned account is AVAILABLE, has no task and was last updated now |
| AccountManager.StaleIds | cdk-github-bug-reproducer-cdk/lambda/account_manager/index.py:356-383 | the ids of the stale accounts, in scan order |
| AccountManager.AccountJson | cdk-github-bug-reproducer-cdk/lambda/account_manager/index.py:337-341 | the listed record: id, role, status name, task id when there is one, and both times |
| GithubWebhook.SignedText | cdk-github-bug-reproducer-cdk/lambda/github_webhook/index.py:74 | a missing body is signed as the empty text |
| GithubWebhook.Validate | cdk-github-bug-reproducer-cdk/lambda/github_webhook/index.py:63-92 | no secret accepts; a missing or empty signature header rejects; otherwise accepted exactly when the header equals "sha256=" and the HMAC digest of the body; a body that is not text raises |
| GithubWebhook.Facts | cdk-github-bug-reproducer-cdk/lambda/github_webhook/index.py:128-131 | the issue read from the payload is a dictionary |
| GithubWebhook.AnyRequired | cdk-github-bug-reproducer-cdk/lambda/github_webhook/index.py:140 | true exactly when some required label is among the issue's label names |
| GithubWebhook.LabelFilter | cdk-github-bug-reproducer-cdk/lambda/github_webhook/index.py:136-141 | an issue passes exactly when the setting's first part is empty or one of its labels is required |
| GithubWebhook.UnsetFilterProcessesAll | cdk-github-bug-reproducer-cdk/lambda/github_webhook/index.py:136-138 | an unset label setting lets every issue through |
| GithubWebhook.BadSignatureRejected | cdk-github-bug-reproducer-cdk/lambda/github_webhook/index.py:106-111 | a configured secret and a signature that does not match give 401 and nothing is queued |
| GithubWebhook.UnsignedRejected | cdk-github-bug-reproducer-cdk/lambda/github_webhook/index.py:63-111 | a configured secret and no signature header give 401 and nothing is queued |
| GithubWebhook.NoSecretNoRejection | cdk-github-bug-reproducer-cdk/lambda/github_webhook/index.py:67-106 | without a secret no delivery is rejected as unsigned |
| GithubWebhook.OtherEventIgnored | cdk-github-bug-reproducer-cdk/lambda/github_webhook/index.py:120-125 | an authentic delivery of another event type gives 200 "not a new issue" and nothing is queued |
| GithubWebhook.OtherActionIgnored | cdk-github-bug-reproducer-cdk/lambda/github_webhook/index.py:120-125 | an authentic issues delivery with another action gives the same answer and nothing is queued |
| GithubWebhook.UnlabelledIgnored | cdk-github-bug-reproducer-cdk/lambda/github_webhook/index.py:215-220 | a new issue failing the label filter gives 200 "does not meet label criteria" and nothing is queued |
| GithubWebhook.QueuedOnlyWhenAccepted | cdk-github-bug-reproducer-cdk/lambda/github_webhook/index.py:143-214 | a message is queued only for an authentic new-issue delivery passing the filter whose send the queue accepts, once, after any acknowledgement comment and before the scaling event |
| GithubWebhook.MessageCopiesIssue | cdk-github-bug-reproducer-cdk/lambda/github_webhook/index.py:172-180 | the queued message carries the issue's number, repository, title, body, label names, URL and user login, with null for what is missing |
| GithubWebhook.QueuedWhenAccepted | cdk-github-bug-reproducer-cdk/lambda/github_webhook/index.py:143-214 | an authentic new-issue delivery that passes the label filter and that the queue accepts answers 200 "Issue queued for processing" with the message id, after sending the issue message to the queue and then publishing the message-added event |
| GithubWebhook.Payload | cdk-github-bug-reproducer-cdk/lambda/github_webhook/index.py:117 | a string body is decoded, a missing body is the empty object, any other body is taken as it is |
| GithubWebhook.Message | cdk-github-bug-reproducer-cdk/lambda/github_webhook/index.py:172-180 | the queued message: number, repository, title, body, label names, URL and the user's login |
| GithubWebhook.Queue | cdk-github-bug-reproducer-cdk/lambda/github_webhook/index.py:143-226 | after the label decision: ignore with 200, or comment on the issue when a token is set and its details load, then send the message, publish the event and answer 200 with the message id; a user field that is not a dictionary, or a failed send, answers 500 |
| GithubWebhook.Handle | cdk-github-bug-reproducer-cdk/lambda/github_webhook/index.py:94-226 | the handler as a function of the delivery and the services: signature check, payload, event filter, issue facts, label filter and queueing, with any error answering 500 |
| GithubWebhook.SendFailureAnswers500 | cdk-github-bug-reproducer-cdk/lambda/github_webhook/index.py:182-226 | an accepted issue whose send_message raises answers 500 with the error; nothing is queued and no scaling event is published |
| WebhookRegistrator.FirstWithUrl | cdk-github-bug-reproducer-cdk/lambda/github_webhook_registrator/index.py:167-170 | the hook found matches the URL and none before it does; none is found exactly when no hook matches |
| WebhookRegistrator.FindHook | cdk-github-bug-reproducer-cdk/lambda/github_webhook_registrator/index.py:167-170 | the loop over the listed hooks stops at the first hook for the URL |
| WebhookRegistrator.RemoveAt | cdk-github-bug-reproducer-cdk/lambda/github_webhook_registrator/index.py:230-249 | the list without one hook: one shorter, the hooks before it unchanged and those after it shifted down |
| WebhookRegistrator.FirstWithId | cdk-github-bug-reproducer-cdk/lambda/github_webhook_registrator/index.py:232 | the hook found has the id and none before it does; none is found exactly when no hook has it |
| WebhookRegistrator.WithoutIdRemovesOne | cdk-github-bug-reproducer-cdk/lambda/github_webhook_registrator/index.py:230-249 | with distinct ids, deleting a listed hook's id removes exactly that hook |
| WebhookRegistrator.RemoveAtKeepsDistinct | cdk-github-bug-reproducer-cdk/lambda/github_webhook_registrator/index.py:230-249 | removing a hook keeps the ids distinct |
| WebhookRegistrator.PayloadContents | cdk-github-bug-reproducer-cdk/lambda/github_webhook_registrator/index.py:176-189 | the created hook is named "web", active, subscribed to issue events, sends JSON to the URL, and carries the secret exactly when one is given |
| WebhookRegistrator.GitHub.constructor | cdk-github-bug-reproducer-cdk/lambda/github_webhook_registrator/index.py:209-249 | GitHub's hook lists, the listing, deletion and creation failures and the next id as given, with distinct ids below the next id |
| WebhookRegistrator.GitHub.Listing | cdk-github-bug-reproducer-cdk/lambda/github_webhook_registrator/index.py:209-228 | the listing over the current hooks: a listing failure is raised, an unknown repository answers the empty list |
| WebhookRegistrator.GitHub.DeleteHook | cdk-github-bug-reproducer-cdk/lambda/github_webhook_registrator/index.py:230-249 | a deletion failure is raised and changes nothing; a repository or hook that is not found counts as deleted; otherwise the hook with that id is removed |
| WebhookRegistrator.GitHub.CreateHook | cdk-github-bug-reproducer-cdk/lambda/github_webhook_registrator/index.py:202-207 | a creation failure or an unknown repository is an error that changes nothing; otherwise the new hook takes the next id at the end of the list |
| WebhookRegistrator.FirstWithUrlAfterAppend | cdk-github-bug-reproducer-cdk/lambda/github_webhook_registrator/index.py:161-207 | a hook appended for a URL with no hook is the one the next search finds |
| WebhookRegistrator.RegisterWebhook | cdk-github-bug-reproducer-cdk/lambda/github_webhook_registrator/index.py:161-207 | the hooks become those of registering the URL and the answer is the registration's id, the next id grows by one exactly when a hook is created, the call fails exactly when the listing fails or nothing matches and the creation fails; a listing error is raised unchanged, an existing hook is reused, otherwise the created id is returned; after a success the id returned is the first listed hook for the URL |
| WebhookRegistrator.DeleteMatching | cdk-github-bug-reproducer-cdk/lambda/github_webhook_registrator/index.py:88-149 | the loop reports the first matching hook's id, even when its deletion raises, and leaves the hooks of deleting it; a listing error reports nothing and changes nothing |
| WebhookRegistrator.SplitRepo | cdk-github-bug-reproducer-cdk/lambda/github_webhook_registrator/index.py:65 | a repository splits into exactly two slash-free parts around its one slash |
| WebhookRegistrator.SplitRepoOfPair | cdk-github-bug-reproducer-cdk/lambda/github_webhook_registrator/index.py:65 | two slash-free names joined by a slash split back into them |
| WebhookRegistrator.SplitRepoRejects | cdk-github-bug-reproducer-cdk/lambda/github_webhook_registrator/index.py:64-70 | a text with no slash or with two is rejected |
| WebhookRegistrator.Precheck | cdk-github-bug-reproducer-cdk/lambda/github_webhook_registrator/index.py:42-70 | passes exactly when the four properties are given, both secrets were read and the repository splits; a missing property gives the missing-properties message |
| WebhookRegistrator.CleanupPrevious | cdk-github-bug-reproducer-cdk/lambda/github_webhook_registrator/index.py:88-103 | the old hook id and the hooks are those of the clean-up: nothing without a previous repository and URL or with a malformed one, otherwise the delete loop over the old repository |
| WebhookRegistrator.UpdateChanged | cdk-github-bug-reproducer-cdk/lambda/github_webhook_registrator/index.py:85-114 | the hooks become the clean-up of the old repository followed by the registration in the new one, other repositories untouched; FAILED exactly when that registration fails, with its error and the physical id; SUCCESS reports the registration's id as webhook and physical id, and the old hook id |
| WebhookRegistrator.UpdateSame | cdk-github-bug-reproducer-cdk/lambda/github_webhook_registrator/index.py:115-135 | no hook is touched and the id reported, as webhook and physical id, is the hook listed for the URL, or the physical id |
| WebhookRegistrator.DeleteResource | cdk-github-bug-reproducer-cdk/lambda/github_webhook_registrator/index.py:137-155 | the hooks are those of the delete loop in the repository; the answer is always SUCCESS with the physical id, reporting the deleted hook id or else the physical id |
| WebhookRegistrator.Handle | cdk-github-bug-reproducer-cdk/lambda/github_webhook_registrator/index.py:15-159 | a failed precheck answers FAILED and touches no hook; another request type gets no response; Create leaves the hooks of registering the URL and answers the registration's id or its error; an unchanged Update touches no hook and reports the listed hook or the physical id; a changed Update leaves the clean-up then the registration and answers the new id and the old id, or the error; Delete leaves the delete loop's hooks and answers SUCCESS with the physical id, reporting the deleted hook's id or the physical id |
| WebhookRegistrator.ListingIn | cdk-github-bug-reproducer-cdk/lambda/github_webhook_registrator/index.py:209-228 | get_webhooks: a listing failure is raised, an unknown repository answers the empty list, a known one its hooks |
| WebhookRegistrator.DeletedIn | cdk-github-bug-reproducer-cdk/lambda/github_webhook_registrator/index.py:137-149 | the delete loop leaves every other repository as it was, and changes nothing when no hook matches or the deletion fails |
| WebhookRegistrator.DeletedInRemovesReported | cdk-github-bug-reproducer-cdk/lambda/github_webhook_registrator/index.py:142-146 | with distinct ids, a reported and deleted hook is the one hook with that id to leave the repository, which shrinks by one and keeps every other hook |
| WebhookRegistrator.RegisteredIn | cdk-github-bug-reproducer-cdk/lambda/github_webhook_registrator/index.py:161-207 | registration leaves every other repository as it was, and changes nothing unless it creates a hook |
| WebhookRegistrator.RegisterTwiceCreatesOnce | cdk-github-bug-reproducer-cdk/lambda/github_webhook_registrator/index.py:164-169 | registering the same URL again in the same repository creates nothing more, whatever id would come next |
| WebhookRegistrator.PreviousKey | cdk-github-bug-reproducer-cdk/lambda/github_webhook_registrator/index.py:89-91 | a previous repository is cleaned up only when both previous properties are given and the repository splits |
| WebhookRegistrator.CleanedIn | cdk-github-bug-reproducer-cdk/lambda/github_webhook_registrator/index.py:88-103 | the clean-up leaves every repository other than the previous one as it was |
| WebhookRegistrator.ListedId | cdk-github-bug-reproducer-cdk/lambda/github_webhook_registrator/index.py:120-147 | the id of the first hook the listing finds for the URL, and none when the listing fails or no hook matches |
| WebhookRegistrator.RegisteredId | cdk-github-bug-reproducer-cdk/lambda/github_webhook_registrator/index.py:161-207 | what registration answers: the listing's error, the listed hook's id, the new hook's id when one is created, or the creation error; it fails exactly when registration fails |
| WebhookRegistrator.RegisteredIdListed | cdk-github-bug-reproducer-cdk/lambda/github_webhook_registrator/index.py:161-207 | the id a successful registration answers is the one the next listing finds for the URL |
| IssueMigrator.ValidRepoFormatSplits | utilities/issue_migrator.py:38-41 | an accepted repository splits into a non-empty owner and a non-empty name around one slash |
| IssueMigrator.ValidRepoFormatOfPair | utilities/issue_migrator.py:38-41 | every non-empty owner and name without slashes form an accepted repository |
| IssueMigrator.ParseAll | utilities/issue_migrator.py:154 | the list parses exactly when every part does, and then holds each part's number in order |
| IssueMigrator.ShowNumbers | utilities/issue_migrator.py:154 | one printed number per issue number, in order |
| IssueMigrator.NumberOfNatToString | utilities/issue_migrator.py:154 | a printed number has no comma and reads back as itself |
| IssueMigrator.ParseAllExact | utilities/issue_migrator.py:154 | parts that each parse to the matching number parse to that list |
| IssueMigrator.IssueNumbersOfList | utilities/issue_migrator.py:154 | issue numbers printed with commas between them read back as the same list |
| IssueMigrator.Login | utilities/issue_migrator.py:135 | a record without a user shows the default login |
| IssueMigrator.ReadComment | utilities/issue_migrator.py:132-136 | a comment dictionary without a user is always readable |
| IssueMigrator.CommentDefaults | utilities/issue_migrator.py:134-136 | an empty comment shows "Unknown user", "Unknown date" and an empty body |
| IssueMigrator.Texts | utilities/issue_migrator.py:196-197 | the formatted list succeeds exactly when every comment formats, then holds their texts in order |
| IssueMigrator.ReadIssue | utilities/issue_migrator.py:177-180 | an issue without a user is attributed to "Unknown" |
| IssueMigrator.BodyWithoutComments | utilities/issue_migrator.py:182-194 | without a comments section the body is the attribution header and, when asked for, the reference line |
| IssueMigrator.TextsInOrder | utilities/issue_migrator.py:196-197 | in the joined texts an earlier comment comes before a later one |
| IssueMigrator.CommentsInOrder | utilities/issue_migrator.py:192-197 | in the body earlier comments come before later ones, all after the header and the comments heading |
| IssueMigrator.WithBug | utilities/issue_migrator.py:200-202 | the labels gain "bug" once when it is missing and are otherwise unchanged, in order |
| IssueMigrator.WithBugIdempotent | utilities/issue_migrator.py:201-202 | adding the label twice is adding it once |
| IssueMigrator.Migrate | utilities/issue_migrator.py:164-216 | a dry run creates nothing; a created issue goes to the destination and carries the "bug" label |
| IssueMigrator.TitleDefault | utilities/issue_migrator.py:174 | an issue without a title is filed as "Issue #n from" the source repository |
| IssueMigrator.CrashStops | utilities/issue_migrator.py:164-216 | once the run has stopped with an exception, later numbers change nothing |
| IssueMigrator.FoldCreated | utilities/issue_migrator.py:164-216 | the run creates at most one issue per number, each one the step produced for some number |
| IssueMigrator.FoldCreatesNothing | utilities/issue_migrator.py:164-216 | a run whose steps create nothing creates nothing |
| IssueMigrator.DryRunCreatesNothing | utilities/issue_migrator.py:161-206 | a dry run creates no issue |
| IssueMigrator.CreatedIssues | utilities/issue_migrator.py:164-216 | every issue created goes to the destination with the "bug" label, at most one per number |
| IssueMigrator.AppendTexts | utilities/issue_migrator.py:196-197 | the comment loop appends every formatted comment to the body, or stops with the first error |
| IssueMigrator.TextsFirstError | utilities/issue_migrator.py:196-197 | the first comment that cannot be formatted is the error of the whole list |
| IssueMigrator.ComposeBody | utilities/issue_migrator.py:182-197 | the body built step by step is the issue body |
| IssueMigrator.MigrateOne | utilities/issue_migrator.py:165-216 | one issue handled by the loop body is the migrate outcome for that number |
| IssueMigrator.MigrateIssues | utilities/issue_migrator.py:147-216 | a malformed repository exits 1 creating nothing; unparsable numbers exit 1 too; otherwise the run over the numbers |
| IssueMigrator.MigrateAll | utilities/issue_migrator.py:164-216 | the loop over the numbers yields the migration run |
| IssueMigrator.IssueBody | utilities/issue_migrator.py:182-197 | the new body: the header, the reference line when asked for, and the comments heading with every formatted comment when comments are asked for and there are some |
| IssueMigrator.Fold | utilities/issue_migrator.py:164-216 | the issues processed one after another; an exception stops the run and keeps what was created before it |
| IssueMigrator.Migration | utilities/issue_migrator.py:147-216 | the whole run: migrate each issue number in order |
| Processor.StepNameInjective | cdk-github-bug-reproducer-cdk/lambda/ecs_task/issue_processor/processor.py:30-36 | different step numbers name different step directories |
| Processor.Append | cdk-github-bug-reproducer-cdk/lambda/ecs_task/issue_processor/processor.py:78-79 | appending to a key's list extends exactly that list, keeps the other lists, and records a new key after the known ones |
| Processor.Touch | cdk-github-bug-reproducer-cdk/lambda/ecs_task/issue_processor/processor.py:103-104 | indexing a missing key inserts it with an empty list and changes no list |
| Processor.AppendAll | cdk-github-bug-reproducer-cdk/lambda/ecs_task/issue_processor/processor.py:74-79 | appending a run of links keeps the mapping well formed |
| Processor.ItemsFor | cdk-github-bug-reproducer-cdk/lambda/ecs_task/issue_processor/processor.py:74-79 | no more items linked to a key than links |
| Processor.AppendAllContents | cdk-github-bug-reproducer-cdk/lambda/ecs_task/issue_processor/processor.py:74-79 | after the appends each key's list is its old list followed by the items linked to it, in order |
| Processor.AppendAllConcat | cdk-github-bug-reproducer-cdk/lambda/ecs_task/issue_processor/processor.py:63-79 | appending two runs of links is appending their concatenation |
| Processor.Insert | cdk-github-bug-reproducer-cdk/lambda/ecs_task/issue_processor/processor.py:84 | inserting keeps every element and adds the new one |
| Processor.InsertLast | cdk-github-bug-reproducer-cdk/lambda/ecs_task/issue_processor/processor.py:84 | an element scoring at least the last one goes at the end |
| Processor.InsertSorted | cdk-github-bug-reproducer-cdk/lambda/ecs_task/issue_processor/processor.py:84 | inserting into a sorted list keeps it sorted |
| Processor.SortByScore | cdk-github-bug-reproducer-cdk/lambda/ecs_task/issue_processor/processor.py:84 | the sort is a permutation of the keys, sorted by score |
| Processor.SortZeroScores | cdk-github-bug-reproducer-cdk/lambda/ecs_task/issue_processor/processor.py:84 | when every score is zero the stable sort keeps the original order |
| Processor.ResourceNamePrefix | cdk-github-bug-reproducer-cdk/lambda/ecs_task/issue_processor/processor.py:51 | a resource name starts with the upper-case "AWS::VPCLATTICE::" prefix |
| Processor.ResourceNames | cdk-github-bug-reproducer-cdk/lambda/ecs_task/issue_processor/processor.py:47-52 | no more resource names than files |
| Processor.ResourceNamesMembers | cdk-github-bug-reproducer-cdk/lambda/ecs_task/issue_processor/processor.py:47-52 | each ".json" file gives one resource name, and nothing else does |
| Processor.Unprocessed | cdk-github-bug-reproducer-cdk/lambda/ecs_task/issue_processor/processor.py:109-114 | no more copies than files |
| Processor.UnprocessedMembers | cdk-github-bug-reproducer-cdk/lambda/ecs_task/issue_processor/processor.py:109-114 | exactly the ".json" files missing from the next step's directory are copied there |
| Processor.ParentLinks | cdk-github-bug-reproducer-cdk/lambda/ecs_task/issue_processor/processor.py:74-79 | every link is for this helper and to a parent file that exists |
| Processor.ParentLinksMembers | cdk-github-bug-reproducer-cdk/lambda/ecs_task/issue_processor/processor.py:74-79 | a helper is linked to exactly the parents whose files exist |
| Processor.ParentLinksNext | cdk-github-bug-reproducer-cdk/lambda/ecs_task/issue_processor/processor.py:74-79 | one more parent adds its link exactly when its file exists |
| Processor.AppendAllSnoc | cdk-github-bug-reproducer-cdk/lambda/ecs_task/issue_processor/processor.py:78-79 | one more link is one more append |
| Processor.LinkedStep | cdk-github-bug-reproducer-cdk/lambda/ecs_task/issue_processor/processor.py:74-79 | one more parent keeps the inner loop's mapping equal to the appends of the links so far |
| Processor.LinkAll | cdk-github-bug-reproducer-cdk/lambda/ecs_task/issue_processor/processor.py:74-79 | the inner loop appends the helper under every existing parent file |
| Processor.Gather | cdk-github-bug-reproducer-cdk/lambda/ecs_task/issue_processor/processor.py:63-79 | every helper gathered is a listed file whose flag reads "true", and every link is to a gathered helper and an existing parent file |
| Processor.ScanFile | cdk-github-bug-reproducer-cdk/lambda/ecs_task/issue_processor/processor.py:64-79 | one file scanned keeps the helper list and mapping equal to what the gathering gives after it |
| Processor.GatherAll | cdk-github-bug-reproducer-cdk/lambda/ecs_task/issue_processor/processor.py:63-79 | the file loop yields the gathered helpers, links and error |
| Processor.CopyIfMissing | cdk-github-bug-reproducer-cdk/lambda/ecs_task/issue_processor/processor.py:97-98 | a copy into the next step's directory exactly when the file is missing there |
| Processor.Memory.constructor | cdk-github-bug-reproducer-cdk/lambda/ecs_task/issue_processor/processor.py:18-24 | step 0, no helpers, no ordered resources and an empty mapping |
| Processor.Memory.MoveToNextStep | cdk-github-bug-reproducer-cdk/lambda/ecs_task/issue_processor/processor.py:27-41 | one step further, both step entries written first, and the next directory made only when missing; nothing else changes |
| Processor.Memory.ListOfResources | cdk-github-bug-reproducer-cdk/lambda/ecs_task/issue_processor/processor.py:43-56 | the memory entry written holds the resource names of the ".json" files |
| Processor.Memory.GetHelpersData | cdk-github-bug-reproducer-cdk/lambda/ecs_task/issue_processor/processor.py:58-85 | the helper list is rebuilt, every link is appended, and the main resources keep their first-use order since every score is zero; a failed read keeps the old order |
| Processor.Memory.CurrentMainResourceHelpers | cdk-github-bug-reproducer-cdk/lambda/ecs_task/issue_processor/processor.py:87-104 | the parent file comes from the overrides, else from memory; it is copied when missing; its helper list is returned, inserting an empty one for an unknown file |
| Processor.Memory.MoveUnprocessedResources | cdk-github-bug-reproducer-cdk/lambda/ecs_task/issue_processor/processor.py:106-115 | the copies are exactly the unprocessed files |
| Processor.GatherStops | cdk-github-bug-reproducer-cdk/lambda/ecs_task/issue_processor/processor.py:63-79 | a memory entry that reads as nothing stops the scan for good |
| Processor.CommentBlocks | cdk-github-bug-reproducer-cdk/lambda/ecs_task/issue_processor/processor.py:140-151 | one block per comment, in order |
| Processor.PromptTags | cdk-github-bug-reproducer-cdk/lambda/ecs_task/issue_processor/processor.py:152-163 | the prompt is wrapped in the github_issue tags |
| Processor.PromptHoldsComment | cdk-github-bug-reproducer-cdk/lambda/ecs_task/issue_processor/processor.py:139-163 | every comment appears after the title and body and before the closing tag |
| Processor.PromptKeepsCommentOrder | cdk-github-bug-reproducer-cdk/lambda/ecs_task/issue_processor/processor.py:140-151 | comments appear in their order |
| Processor.NotPositive | cdk-github-bug-reproducer-cdk/lambda/ecs_task/issue_processor/processor.py:187 | a number compares with zero, a boolean as 0 or 1, and anything else raises |
| Processor.ReadComment | cdk-github-bug-reproducer-cdk/lambda/ecs_task/issue_processor/processor.py:196 | a comment reads exactly when its body, user and login are there, and carries them |
| Processor.ReadCommentsMeaning | cdk-github-bug-reproducer-cdk/lambda/ecs_task/issue_processor/processor.py:195-196 | all comments read exactly when each does, each as itself |
| Processor.IssueComments | cdk-github-bug-reproducer-cdk/lambda/ecs_task/issue_processor/processor.py:186-197 | a missing count raises; comments found come from a 200 reply to the comments URL |
| Processor.NoCountNoFetch | cdk-github-bug-reproducer-cdk/lambda/ecs_task/issue_processor/processor.py:187-188 | a count that is not positive gives no comments whatever the network answers |
| Processor.CommentsOfList | cdk-github-bug-reproducer-cdk/lambda/ecs_task/issue_processor/processor.py:191-197 | a 200 reply holding a list gives its comments one for one |
| Processor.ReadCommentsStops | cdk-github-bug-reproducer-cdk/lambda/ecs_task/issue_processor/processor.py:195-196 | after a comment that cannot be read later ones do not matter |
| Processor.ReadAllComments | cdk-github-bug-reproducer-cdk/lambda/ecs_task/issue_processor/processor.py:195-196 | the comment loop yields the comments read in order |
| Processor.RetrieveIssueComments | cdk-github-bug-reproducer-cdk/lambda/ecs_task/issue_processor/processor.py:186-197 | the step-by-step retrieval is the comments function |
| Processor.IssueTypeOf | cdk-github-bug-reproducer-cdk/lambda/ecs_task/issue_processor/processor.py:199-205 | the type is found exactly when the labels list can be read for its names |
| Processor.IssueTypeOfLabels | cdk-github-bug-reproducer-cdk/lambda/ecs_task/issue_processor/processor.py:199-205 | both labels give both; only "bug" gives a bug; no "bug" gives a feature request |
| Processor.RetrieveGithubIssue | cdk-github-bug-reproducer-cdk/lambda/ecs_task/issue_processor/processor.py:169-184 | a status other than 200 raises "Failed to fetch issue"; otherwise the issue is read field by field in the source's order, holding those fields |
| Processor.Process | cdk-github-bug-reproducer-cdk/lambda/ecs_task/issue_processor/processor.py:208-303 | only a bug starts the reproducing process, with its id, its three inputs and the acquired role as its only profile; any other type exits with 0; a retrieval error is raised |
| Worker.AcquireAccount | cdk-github-bug-reproducer-cdk/lambda/ecs_task/index.py:100-134 | success exactly when the ARN is configured and the answer is a 200 with a body, then carrying the body's account and role; every failure answers nothing, nothing, false |
| Worker.Pow2 | cdk-github-bug-reproducer-cdk/lambda/ecs_task/index.py:91 | a power of two is at least 1 |
| Worker.Pow2Monotone | cdk-github-bug-reproducer-cdk/lambda/ecs_task/index.py:91 | powers of two grow with the exponent |
| Worker.RetryDelayBounds | cdk-github-bug-reproducer-cdk/lambda/ecs_task/index.py:91 | the delay before jitter starts at the 10-second base, never exceeds the 60-second maximum and never shrinks |
| Worker.RetryDelaySaturates | cdk-github-bug-reproducer-cdk/lambda/ecs_task/index.py:91 | from the ninth failure on the delay is at its maximum |
| Worker.Retry | cdk-github-bug-reproducer-cdk/lambda/ecs_task/index.py:78-98 | the attempt count stays within 60; a success carries the task id and an accepted answer's account and role; giving up answers nothing after 60 attempts |
| Worker.RetryStopsAtFirstAccepted | cdk-github-bug-reproducer-cdk/lambda/ecs_task/index.py:81-86 | the loop succeeds exactly when some remaining attempt is accepted, and stops at the first such attempt with its account and role |
| Worker.DeleteRun | cdk-github-bug-reproducer-cdk/lambda/ecs_task/index.py:310-352 | no call without a receipt handle and a queue URL; success exactly when both are given and the delete works |
| Worker.IssueWorker.constructor | cdk-github-bug-reproducer-cdk/lambda/ecs_task/index.py:16-53 | the configuration given and an empty log |
| Worker.IssueWorker.AcquireWithRetries | cdk-github-bug-reproducer-cdk/lambda/ecs_task/index.py:74-98 | the outcome is the retry loop's, with one pre-jitter delay per failed attempt, the i-th being the delay after i+1 failures |
| Worker.IssueWorker.ReleaseAccount | cdk-github-bug-reproducer-cdk/lambda/ecs_task/index.py:136-166 | the release call is made only with an account, a task and a function ARN, and succeeds exactly on a 200 answer |
| Worker.IssueWorker.DeleteMessage | cdk-github-bug-reproducer-cdk/lambda/ecs_task/index.py:310-352 | the log gains the delete run's calls and the answer is its outcome |
| Worker.IssueWorker.Work | cdk-github-bug-reproducer-cdk/lambda/ecs_task/index.py:391-427 | the log gains the processing, upload, comment and delete calls of the work run, and the ending is the work run's, a SystemExit from the processor included |
| Worker.IssueWorker.ProcessIssue | cdk-github-bug-reproducer-cdk/lambda/ecs_task/index.py:354-437 | the log gains every call of the issue run, the queue-tag listing first, and the ending is the issue run's: a returned boolean or an escaping SystemExit |
| Worker.IssueWorker.AcquireLogged | cdk-github-bug-reproducer-cdk/lambda/ecs_task/index.py:383 | the acquisition is the retry loop's and the log records how many times the account manager was invoked |
| Worker.IssueWorker.AcquireAndProcess | cdk-github-bug-reproducer-cdk/lambda/ecs_task/index.py:378-433 | past the message check, the log gains the calls of the issue run that follow the queue-tag listing, and the ending is the issue run's |
| Worker.IssueWorker.WorkThenRelease | cdk-github-bug-reproducer-cdk/lambda/ecs_task/index.py:391-433 | the work and the release in its finally block, as the acquired run says, with the work's ending kept |
| Worker.IssueRunCases | cdk-github-bug-reproducer-cdk/lambda/ecs_task/index.py:374-437 | a valid message's run is the queue-tag listing and the acquire attempts, then either a failure or the acquired run |
| Worker.InvalidMessageAcquiresNothing | cdk-github-bug-reproducer-cdk/lambda/ecs_task/index.py:365-376 | a message without a repository or issue number answers false after the queue-tag listing, before any account is acquired |
| Worker.NoAccountNoWork | cdk-github-bug-reproducer-cdk/lambda/ecs_task/index.py:383-387 | when no attempt is accepted the run answers false after the queue-tag listing and the acquire attempts, at most 60, and makes no other call |
| Worker.ReleaseOnEveryPath | cdk-github-bug-reproducer-cdk/lambda/ecs_task/index.py:429-433 | once an account is acquired, releasing it is the last call on every path, a SystemExit from the processor included |
| Worker.DeleteOnlyAfterUploadAndComment | cdk-github-bug-reproducer-cdk/lambda/ecs_task/index.py:407-427 | the queue message is deleted only after the processor ran, the upload gave a URL and the comment was posted |
| Worker.SuccessMeansDeleted | cdk-github-bug-reproducer-cdk/lambda/ecs_task/index.py:354-437 | a run answers true exactly when the processor completed and the message was deleted after the upload and the comment |
| Worker.RetryDelay | cdk-github-bug-reproducer-cdk/lambda/ecs_task/index.py:91 | the delay before jitter is 10 seconds doubled every three failed attempts, capped at 60 |
| Worker.WorkRun | cdk-github-bug-reproducer-cdk/lambda/ecs_task/index.py:391-427 | run the processor, upload the result, comment on the issue, then delete the message; a raising processor, a missing URL, a failed comment or delete answers false; a processor calling sys.exit ends the work with that SystemExit, uploading, commenting and deleting nothing |
| Worker.AcquiredRun | cdk-github-bug-reproducer-cdk/lambda/ecs_task/index.py:391-433 | the work with an acquired role, always followed by the release call when the account, the task and the manager are known, whether the work returned or exited |
| Worker.IssueRun | cdk-github-bug-reproducer-cdk/lambda/ecs_task/index.py:354-437 | process_issue: the queue tags are listed first; an invalid message then answers false; otherwise the account is acquired with retries; without an account nothing else happens; with one, the acquired run, whose SystemExit passes both `except Exception` handlers |
| Worker.ExitedProcessorKeepsMessage | cdk-github-bug-reproducer-cdk/lambda/ecs_task/index.py:391-437 | a processor that exits (a non-bug issue) ends process_issue with that SystemExit right after the release: nothing is uploaded, no comment is posted, the queue message is not deleted, and the task exits with the processor's code |
| Worker.ExitOnlyFromProcessor | cdk-github-bug-reproducer-cdk/lambda/ecs_task/index.py:354-437 | process_issue ends other than by returning only when the processor exits, and then with the processor's code |
| Worker.ExitStatus | cdk-github-bug-reproducer-cdk/lambda/ecs_task/index.py:464-466 | main after a received message: 0 exactly when process_issue returned true, 1 when it returned false, and the code of an escaping SystemExit |
| JsonValue.Get | cdk-github-bug-reproducer-cdk/lambda/github_webhook/index.py:128-130 | only a dictionary has a get, which finds the key's value or nothing |
| JsonValue.GetOr | cdk-github-bug-reproducer-cdk/lambda/github_webhook/index.py:128 | only a dictionary has a get with a default |
| JsonValue.LabelNames | cdk-github-bug-reproducer-cdk/lambda/github_webhook/index.py:131 | the label names succeed exactly when every label is a dictionary, one name per label in order |
| JsonValue.Labels | cdk-github-bug-reproducer-cdk/lambda/github_webhook/index.py:131 | a list of labels gives its names; anything else that passes is an empty string or an empty dictionary |
| JsonValue.Index | cdk-github-bug-reproducer-cdk/lambda/ecs_task/issue_processor/processor.py:177-181 | subscripting answers exactly for a dictionary holding the key, with its value |
| JsonValue.Iterate | cdk-github-bug-reproducer-cdk/lambda/ecs_task/issue_processor/processor.py:195 | a for loop visits a list's items, a string's characters or a dictionary's keys, and raises on anything else |
| JsonValue.SubscriptNames | cdk-github-bug-reproducer-cdk/lambda/ecs_task/issue_processor/processor.py:200 | the names succeed exactly when every label has one, in order |
| JsonValue.IterNames | cdk-github-bug-reproducer-cdk/lambda/ecs_task/issue_processor/processor.py:200 | a list gives its items' names; anything else that passes is an empty string or an empty dictionary |
| Strings.Split | cdk-github-bug-reproducer-cdk/lambda/ecs_scaling_updater/index.py:53 | splitting gives at least one part and no part holds the separator |
| Strings.SplitJoin | cdk-github-bug-reproducer-cdk/lambda/ecs_scaling_updater/index.py:53 | joining the parts with the separator gives the text back |
| Strings.JoinSplit | cdk-github-bug-reproducer-cdk/lambda/github_webhook/index.py:20 | parts without the separator, joined and split, come back |
| Strings.ParseInt | cdk-github-bug-reproducer-cdk/lambda/ecs_scaling_updater/index.py:45 | a number is read only from text holding a digit |
| Strings.ParseIntOfNatToString | cdk-github-bug-reproducer-cdk/lambda/ecs_scaling_updater/index.py:45 | a printed number reads back as itself |
| Strings.Lower | cdk-github-bug-reproducer-cdk/lambda/ecs_task/issue_processor/processor.py:68 | lower-casing maps every character, keeping the length |
| Strings.Upper | cdk-github-bug-reproducer-cdk/lambda/ecs_task/issue_processor/processor.py:51 | upper-casing maps every character, keeping the length |
| Strings.Strip | utilities/issue_migrator.py:154 | the stripped text neither starts nor ends with whitespace |
| JsonValue.Dumps | cdk-github-bug-reproducer-cdk/lambda/github_webhook/index.py:182-185 | json.dumps with its default separators, as the queued message is written |
| JsonValue.PyStr | lambda/issue_processor.py:49 | str() of a decoded value as an f-string shows it: None, True or False, the digits of a number, a string itself |
| Strings.Join | cdk-github-bug-reproducer-cdk/lambda/ecs_task/agents/mynah_mcp2.py:490 | Python's sep.join: the parts with the separator between each two |
| Strings.ReplaceAll | cdk-github-bug-reproducer-cdk/lambda/ecs_task/issue_processor/process_definitions.py:74 | Python's str.replace: every leftmost non-overlapping occurrence of the pattern is replaced |

## Left out

- Concurrency. `asyncio.gather` over a parallel loop's iterations is modelled as running them in list order, and the locks around the memory cache are left out. The model does not capture interleavings.
- `Process.run` when no MCP server advertises `add_or_update_memory_entry`. The source keeps the last server's `call_tool` and sends the memory calls to it. The model stops with an error before the first step.
- `processor.py` and `mynah_mcp2.py` call a `logger`/`get_logger` they never define. The model follows the evident intent (logging) and ignores the `NameError`.
- Prompt wording. The fixed instruction texts of the step prompts are the `Wording` parameter, and `SourceWording` holds the source's texts. The closing instructions of the process summary are abridged (`step_engine.dfy`, `SummaryClosing`).
- String built-ins cover ASCII only: `strip`, `upper`, `lower` and `isspace`. `int()` accepts optional whitespace, a sign and decimal digits, but not underscores or non-ASCII digits.
- JSON. `json.dumps` and Python's `str()` of dictionaries and lists are modelled on a JSON datatype without floats, and escaping is simplified.
- Mynah search: the HTTP signing (SigV4), credentials, the response's excerpt context, metadata and timestamps. The waits between retries are reals; jitter is a parameter, and random and sleep are left out.
- Bedrock endpoint. It is modelled as a finite stream of answers; when the stream ends, the call fails.
- Webhook receiver: the HMAC-SHA256 digest is an opaque function. A failure to publish to the event bus is swallowed, as in the source, and is not distinguished further.
- Account pool. DynamoDB failures other than those the handlers test explicitly are not modelled (the generic 500 paths). The order of a scan is a parameter.
- Webhook registrator. The PUT of the CloudFormation response is assumed to succeed. GitHub's hook lists are assumed to have the shape the handler reads.
- Context memory file system. Whether a key can be written is the `accepts` oracle; the model does not tell apart why a key is refused (a missing subdirectory, or an absolute path that escapes the memory directory). The text of the raised error is approximate.
- ContextMemory.MemoryServer.Read: the empty key names the memory directory itself, which exists, so `open` raises; the model answers the not-found text, and Delete likewise does not model `os.remove` raising on it.
- Webhook registrator. GitHub's failures are fixed per repository for each kind of call (listing, deletion, creation); a failure that depends on the hook or the moment of the call is not modelled.
- Worker: `main`'s environment checks and `receive_message` (long polling and decoding the message body) are outside the model; `ExitStatus` covers only the status `main` returns once a message was received. The issue processor's coroutine is an oracle (`ProcessorEnding`); `Processor.Process` says when it exits.
- Worker and issue processor. The `cdk` subprocess, S3, zip archives and the file system are outside the model. So are the processor's Process steps beyond launching and resuming them. Override values are kept as strings.
- IssueProcessorLambda: never fails while building the app, uploading it or commenting on the issue.
- Setup code: MCP client and session setup (`_create_agent`, `_initialize_mcp_servers`), the STS refresh in `get_refreshable_session_from_role`, `setup_logging` and the JSON encoder of the Mynah server.
- Error messages follow Python's texts only approximately, for example the exception strings placed into "Internal error: …" bodies.
- `trusted_access_activator`, `cdk_generator`, `s3_uploader`, `github_notifier` and `mcp_client` are not part of this model.
- MynahSearch.AwsDocsAttributes: its contract states which sources are selected, not the order blog-before-faq that the source writes them in.

## Findings

| source | as written | input that shows it | evidently intended | confidence | as-written member | corrected member |
|---|---|---|---|---|---|---|
| cdk-github-bug-reproducer-cdk/lambda/account_manager/index.py:226-237 | `acquire` scans with `Limit=1` and a filter on `status = AVAILABLE`. DynamoDB applies the limit before the filter, so only the first item read is considered. | Two accounts: the first one scanned is IN_USE and the second is AVAILABLE. The scan returns no item, and `acquire` answers 404 "No available accounts". | Hand out an AVAILABLE account whenever one exists. | not executed | AccountManager.ScanLimitOneMissesAvailable | AccountManager.AccountPool.Acquire |
| cdk-github-bug-reproducer-cdk/lambda/account_manager/index.py:174-185 | `deregister` passes `ExpressionAttributeNames` and `ExpressionAttributeValues` that its `ConditionExpression` (`attribute_exists(account_id)`) never uses. DynamoDB rejects such a request. | Any registered `account_id`. The delete raises a ValidationException, and the handler answers 500 without deleting. | Delete the registered account and answer 200. | not executed | AccountManager.AccountPool.DeregisterAsWritten | AccountManager.AccountPool.Deregister |
| cdk-github-bug-reproducer-cdk/lambda/account_manager/index.py:330-351 | `list_accounts` passes the scanned items to `json.dumps`. The boto3 resource layer reads every number back as `Decimal` (`registered_at` and `last_updated` are written as integers at lines 135-136), and `json.dumps` rejects `Decimal`. | Any table holding one registered account. The listing raises and the handler answers 500 "Internal error: Object of type Decimal is not JSON serializable". | List every account, sorted, with 200. | not executed | AccountManager.AccountPool.ListAsWritten | AccountManager.AccountPool.List |
