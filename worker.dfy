/**
 * The ECS worker that takes one issue off the queue: it acquires an
 * account from the pool (retrying with a growing delay), runs the issue
 * processor with the account's role, uploads the result, comments on the
 * issue, deletes the queue message, and always releases the account.
 *
 * Every AWS and GitHub call is an oracle: its answer is an input, and the
 * worker's log of effects records which calls were made, in order.
 */
module Worker {
  import opened Wrappers
  import opened Strings
  import opened JsonValue

  const MaxAcquireRetries: nat := 60
  const RetryDelayBase: nat := 10
  const RetryDelayMax: nat := 60

  /** A value that is present and not empty (Python truthiness of a string). */
  predicate Present(v: Option<string>) {
    v.Some? && v.value != ""
  }

  // ---------------------------------------------------------------- acquire_account

  /** The parsed `body` of a 200 answer from the account manager. */
  datatype AcquireBody = AcquireBody(accountId: Option<string>, roleArn: Option<string>)

  /**
   * What invoking the account manager yields: the call raised, or a payload
   * with a status code and (when it parses) a body.
   */
  datatype AcquirePayload =
    | InvokeRaised
    | Payload(statusCode: Option<int>, body: Option<AcquireBody>)

  datatype AcquireResult = AcquireResult(accountId: Option<string>, roleArn: Option<string>, success: bool)

  /**
   * `acquire_account`: without a configured function ARN, on 404, on any
   * other non-200 status and on any exception the answer is
   * `(None, None, False)`; on 200 it is the body's two fields and `True`.
   */
  function AcquireAccount(arnConfigured: bool, p: AcquirePayload): (r: AcquireResult)
    ensures r.success <==> arnConfigured && p.Payload? && p.statusCode == Some(200) && p.body.Some?
    ensures r.success ==> r.accountId == p.body.value.accountId && r.roleArn == p.body.value.roleArn
    ensures !r.success ==> r == AcquireResult(None, None, false)
  {
    if !arnConfigured then AcquireResult(None, None, false)
    else match p
      case InvokeRaised => AcquireResult(None, None, false)
      case Payload(code, body) =>
        if code == Some(404) then AcquireResult(None, None, false)
        else if code != Some(200) then AcquireResult(None, None, false)
        else if body.None? then AcquireResult(None, None, false)
        else AcquireResult(body.value.accountId, body.value.roleArn, true)
  }

  /** The loop of `acquire_account_with_retries` stops on a success that names both an account and a role. */
  predicate Accepted(arnConfigured: bool, p: AcquirePayload) {
    var a := AcquireAccount(arnConfigured, p);
    a.success && Present(a.accountId) && Present(a.roleArn)
  }

  // ---------------------------------------------------------------- acquire_account_with_retries

  function Pow2(n: nat): (r: nat)
    ensures r >= 1
  {
    if n == 0 then 1 else 2 * Pow2(n - 1)
  }

  lemma {:induction false} Pow2Monotone(m: nat, n: nat)
    requires m <= n
    ensures Pow2(m) <= Pow2(n)
    decreases n
  {
    if m < n {
      Pow2Monotone(m, n - 1);
    }
  }

  /** The delay before jitter after the `retries`-th failed attempt: `min(10 * 2^(retries // 3), 60)`. */
  function RetryDelay(retries: nat): nat {
    var d := RetryDelayBase * Pow2(retries / 3);
    if d < RetryDelayMax then d else RetryDelayMax
  }

  /** The delay starts at the base, never exceeds the maximum, and never shrinks. */
  lemma RetryDelayBounds(i: nat, j: nat)
    requires i <= j
    ensures RetryDelayBase <= RetryDelay(i) <= RetryDelay(j) <= RetryDelayMax
  {
    Pow2Monotone(i / 3, j / 3);
  }

  /** From the ninth failure on, the delay is at its maximum. */
  lemma RetryDelaySaturates(retries: nat)
    requires retries >= 9
    ensures RetryDelay(retries) == RetryDelayMax
  {
    assert Pow2(3) == 8;
    Pow2Monotone(3, retries / 3);
  }

  datatype Acquisition = Acquisition(accountId: Option<string>, roleArn: Option<string>, taskId: Option<string>, attempts: nat)

  /**
   * The outcome of the retry loop from attempt `retries` on, `answer(k)`
   * being what attempt `k` (from 0) receives: the first accepted answer
   * gives its account, role and the task id; after 60 attempts the loop
   * gives up with `(None, None, None)`.
   */
  function Retry(arnConfigured: bool, answer: nat -> AcquirePayload, task: string, retries: nat): (r: Acquisition)
    requires retries <= MaxAcquireRetries
    ensures retries <= r.attempts <= MaxAcquireRetries
    ensures r.accountId.Some? ==>
      r.attempts >= 1 && r.taskId == Some(task) && Present(r.accountId) && Present(r.roleArn) && arnConfigured
    ensures r.accountId.None? ==> r == Acquisition(None, None, None, MaxAcquireRetries)
    decreases MaxAcquireRetries - retries
  {
    if retries == MaxAcquireRetries then Acquisition(None, None, None, MaxAcquireRetries)
    else
      var a := AcquireAccount(arnConfigured, answer(retries));
      if a.success && Present(a.accountId) && Present(a.roleArn) then
        Acquisition(a.accountId, a.roleArn, Some(task), retries + 1)
      else
        Retry(arnConfigured, answer, task, retries + 1)
  }

  /**
   * The loop succeeds exactly when one of the remaining attempts is
   * accepted, and then it stops at the first such attempt and returns that
   * attempt's account and role.
   */
  lemma {:induction false} RetryStopsAtFirstAccepted(arnConfigured: bool, answer: nat -> AcquirePayload, task: string, retries: nat)
    requires retries <= MaxAcquireRetries
    ensures var r := Retry(arnConfigured, answer, task, retries);
      (r.accountId.Some? <==> exists k :: retries <= k < MaxAcquireRetries && Accepted(arnConfigured, answer(k)))
      && (r.accountId.Some? ==>
        Accepted(arnConfigured, answer(r.attempts - 1))
        && (forall k :: retries <= k < r.attempts - 1 ==> !Accepted(arnConfigured, answer(k)))
        && r.accountId == AcquireAccount(arnConfigured, answer(r.attempts - 1)).accountId
        && r.roleArn == AcquireAccount(arnConfigured, answer(r.attempts - 1)).roleArn)
    decreases MaxAcquireRetries - retries
  {
    if retries < MaxAcquireRetries && !Accepted(arnConfigured, answer(retries)) {
      RetryStopsAtFirstAccepted(arnConfigured, answer, task, retries + 1);
    }
  }

  /** The number of failed attempts, each followed by a sleep. */
  function Failures(r: Acquisition): nat {
    if r.accountId.Some? && r.attempts >= 1 then r.attempts - 1 else r.attempts
  }

  // ---------------------------------------------------------------- process_issue

  datatype Config = Config(managerArn: Option<string>, queueUrl: Option<string>)

  /** The fields `process_issue` reads from the queue message. */
  datatype Message = Message(issueNumber: Option<int>, repository: Option<string>)

  /** What the worker does to the outside world, in order. */
  datatype Effect =
    | ListQueueTags
    | AcquireInvocations(count: nat)
    | RunProcessor(issueNumber: int, repository: string, roleArn: string)
    | UploadResult(issueId: string)
    | CommentOnIssue(repository: string, issueNumber: int, url: string)
    | DeleteQueueMessage(receipt: string)
    | PublishRemoved(messageId: string)
    | ReleaseCall(accountId: string, taskId: string)

  /**
   * How the issue processor's coroutine ends: it completes, it raises an
   * `Exception`, or it calls `sys.exit(code)` (the processor does so with 0
   * for an issue that is not a bug), which raises `SystemExit`.
   */
  datatype ProcessorEnding = Completed | ProcessorRaised | ProcessorExited(code: int)

  /** The answers of the outside world to one run of `process_issue`. */
  datatype Services = Services(
    acquire: nat -> AcquirePayload,
    tagsListed: bool,
    now: nat,
    processor: ProcessorEnding,
    resultUrl: Option<string>,
    commentOk: bool,
    deleteOk: bool,
    releaseStatus: Option<int>)

  /**
   * How `process_issue` ends: it returns a boolean, or a `SystemExit`
   * escapes it. `SystemExit` is not an `Exception`, so neither the handler
   * around the processor nor the one around the whole body catches it; only
   * the `finally` blocks run.
   */
  datatype Ending = Returned(ok: bool) | Exited(code: int)

  datatype Run = Run(ending: Ending, effects: seq<Effect>)

  predicate ValidMessage(m: Message) {
    Present(m.repository) && m.issueNumber.Some? && m.issueNumber.value != 0
  }

  function IssueId(repository: string, issueNumber: int): string {
    repository + "#" + IntToString(issueNumber)
  }

  /** The message id `process_issue` makes up for the removal event, when listing the queue tags worked. */
  function MessageId(s: Services): Option<string> {
    if s.tagsListed then Some("msg-" + NatToString(s.now)) else None
  }

  /** `release_account` calls out only with an account id, a task id and a function ARN. */
  predicate ReleaseCalls(c: Config, accountId: Option<string>, taskId: Option<string>) {
    Present(accountId) && Present(taskId) && Present(c.managerArn)
  }

  /** `delete_message`: no call without a receipt handle and a queue URL; the removal event follows a successful delete. */
  function DeleteRun(c: Config, receipt: Option<string>, messageId: Option<string>, s: Services): (r: Run)
    ensures !Present(receipt) || !Present(c.queueUrl) ==> r == Run(Returned(false), [])
    ensures r.ending.Returned? && (r.ending.ok <==> Present(receipt) && Present(c.queueUrl) && s.deleteOk)
  {
    if !Present(receipt) || !Present(c.queueUrl) then Run(Returned(false), [])
    else if !s.deleteOk then Run(Returned(false), [DeleteQueueMessage(receipt.value)])
    else Run(Returned(true), [DeleteQueueMessage(receipt.value)] + (if messageId.Some? then [PublishRemoved(messageId.value)] else []))
  }

  /** The body of the inner `try` of `process_issue`, with an acquired role. */
  function WorkRun(c: Config, repository: string, issueNumber: int, roleArn: string, receipt: Option<string>, s: Services): Run {
    var ran := [RunProcessor(issueNumber, repository, roleArn)];
    match s.processor
    case ProcessorExited(code) => Run(Exited(code), ran)
    case ProcessorRaised => Run(Returned(false), ran)
    case Completed =>
      var uploaded := ran + [UploadResult(IssueId(repository, issueNumber))];
      if !Present(s.resultUrl) then Run(Returned(false), uploaded)
      else
        var commented := uploaded + [CommentOnIssue(repository, issueNumber, s.resultUrl.value)];
        if !s.commentOk then Run(Returned(false), commented)
        else
          var d := DeleteRun(c, receipt, MessageId(s), s);
          Run(d.ending, commented + d.effects)
  }

  /** `process_issue`: how it ends and every call it makes, starting with the attempt to list the queue tags. */
  function IssueRun(c: Config, m: Message, receipt: Option<string>, task: string, s: Services): Run {
    if !ValidMessage(m) then Run(Returned(false), [ListQueueTags])
    else
      var acq := Retry(Present(c.managerArn), s.acquire, task, 0);
      var tried := [ListQueueTags, AcquireInvocations(if Present(c.managerArn) then acq.attempts else 0)];
      if !Present(acq.accountId) || !Present(acq.roleArn) then Run(Returned(false), tried)
      else
        var w := AcquiredRun(c, m.repository.value, m.issueNumber.value, acq, receipt, s);
        Run(w.ending, tried + w.effects)
  }

  /** The inner `try` of `process_issue` and its `finally`, which releases the account. */
  function AcquiredRun(c: Config, repository: string, issueNumber: int, acq: Acquisition, receipt: Option<string>, s: Services): Run
    requires Present(acq.roleArn)
  {
    var w := WorkRun(c, repository, issueNumber, acq.roleArn.value, receipt, s);
    var release := if ReleaseCalls(c, acq.accountId, acq.taskId) then [ReleaseCall(acq.accountId.value, acq.taskId.value)] else [];
    Run(w.ending, w.effects + release)
  }

  /** `main` after a message was received: 0 when `process_issue` returned true, 1 when it returned false, and the exit code of an escaping `SystemExit`. */
  function ExitStatus(e: Ending): (status: int)
    ensures e.Returned? ==> (status == 0 <==> e.ok) && (status == 0 || status == 1)
    ensures e.Exited? ==> status == e.code
  {
    match e
    case Returned(ok) => if ok then 0 else 1
    case Exited(code) => code
  }

  class IssueWorker {
    const config: Config
    var log: seq<Effect>

    constructor(c: Config)
      ensures config == c && log == []
    {
      config := c;
      log := [];
    }

    /**
     * `acquire_account_with_retries`: ask until an answer is accepted or 60
     * attempts are spent; `delays` are the pre-jitter sleeps, one after each
     * failed attempt.
     */
    method AcquireWithRetries(task: string, answer: nat -> AcquirePayload) returns (r: Acquisition, delays: seq<nat>)
      ensures r == Retry(Present(config.managerArn), answer, task, 0)
      ensures |delays| == Failures(r) && forall i :: 0 <= i < |delays| ==> delays[i] == RetryDelay(i + 1)
    {
      var arn := Present(config.managerArn);
      var retries := 0;
      delays := [];
      while retries < MaxAcquireRetries
        invariant 0 <= retries <= MaxAcquireRetries
        invariant Retry(arn, answer, task, 0) == Retry(arn, answer, task, retries)
        invariant |delays| == retries && forall i :: 0 <= i < retries ==> delays[i] == RetryDelay(i + 1)
      {
        var a := AcquireAccount(arn, answer(retries));
        if a.success && Present(a.accountId) && Present(a.roleArn) {
          return Acquisition(a.accountId, a.roleArn, Some(task), retries + 1), delays;
        }
        retries := retries + 1;
        delays := delays + [RetryDelay(retries)];
      }
      r := Acquisition(None, None, None, MaxAcquireRetries);
    }

    /** `release_account`: the call is made only with all three values; it succeeds on a 200 answer. */
    method ReleaseAccount(accountId: Option<string>, taskId: Option<string>, status: Option<int>) returns (ok: bool)
      modifies this
      ensures log == old(log) + (if ReleaseCalls(config, accountId, taskId) then [ReleaseCall(accountId.value, taskId.value)] else [])
      ensures ok <==> ReleaseCalls(config, accountId, taskId) && status == Some(200)
    {
      if !Present(accountId) || !Present(taskId) || !Present(config.managerArn) {
        return false;
      }
      log := log + [ReleaseCall(accountId.value, taskId.value)];
      ok := status == Some(200);
    }

    method DeleteMessage(receipt: Option<string>, messageId: Option<string>, s: Services) returns (ok: bool)
      modifies this
      ensures log == old(log) + DeleteRun(config, receipt, messageId, s).effects
      ensures Returned(ok) == DeleteRun(config, receipt, messageId, s).ending
    {
      if !Present(receipt) || !Present(config.queueUrl) {
        return false;
      }
      log := log + [DeleteQueueMessage(receipt.value)];
      if !s.deleteOk {
        return false;
      }
      if messageId.Some? {
        log := log + [PublishRemoved(messageId.value)];
      }
      ok := true;
    }

    method Work(repository: string, issueNumber: int, roleArn: string, receipt: Option<string>, s: Services) returns (e: Ending)
      modifies this
      ensures log == old(log) + WorkRun(config, repository, issueNumber, roleArn, receipt, s).effects
      ensures e == WorkRun(config, repository, issueNumber, roleArn, receipt, s).ending
    {
      log := log + [RunProcessor(issueNumber, repository, roleArn)];
      if s.processor.ProcessorExited? {
        return Exited(s.processor.code);
      }
      if s.processor.ProcessorRaised? {
        return Returned(false);
      }
      log := log + [UploadResult(IssueId(repository, issueNumber))];
      if !Present(s.resultUrl) {
        return Returned(false);
      }
      log := log + [CommentOnIssue(repository, issueNumber, s.resultUrl.value)];
      if !s.commentOk {
        return Returned(false);
      }
      var ok := DeleteMessage(receipt, MessageId(s), s);
      e := Returned(ok);
    }

    /** `process_issue`: the account, once acquired, is released whatever happens after, a `SystemExit` included. */
    method ProcessIssue(m: Message, receipt: Option<string>, task: string, s: Services) returns (e: Ending)
      modifies this
      ensures log == old(log) + IssueRun(config, m, receipt, task, s).effects
      ensures e == IssueRun(config, m, receipt, task, s).ending
    {
      log := log + [ListQueueTags];
      if !Present(m.repository) || m.issueNumber.None? || m.issueNumber.value == 0 {
        return Returned(false);
      }
      e := AcquireAndProcess(m.repository.value, m.issueNumber.value, receipt, task, s);
      ghost var effects := IssueRun(config, m, receipt, task, s).effects;
      assert effects == [effects[0]] + effects[1..];
    }

    /** The retry loop, recording how many times the account manager was invoked. */
    method AcquireLogged(task: string, answer: nat -> AcquirePayload) returns (acq: Acquisition)
      modifies this
      ensures acq == Retry(Present(config.managerArn), answer, task, 0)
      ensures log == old(log) + [AcquireInvocations(if Present(config.managerArn) then acq.attempts else 0)]
    {
      var delays;
      acq, delays := AcquireWithRetries(task, answer);
      log := log + [AcquireInvocations(if Present(config.managerArn) then acq.attempts else 0)];
    }

    /** `process_issue` past the message check: acquire an account, then work and release. */
    method AcquireAndProcess(repository: string, issueNumber: int, receipt: Option<string>, task: string, s: Services) returns (e: Ending)
      requires repository != "" && issueNumber != 0
      modifies this
      ensures var m := Message(Some(issueNumber), Some(repository));
        IssueRun(config, m, receipt, task, s).effects[0] == ListQueueTags
        && log == old(log) + IssueRun(config, m, receipt, task, s).effects[1..]
        && e == IssueRun(config, m, receipt, task, s).ending
    {
      ghost var m := Message(Some(issueNumber), Some(repository));
      var acq := AcquireLogged(task, s.acquire);
      IssueRunCases(config, m, receipt, task, s, acq);
      if !Present(acq.accountId) || !Present(acq.roleArn) {
        return Returned(false);
      }
      ghost var logged := log;
      e := WorkThenRelease(repository, issueNumber, acq, receipt, s);
      assert log == logged + AcquiredRun(config, repository, issueNumber, acq, receipt, s).effects;
    }

    /** The inner `try` of `process_issue` and its `finally`, which releases the account. */
    method WorkThenRelease(repository: string, issueNumber: int, acq: Acquisition, receipt: Option<string>, s: Services) returns (e: Ending)
      requires Present(acq.roleArn)
      modifies this
      ensures log == old(log) + AcquiredRun(config, repository, issueNumber, acq, receipt, s).effects
      ensures e == AcquiredRun(config, repository, issueNumber, acq, receipt, s).ending
    {
      e := Work(repository, issueNumber, acq.roleArn.value, receipt, s);
      if Present(acq.accountId) && Present(acq.taskId) {
        var released := ReleaseAccount(acq.accountId, acq.taskId, s.releaseStatus);
      }
    }
  }

  /** `process_issue` on a valid message, by the outcome of the retry loop. */
  lemma IssueRunCases(c: Config, m: Message, receipt: Option<string>, task: string, s: Services, acq: Acquisition)
    requires ValidMessage(m) && acq == Retry(Present(c.managerArn), s.acquire, task, 0)
    ensures var tried := [ListQueueTags, AcquireInvocations(if Present(c.managerArn) then acq.attempts else 0)];
      IssueRun(c, m, receipt, task, s)
      == if !Present(acq.accountId) || !Present(acq.roleArn) then Run(Returned(false), tried)
         else var w := AcquiredRun(c, m.repository.value, m.issueNumber.value, acq, receipt, s); Run(w.ending, tried + w.effects)
  {
  }

  // ---------------------------------------------------------------- properties of process_issue

  /** A message without a repository or an issue number is refused after the tag listing, before any account is acquired. */
  lemma InvalidMessageAcquiresNothing(c: Config, m: Message, receipt: Option<string>, task: string, s: Services)
    requires !ValidMessage(m)
    ensures IssueRun(c, m, receipt, task, s) == Run(Returned(false), [ListQueueTags])
  {
  }

  /** When no account is acquired the run fails after the acquire attempts, which number at most 60. */
  lemma NoAccountNoWork(c: Config, m: Message, receipt: Option<string>, task: string, s: Services)
    requires ValidMessage(m)
    requires forall k :: 0 <= k < MaxAcquireRetries ==> !Accepted(Present(c.managerArn), s.acquire(k))
    ensures IssueRun(c, m, receipt, task, s)
      == Run(Returned(false), [ListQueueTags, AcquireInvocations(if Present(c.managerArn) then MaxAcquireRetries else 0)])
  {
    RetryStopsAtFirstAccepted(Present(c.managerArn), s.acquire, task, 0);
  }

  /** Once an account is acquired, releasing it is the last thing the run does, on every path, a `SystemExit` included. */
  lemma ReleaseOnEveryPath(c: Config, m: Message, receipt: Option<string>, task: string, s: Services)
    requires ValidMessage(m) && task != ""
    ensures var acq := Retry(Present(c.managerArn), s.acquire, task, 0);
      var r := IssueRun(c, m, receipt, task, s);
      acq.accountId.Some? ==>
        |r.effects| >= 3 && r.effects[|r.effects| - 1] == ReleaseCall(acq.accountId.value, task)
  {
  }

  /** The queue message is deleted only after the processor ran, the upload gave a URL and the comment was posted. */
  lemma DeleteOnlyAfterUploadAndComment(c: Config, m: Message, receipt: Option<string>, task: string, s: Services)
    requires ValidMessage(m)
    ensures var r := IssueRun(c, m, receipt, task, s);
      forall i :: 0 <= i < |r.effects| && r.effects[i].DeleteQueueMessage? ==>
        s.processor == Completed && Present(s.resultUrl) && s.commentOk
        && i == 5 && r.effects[3].UploadResult? && r.effects[4].CommentOnIssue? && r.effects[2].RunProcessor?
  {
    var r := IssueRun(c, m, receipt, task, s);
    var acq := Retry(Present(c.managerArn), s.acquire, task, 0);
    if Present(acq.accountId) && Present(acq.roleArn) {
      var w := WorkRun(c, m.repository.value, m.issueNumber.value, acq.roleArn.value, receipt, s);
      assert forall i :: 0 <= i < |w.effects| && w.effects[i].DeleteQueueMessage? ==>
        s.processor == Completed && Present(s.resultUrl) && s.commentOk && i == 3;
    }
  }

  /** A run answers `True` exactly when the message was deleted after the upload and the comment. */
  lemma SuccessMeansDeleted(c: Config, m: Message, receipt: Option<string>, task: string, s: Services)
    ensures IssueRun(c, m, receipt, task, s).ending == Returned(true) <==>
      ValidMessage(m) && Retry(Present(c.managerArn), s.acquire, task, 0).accountId.Some?
      && s.processor == Completed && Present(s.resultUrl) && s.commentOk
      && Present(receipt) && Present(c.queueUrl) && s.deleteOk
  {
  }

  /**
   * An issue the processor exits on (one that is not a bug) ends the run
   * with that `SystemExit` right after the account is released: nothing is
   * uploaded, no comment is posted and the queue message is not deleted.
   * The task then exits with the processor's code, 0 for a non-bug issue.
   */
  lemma ExitedProcessorKeepsMessage(c: Config, m: Message, receipt: Option<string>, task: string, s: Services)
    requires ValidMessage(m) && s.processor.ProcessorExited?
    requires Retry(Present(c.managerArn), s.acquire, task, 0).accountId.Some?
    ensures var acq := Retry(Present(c.managerArn), s.acquire, task, 0);
      var r := IssueRun(c, m, receipt, task, s);
      r.ending == Exited(s.processor.code) && ExitStatus(r.ending) == s.processor.code
      && r.effects == [ListQueueTags, AcquireInvocations(acq.attempts),
                       RunProcessor(m.issueNumber.value, m.repository.value, acq.roleArn.value)]
                      + (if Present(c.managerArn) && task != "" then [ReleaseCall(acq.accountId.value, task)] else [])
  {
    RetryStopsAtFirstAccepted(Present(c.managerArn), s.acquire, task, 0);
  }

  /** Only a processor that exits makes `process_issue` end other than by returning. */
  lemma ExitOnlyFromProcessor(c: Config, m: Message, receipt: Option<string>, task: string, s: Services)
    ensures IssueRun(c, m, receipt, task, s).ending.Exited? ==>
      ValidMessage(m) && s.processor == ProcessorExited(IssueRun(c, m, receipt, task, s).ending.code)
  {
  }
}
