/**
 * The scaling updater: it sets the worker service's desired task count from
 * the number of registered accounts and the number of queued messages, and
 * finds the cluster and service in the service's resource id.
 *
 * The account count, the queue attribute and the ECS update call are
 * inputs; what the handler asks ECS to do is part of its outcome.
 */
module ScalingUpdater {
  import opened Wrappers
  import opened Strings
  import opened JsonValue

  /** No messages: no tasks. Otherwise one task per message, but never more than the accounts allow, and at least one. */
  function DesiredCount(messages: int, accounts: int): (r: int)
    ensures r == 0 <==> messages == 0
    ensures messages > 0 ==> 1 <= r <= messages
    ensures messages != 0 ==> r <= messages && r <= (if accounts > 1 then accounts else 1)
    ensures messages != 0 ==> r == messages || r == (if accounts > 1 then accounts else 1)
  {
    if messages == 0 then 0
    else
      var cap := if 1 >= accounts then 1 else accounts;
      if messages <= cap then messages else cap
  }

  /** With messages waiting, the count is the largest that serves no more messages than exist and uses no more accounts than exist (taking at least one). */
  lemma DesiredCountIsLargest(messages: nat, accounts: nat, n: int)
    requires messages > 0 && n <= messages && n <= (if accounts > 1 then accounts else 1)
    ensures n <= DesiredCount(messages, accounts)
  {
  }

  /** More messages never mean fewer tasks. */
  lemma DesiredCountMonotone(m1: nat, m2: nat, accounts: nat)
    requires m1 <= m2
    ensures DesiredCount(m1, accounts) <= DesiredCount(m2, accounts)
  {
  }

  /** `service/<cluster>/<service>`: exactly three "/"-separated parts, the first "service". */
  function ParseResourceId(id: string): (r: Option<(string, string)>)
    ensures r.Some? ==> id == "service/" + r.value.0 + "/" + r.value.1
    ensures r.Some? ==> '/' !in r.value.0 && '/' !in r.value.1
    ensures r.None? <==> |Split(id, '/')| != 3 || Split(id, '/')[0] != "service"
  {
    var parts := Split(id, '/');
    if |parts| != 3 || parts[0] != "service" then None
    else
      SplitJoin(id, '/');
      assert parts[1..][1..] == parts[2..] && |parts[2..]| == 1;
      assert Join(parts[1..], "/") == parts[1] + "/" + parts[2];
      assert Join(parts, "/") == parts[0] + "/" + (parts[1] + "/" + parts[2]);
      Some((parts[1], parts[2]))
  }

  /** A cluster and a service name without slashes are found again in their resource id. */
  lemma ParseResourceIdOfNames(cluster: string, service: string)
    requires '/' !in cluster && '/' !in service
    ensures ParseResourceId("service/" + cluster + "/" + service) == Some((cluster, service))
  {
    var parts := ["service", cluster, service];
    assert parts[1..] == [cluster, service] && parts[1..][1..] == [service];
    assert Join(parts[1..], "/") == cluster + "/" + service;
    assert Join(parts, "/") == "service/" + cluster + "/" + service;
    assert forall i :: 0 <= i < |parts| ==> '/' !in parts[i];
    JoinSplit(parts, '/');
  }

  /** The call made to ECS: cluster, service, desired count. */
  datatype Update = Update(cluster: string, service: string, desiredCount: int)

  datatype Outcome = Outcome(statusCode: int, body: Json, update: Option<Update>)

  function ErrorBody(msg: string): Json { JObj([("error", JStr(msg))]) }

  /** Python's message for `int(s)` on text that is not an integer. */
  function BadInt(s: string): string {
    "invalid literal for int() with base 10: '" + s + "'"
  }

  /**
   * `lambda_handler`. `accounts` is the table scan's count, `messages` the
   * queue's ApproximateNumberOfMessages attribute (each an error when the
   * call raised), `updateError` what the ECS update raised, if anything.
   */
  function Handle(accounts: Result<int>, messages: Result<string>, resourceId: string, updateError: Option<string>): (o: Outcome)
    ensures o.update.Some? ==> accounts.Ok? && messages.Ok? && ParseInt(messages.value).Some? && ParseResourceId(resourceId).Some?
    ensures o.update.Some? ==>
      o.update.value == Update(ParseResourceId(resourceId).value.0, ParseResourceId(resourceId).value.1,
                               DesiredCount(ParseInt(messages.value).value, accounts.value))
    ensures o.statusCode == 400 <==>
      accounts.Ok? && messages.Ok? && ParseInt(messages.value).Some? && ParseResourceId(resourceId).None?
    ensures o.statusCode == 400 ==> o.update.None?
    ensures o.statusCode == 200 <==> o.update.Some? && updateError.None?
    ensures o.statusCode == 200 || o.statusCode == 400 || o.statusCode == 500
    ensures o.statusCode == 500 <==>
      accounts.Err? || messages.Err? || ParseInt(messages.value).None?
      || (ParseResourceId(resourceId).Some? && updateError.Some?)
    ensures accounts.Ok? && messages.Ok? && ParseInt(messages.value).Some? && ParseResourceId(resourceId).Some? ==>
      o.update.Some?
    ensures accounts.Err? ==> o == Outcome(500, ErrorBody("Internal error: " + accounts.error), None)
    ensures accounts.Ok? && messages.Err? ==> o == Outcome(500, ErrorBody("Internal error: " + messages.error), None)
    ensures accounts.Ok? && messages.Ok? && ParseInt(messages.value).None? ==>
      o == Outcome(500, ErrorBody("Internal error: " + BadInt(messages.value)), None)
    ensures o.statusCode == 400 ==> o.body == ErrorBody("Invalid ECS service resource ID format: " + resourceId)
    ensures o.statusCode == 500 && o.update.Some? ==> o.body == ErrorBody("Internal error: " + updateError.value)
    ensures o.statusCode == 200 ==>
      o.body == JObj([
        ("message", JStr("Updated ECS service desired count to " + IntToString(o.update.value.desiredCount))),
        ("accountCount", JInt(accounts.value)),
        ("messageCount", JInt(ParseInt(messages.value).value))])
  {
    match accounts
    case Err(e) => Outcome(500, ErrorBody("Internal error: " + e), None)
    case Ok(total) =>
      match messages
      case Err(e) => Outcome(500, ErrorBody("Internal error: " + e), None)
      case Ok(text) =>
        match ParseInt(text)
        case None => Outcome(500, ErrorBody("Internal error: " + BadInt(text)), None)
        case Some(count) =>
          var desired := DesiredCount(count, total);
          match ParseResourceId(resourceId)
          case None => Outcome(400, ErrorBody("Invalid ECS service resource ID format: " + resourceId), None)
          case Some(names) =>
            var call := Some(Update(names.0, names.1, desired));
            if updateError.Some? then Outcome(500, ErrorBody("Internal error: " + updateError.value), call)
            else
              Outcome(200, JObj([
                ("message", JStr("Updated ECS service desired count to " + IntToString(desired))),
                ("accountCount", JInt(total)),
                ("messageCount", JInt(count))]), call)
  }
}
