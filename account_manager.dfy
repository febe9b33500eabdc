/**
 * The account pool behind the account-manager Lambda: a DynamoDB table of
 * AWS accounts, each AVAILABLE or IN_USE by one task, with operations to
 * register, deregister, acquire, release, list and clean up accounts, each
 * answering a status code and a JSON body.
 *
 * The table is a map from account id to record; the order in which a scan
 * visits the items is a parameter (any listing of the table's keys), and
 * the clock is the `now` parameter.
 */
module AccountManager {
  import opened Wrappers
  import opened Strings
  import opened JsonValue

  datatype Status = Available | InUse

  datatype Account = Account(
    accountId: string, roleArn: string, status: Status, taskId: Option<string>,
    registeredAt: int, lastUpdated: int)

  type Table = map<string, Account>

  datatype Response = Response(statusCode: int, body: Json)

  /** An event published to EventBridge. */
  datatype Event = Event(detailType: string, accountId: string)

  const StaleTimeout: int := 3600

  function ErrorBody(msg: string): Json { JObj([("error", JStr(msg))]) }
  function MessageBody(msg: string): Json { JObj([("message", JStr(msg))]) }

  /** A request parameter that is present and not empty (Python truthiness). */
  predicate Given(v: Option<string>) {
    v.Some? && v.value != ""
  }

  /** A scan visits every item of the table exactly once. */
  ghost predicate IsScanOrder(order: seq<string>, t: Table) {
    (forall i, j :: 0 <= i < j < |order| ==> order[i] != order[j])
    && (forall id :: id in t <==> id in order)
  }

  /** Every record is keyed by its own id, and has an owner exactly when it is in use. */
  predicate Owned(t: Table) {
    forall id :: id in t ==> t[id].accountId == id && (t[id].status == InUse <==> t[id].taskId.Some?)
  }

  // ---------------------------------------------------------------- acquire

  /** The first account of the scan that is AVAILABLE: what a filtered scan returns first. */
  function FirstAvailable(order: seq<string>, t: Table): (r: Option<nat>)
    requires forall id :: id in order ==> id in t
    ensures r.Some? ==> r.value < |order| && t[order[r.value]].status == Available
    ensures r.Some? ==> forall k :: 0 <= k < r.value ==> t[order[k]].status != Available
    ensures r.None? ==> forall k :: 0 <= k < |order| ==> t[order[k]].status != Available
  {
    if |order| == 0 then None
    else if t[order[0]].status == Available then Some(0)
    else match FirstAvailable(order[1..], t)
      case None => None
      case Some(k) => Some(k + 1)
  }

  /**
   * The items `scan(FilterExpression=..., Limit=1)` returns: DynamoDB reads
   * one item and then applies the filter, so only the first item of the scan
   * can be returned.
   */
  function ScanLimitOne(order: seq<string>, t: Table): (items: seq<string>)
    requires forall id :: id in order ==> id in t
    ensures |items| <= 1
    ensures |items| == 1 <==> |order| > 0 && t[order[0]].status == Available
  {
    if |order| > 0 && t[order[0]].status == Available then [order[0]] else []
  }

  /**
   * With the scan limited to one item, an acquire finds nothing although an
   * account is available, whenever the scan visits an account in use first.
   */
  lemma ScanLimitOneMissesAvailable()
    ensures var a1 := Account("111111111111", "arn:aws:iam::111111111111:role/r", InUse, Some("task-1"), 0, 0);
      var a2 := Account("222222222222", "arn:aws:iam::222222222222:role/r", Available, None, 0, 0);
      var t := map["111111111111" := a1, "222222222222" := a2];
      var order := ["111111111111", "222222222222"];
      IsScanOrder(order, t) && Owned(t)
      && ScanLimitOne(order, t) == [] && FirstAvailable(order, t) == Some(1)
  {
    var a1 := Account("111111111111", "arn:aws:iam::111111111111:role/r", InUse, Some("task-1"), 0, 0);
    var a2 := Account("222222222222", "arn:aws:iam::222222222222:role/r", Available, None, 0, 0);
    var t := map["111111111111" := a1, "222222222222" := a2];
    var order := ["111111111111", "222222222222"];
    assert order[0] != order[1] by {
      assert order[0][0] == '1' && order[1][0] == '2';
    }
    assert FirstAvailable(order[1..], t) == Some(0);
  }

  // ---------------------------------------------------------------- deregister

  /** DynamoDB accepts a request only when its expression uses every placeholder it defines. */
  predicate UsesAllPlaceholders(expression: string, placeholders: seq<string>) {
    forall i :: 0 <= i < |placeholders| ==> Contains(expression, placeholders[i])
  }

  const DeregisterCondition: string := "attribute_exists(account_id)"
  /** The expression attribute name and value `deregister_account` defines. */
  const DeregisterPlaceholders: seq<string> := ["#status", ":available"]
  const UnusedNames: string := "Value provided in ExpressionAttributeNames unused in expressions: keys: {#status}"

  /** The delete request of `deregister_account` defines a name its condition never uses. */
  lemma DeregisterRequestRejected()
    ensures !UsesAllPlaceholders(DeregisterCondition, DeregisterPlaceholders)
  {
    assert DeregisterPlaceholders[0] == "#status";
    assert '#' !in DeregisterCondition;
    NotContainsWithoutFirstChar(DeregisterCondition, "#status");
  }

  // ---------------------------------------------------------------- listing order

  /** The key `list_accounts` sorts by: AVAILABLE first, then by `last_updated`. */
  predicate KeyBefore(a: Account, b: Account) {
    (a.status == Available && b.status != Available)
    || ((a.status == Available) == (b.status == Available) && a.lastUpdated < b.lastUpdated)
  }

  predicate SameKey(a: Account, b: Account) {
    (a.status == Available) == (b.status == Available) && a.lastUpdated == b.lastUpdated
  }

  /** Item `p` comes before item `q` in a stable sort: a smaller key, or the same key and an earlier position. */
  predicate Before(items: seq<Account>, p: nat, q: nat)
    requires p < |items| && q < |items|
  {
    KeyBefore(items[p], items[q]) || (SameKey(items[p], items[q]) && p < q)
  }

  predicate SortedPositions(items: seq<Account>, perm: seq<nat>) {
    (forall i :: 0 <= i < |perm| ==> perm[i] < |items|)
    && forall i, j :: 0 <= i < j < |perm| ==> Before(items, perm[i], perm[j])
  }

  /** `perm` lists each of the positions `0..n-1` exactly once. */
  ghost predicate IsPermutation(perm: seq<nat>, n: nat) {
    (forall i, j :: 0 <= i < j < |perm| ==> perm[i] != perm[j])
    && (forall i :: 0 <= i < |perm| ==> perm[i] < n)
    && (forall p :: 0 <= p < n ==> p in perm)
  }

  /** Two different positions are always ordered one way or the other. */
  lemma BeforeTotal(items: seq<Account>, p: nat, q: nat)
    requires p < |items| && q < |items| && p != q
    ensures Before(items, p, q) || Before(items, q, p)
  {
  }

  lemma BeforeTransitive(items: seq<Account>, p: nat, q: nat, r: nat)
    requires p < |items| && q < |items| && r < |items|
    requires Before(items, p, q) && Before(items, q, r)
    ensures Before(items, p, r)
  {
  }

  /** Inserting the next position anywhere keeps a permutation of the positions seen so far. */
  lemma InsertKeepsPermutation(perm: seq<nat>, k: nat, pos: nat)
    requires IsPermutation(perm, k) && pos <= |perm|
    ensures IsPermutation(perm[..pos] + [k] + perm[pos..], k + 1)
  {
    var np := perm[..pos] + [k] + perm[pos..];
    assert forall i :: 0 <= i < |np| ==> np[i] == if i < pos then perm[i] else if i == pos then k else perm[i - 1];
    forall p | 0 <= p < k + 1
      ensures p in np
    {
      if p == k {
        assert np[pos] == k;
      } else {
        assert p < k && p in perm;
        var i :| 0 <= i < |perm| && perm[i] == p;
        if i < pos { assert np[i] == p; } else { assert np[i + 1] == p; }
      }
    }
  }

  function Reorder(items: seq<Account>, perm: seq<nat>): (r: seq<Account>)
    requires forall i :: 0 <= i < |perm| ==> perm[i] < |items|
    ensures |r| == |perm| && forall i :: 0 <= i < |perm| ==> r[i] == items[perm[i]]
  {
    seq(|perm|, i requires 0 <= i < |perm| => items[perm[i]])
  }

  /**
   * Python's stable `sort` with the key of `list_accounts`: the positions
   * of the items in their new order. Sorting on (key, position) makes the
   * order total, so items with equal keys keep their scan order.
   */
  method SortPositions(items: seq<Account>) returns (perm: seq<nat>)
    ensures IsPermutation(perm, |items|) && |perm| == |items|
    ensures SortedPositions(items, perm)
  {
    perm := [];
    var k := 0;
    while k < |items|
      invariant 0 <= k <= |items| && |perm| == k
      invariant IsPermutation(perm, k)
      invariant SortedPositions(items, perm)
    {
      var pos := 0;
      while pos < |perm| && !Before(items, k, perm[pos])
        invariant 0 <= pos <= |perm|
        invariant forall i :: 0 <= i < pos ==> Before(items, perm[i], k)
      {
        BeforeTotal(items, k, perm[pos]);
        pos := pos + 1;
      }
      forall i | pos <= i < |perm|
        ensures Before(items, k, perm[i])
      {
        if i > pos {
          BeforeTransitive(items, k, perm[pos], perm[i]);
        }
      }
      InsertKeepsPermutation(perm, k, pos);
      perm := perm[..pos] + [k] + perm[pos..];
      k := k + 1;
    }
  }

  // ---------------------------------------------------------------- cleanup

  /** An account in use whose last update is more than an hour old. */
  predicate IsStale(a: Account, now: int) {
    a.status == InUse && now - a.lastUpdated > StaleTimeout
  }

  function Reset(a: Account, now: int): Account {
    a.(status := Available, taskId := None, lastUpdated := now)
  }

  /** The table after every stale account is reset. */
  function CleanedTable(t: Table, now: int): Table {
    map id | id in t :: if IsStale(t[id], now) then Reset(t[id], now) else t[id]
  }

  /** After the first `i` ids of the scan, exactly the stale ones among them are reset. */
  ghost predicate ResetUpTo(order: seq<string>, t: Table, now: int, i: nat, ct: Table)
    requires i <= |order|
  {
    ct.Keys == t.Keys
    && forall id :: id in ct ==> ct[id] == if id in order[..i] && IsStale(t[id], now) then Reset(t[id], now) else t[id]
  }

  lemma ResetStep(order: seq<string>, t: Table, now: int, i: nat, ct: Table)
    requires IsScanOrder(order, t) && i < |order| && ResetUpTo(order, t, now, i, ct)
    ensures var id := order[i];
      ResetUpTo(order, t, now, i + 1, if IsStale(t[id], now) then ct[id := Reset(t[id], now)] else ct)
    ensures StaleIds(order[..i + 1], t, now) ==
      StaleIds(order[..i], t, now) + (if IsStale(t[order[i]], now) then [order[i]] else [])
  {
    var id := order[i];
    assert order[..i + 1] == order[..i] + [id];
    assert order[..i + 1][..i] == order[..i];
    assert id !in order[..i];
  }

  lemma ResetDone(order: seq<string>, t: Table, now: int, ct: Table)
    requires IsScanOrder(order, t) && ResetUpTo(order, t, now, |order|, ct)
    ensures ct == CleanedTable(t, now)
  {
    assert order[..|order|] == order;
  }

  /** The cleanup loop on the table's value: each stale account, in scan order, is reset. */
  method ResetStale(order: seq<string>, t: Table, now: int) returns (cleanedTable: Table, cleaned: seq<string>)
    requires IsScanOrder(order, t)
    ensures cleanedTable == CleanedTable(t, now)
    ensures cleaned == StaleIds(order, t, now)
  {
    cleanedTable := t;
    cleaned := [];
    var i := 0;
    while i < |order|
      invariant 0 <= i <= |order|
      invariant cleaned == StaleIds(order[..i], t, now)
      invariant ResetUpTo(order, t, now, i, cleanedTable)
    {
      var id := order[i];
      ResetStep(order, t, now, i, cleanedTable);
      if IsStale(t[id], now) {
        cleanedTable := cleanedTable[id := Reset(t[id], now)];
        cleaned := cleaned + [id];
      } else {
        assert cleaned + [] == cleaned;
      }
      i := i + 1;
    }
    ResetDone(order, t, now, cleanedTable);
    assert order[..i] == order;
  }

  /** The stale accounts in scan order. */
  function StaleIds(order: seq<string>, t: Table, now: int): seq<string>
    requires forall id :: id in order ==> id in t
    decreases |order|
  {
    if |order| == 0 then []
    else
      var init := StaleIds(order[..|order| - 1], t, now);
      var last := order[|order| - 1];
      if IsStale(t[last], now) then init + [last] else init
  }

  /** The reported accounts are exactly the stale ones. */
  lemma {:induction false} StaleIdsExact(order: seq<string>, t: Table, now: int)
    requires forall id :: id in order ==> id in t
    ensures forall id :: id in StaleIds(order, t, now) <==> id in order && IsStale(t[id], now)
    decreases |order|
  {
    if |order| > 0 {
      var init := order[..|order| - 1];
      StaleIdsExact(init, t, now);
      assert order == init + [order[|order| - 1]];
    }
  }

  /**
   * After a cleanup no account is stale, the owner invariant still holds,
   * and only the stale accounts changed.
   */
  lemma CleanupResetsStale(t: Table, now: int)
    requires Owned(t)
    ensures Owned(CleanedTable(t, now))
    ensures forall id :: id in CleanedTable(t, now) ==> !IsStale(CleanedTable(t, now)[id], now)
    ensures forall id :: id in t && !IsStale(t[id], now) ==> CleanedTable(t, now)[id] == t[id]
  {
  }

  // ---------------------------------------------------------------- the pool

  datatype Request = Request(operation: Option<string>, accountId: Option<string>, roleArn: Option<string>, taskId: Option<string>)

  function ShowOptional(s: Option<string>): string {
    if s.Some? then s.value else "None"
  }

  // ---------------------------------------------------------------- operation outcomes

  /** `register_account`: a new account becomes AVAILABLE; an existing one only gets the new role. */
  ghost predicate RegisterOutcome(t0: Table, e0: seq<Event>, t: Table, e: seq<Event>,
                                  accountId: Option<string>, roleArn: Option<string>, now: int, resp: Response)
  {
    && (!Given(accountId) || !Given(roleArn) ==>
          resp == Response(400, ErrorBody("Missing required parameters: account_id and role_arn"))
          && t == t0 && e == e0)
    && (Given(accountId) && Given(roleArn) && accountId.value in t0 ==>
          var id := accountId.value;
          resp == Response(200, JObj([("message", JStr("Account " + id + " updated successfully")), ("updated", JBool(true))]))
          && t == t0[id := t0[id].(roleArn := roleArn.value, lastUpdated := now)]
          && e == e0)
    && (Given(accountId) && Given(roleArn) && accountId.value !in t0 ==>
          var id := accountId.value;
          resp == Response(200, JObj([("message", JStr("Account " + id + " registered successfully")), ("updated", JBool(false))]))
          && t == t0[id := Account(id, roleArn.value, Available, None, now, now)]
          && e == e0 + [Event("AccountRegistered", id)])
  }

  /** `deregister_account` with a well-formed request: the account is deleted whatever its status. */
  ghost predicate DeregisterOutcome(t0: Table, e0: seq<Event>, t: Table, e: seq<Event>, accountId: Option<string>, resp: Response) {
    && (!Given(accountId) ==>
          resp == Response(400, ErrorBody("Missing required parameter: account_id")) && t == t0 && e == e0)
    && (Given(accountId) && accountId.value in t0 ==>
          resp == Response(200, MessageBody("Account " + accountId.value + " deregistered successfully"))
          && t == t0 - {accountId.value}
          && e == e0 + [Event("AccountDeregistered", accountId.value)])
    && (Given(accountId) && accountId.value !in t0 ==>
          resp == Response(200, ErrorBody("Account " + accountId.value + " is already not registered yet"))
          && t == t0 && e == e0)
  }

  /** `acquire_account` with the scan reading the whole table: the first AVAILABLE account of the scan becomes IN_USE by the task. */
  ghost predicate AcquireOutcome(t0: Table, e0: seq<Event>, t: Table, e: seq<Event>,
                                 taskId: Option<string>, order: seq<string>, now: int, resp: Response)
    requires IsScanOrder(order, t0)
  {
    && e == e0
    && (!Given(taskId) ==>
          resp == Response(400, ErrorBody("Missing required parameter: task_id")) && t == t0)
    && (Given(taskId) && FirstAvailable(order, t0).None? ==>
          resp == Response(404, ErrorBody("No available accounts found")) && t == t0
          && forall id :: id in t ==> t[id].status == InUse)
    && (Given(taskId) && FirstAvailable(order, t0).Some? ==>
          var id := order[FirstAvailable(order, t0).value];
          t0[id].status == Available
          && t == t0[id := t0[id].(status := InUse, taskId := taskId, lastUpdated := now)]
          && resp == Response(200, JObj([("account_id", JStr(id)), ("role_arn", JStr(t0[id].roleArn))])))
  }

  /** `release_account`: only the owning task can return its account to the pool. */
  ghost predicate ReleaseOutcome(t0: Table, e0: seq<Event>, t: Table, e: seq<Event>,
                                 accountId: Option<string>, taskId: Option<string>, now: int, resp: Response)
  {
    && e == e0
    && (!Given(accountId) || !Given(taskId) ==>
          resp == Response(400, ErrorBody("Missing required parameters: account_id and task_id")) && t == t0)
    && (Given(accountId) && Given(taskId) ==>
          var id := accountId.value;
          if id in t0 && t0[id].status == InUse && t0[id].taskId == taskId then
            resp == Response(200, MessageBody("Account " + id + " released successfully"))
            && t == t0[id := t0[id].(status := Available, taskId := None, lastUpdated := now)]
          else
            resp == Response(400, ErrorBody("Account " + id + " not found, not in use, or owned by different task"))
            && t == t0)
  }

  /** The listing `list_accounts` means to answer: every account once, sorted by the listing key, as JSON. */
  ghost predicate ListOutcome(t: Table, order: seq<string>, perm: seq<nat>, resp: Response)
    requires IsScanOrder(order, t)
  {
    && IsPermutation(perm, |order|) && |perm| == |order|
    && SortedPositions(ScannedItems(order, t), perm)
    && var listed := Reorder(ScannedItems(order, t), perm);
       resp == Response(200, JArr(seq(|listed|, i requires 0 <= i < |listed| => AccountJson(listed[i]))))
  }

  /** `cleanup_stale_accounts`: every account in use for more than an hour is reset, and their ids reported in scan order. */
  ghost predicate CleanupOutcome(t0: Table, e0: seq<Event>, t: Table, e: seq<Event>, order: seq<string>, now: int, resp: Response)
    requires IsScanOrder(order, t0)
  {
    && t == CleanedTable(t0, now)
    && e == e0
    && var cleaned := StaleIds(order, t0, now);
       resp == Response(200, JObj([
         ("message", JStr("Cleaned up " + NatToString(|cleaned|) + " stale accounts")),
         ("accounts", StrList(cleaned))]))
  }

  // ---------------------------------------------------------------- listing as written

  /** An item attribute as the boto3 resource layer reads it back: numbers come back as `Decimal`. */
  datatype Attribute = AttrString(s: string) | AttrDecimal(n: int)

  /** A record as `table.scan()` returns it. */
  function ItemAttributes(a: Account): seq<(string, Attribute)> {
    [("account_id", AttrString(a.accountId)), ("role_arn", AttrString(a.roleArn)), ("status", AttrString(StatusName(a.status)))]
      + (if a.taskId.Some? then [("task_id", AttrString(a.taskId.value))] else [])
      + [("registered_at", AttrDecimal(a.registeredAt)), ("last_updated", AttrDecimal(a.lastUpdated))]
  }

  /** `json.dumps` accepts the items only when no attribute is a `Decimal`. */
  predicate Serialisable(items: seq<Account>) {
    forall i, k :: 0 <= i < |items| && 0 <= k < |ItemAttributes(items[i])| ==> ItemAttributes(items[i])[k].1.AttrString?
  }

  const DecimalNotSerializable: string := "Object of type Decimal is not JSON serializable"

  /** Every scanned record carries its registration time as a number, so no non-empty scan can be serialised. */
  lemma NonEmptyScanNotSerialisable(items: seq<Account>)
    requires |items| > 0
    ensures !Serialisable(items)
  {
    var attrs := ItemAttributes(items[0]);
    var k := if items[0].taskId.Some? then 4 else 3;
    assert attrs[k] == ("registered_at", AttrDecimal(items[0].registeredAt));
  }

  // ---------------------------------------------------------------- the pool

  class AccountPool {
    var table: Table
    var events: seq<Event>

    ghost predicate Valid()
      reads this
    {
      Owned(table)
    }

    constructor(t: Table)
      ensures table == t && events == []
    {
      table := t;
      events := [];
    }

    method Register(accountId: Option<string>, roleArn: Option<string>, now: int) returns (resp: Response)
      modifies this
      ensures RegisterOutcome(old(table), old(events), table, events, accountId, roleArn, now, resp)
      ensures old(Valid()) ==> Valid()
    {
      if !Given(accountId) || !Given(roleArn) {
        return Response(400, ErrorBody("Missing required parameters: account_id and role_arn"));
      }
      var id := accountId.value;
      if id in table {
        table := table[id := table[id].(roleArn := roleArn.value, lastUpdated := now)];
        resp := Response(200, JObj([("message", JStr("Account " + id + " updated successfully")), ("updated", JBool(true))]));
      } else {
        table := table[id := Account(id, roleArn.value, Available, None, now, now)];
        events := events + [Event("AccountRegistered", id)];
        resp := Response(200, JObj([("message", JStr("Account " + id + " registered successfully")), ("updated", JBool(false))]));
      }
    }

    /**
     * `deregister_account` as written: the delete request defines `#status`
     * and `:available` but its condition uses neither, so DynamoDB rejects
     * it and every present id gets a 500.
     */
    method DeregisterAsWritten(accountId: Option<string>) returns (resp: Response)
      ensures !Given(accountId) ==> resp == Response(400, ErrorBody("Missing required parameter: account_id"))
      ensures Given(accountId) ==> resp == Response(500, ErrorBody("Internal error: " + UnusedNames))
    {
      if !Given(accountId) {
        return Response(400, ErrorBody("Missing required parameter: account_id"));
      }
      DeregisterRequestRejected();
      var accepted := UsesAllPlaceholders(DeregisterCondition, DeregisterPlaceholders);
      var success := Response(200, MessageBody("Account " + accountId.value + " deregistered successfully"));
      resp := if accepted then success else Response(500, ErrorBody("Internal error: " + UnusedNames));
    }

    method Deregister(accountId: Option<string>) returns (resp: Response)
      modifies this
      ensures DeregisterOutcome(old(table), old(events), table, events, accountId, resp)
      ensures old(Valid()) ==> Valid()
    {
      if !Given(accountId) {
        return Response(400, ErrorBody("Missing required parameter: account_id"));
      }
      var id := accountId.value;
      if id !in table {
        return Response(200, ErrorBody("Account " + id + " is already not registered yet"));
      }
      table := table - {id};
      events := events + [Event("AccountDeregistered", id)];
      resp := Response(200, MessageBody("Account " + id + " deregistered successfully"));
    }

    method Acquire(taskId: Option<string>, order: seq<string>, now: int) returns (resp: Response)
      requires IsScanOrder(order, table)
      modifies this
      ensures AcquireOutcome(old(table), old(events), table, events, taskId, order, now, resp)
      ensures old(Valid()) ==> Valid()
    {
      if !Given(taskId) {
        return Response(400, ErrorBody("Missing required parameter: task_id"));
      }
      var found := FirstAvailable(order, table);
      if found.None? {
        return Response(404, ErrorBody("No available accounts found"));
      }
      var id := order[found.value];
      var account := table[id];
      table := table[id := account.(status := InUse, taskId := taskId, lastUpdated := now)];
      resp := Response(200, JObj([("account_id", JStr(id)), ("role_arn", JStr(account.roleArn))]));
    }

    method Release(accountId: Option<string>, taskId: Option<string>, now: int) returns (resp: Response)
      modifies this
      ensures ReleaseOutcome(old(table), old(events), table, events, accountId, taskId, now, resp)
      ensures old(Valid()) ==> Valid()
    {
      if !Given(accountId) || !Given(taskId) {
        return Response(400, ErrorBody("Missing required parameters: account_id and task_id"));
      }
      var id := accountId.value;
      if id in table && table[id].status == InUse && table[id].taskId == taskId {
        table := table[id := table[id].(status := Available, taskId := None, lastUpdated := now)];
        resp := Response(200, MessageBody("Account " + id + " released successfully"));
      } else {
        resp := Response(400, ErrorBody("Account " + id + " not found, not in use, or owned by different task"));
      }
    }

    /**
     * `list_accounts` as written: the scanned items carry their timestamps as
     * `Decimal`, which `json.dumps` refuses, so only an empty table lists.
     */
    method ListAsWritten(order: seq<string>) returns (resp: Response)
      requires IsScanOrder(order, table)
      ensures |order| == 0 ==> resp == Response(200, JArr([]))
      ensures |order| > 0 ==> resp == Response(500, ErrorBody("Internal error: " + DecimalNotSerializable))
    {
      var items := ScannedItems(order, table);
      var perm := SortPositions(items);
      var listed := Reorder(items, perm);
      if |listed| > 0 {
        NonEmptyScanNotSerialisable(listed);
      } else {
        assert seq(|listed|, i requires 0 <= i < |listed| => AccountJson(listed[i])) == [];
      }
      if Serialisable(listed) {
        resp := Response(200, JArr(seq(|listed|, i requires 0 <= i < |listed| => AccountJson(listed[i]))));
      } else {
        resp := Response(500, ErrorBody("Internal error: " + DecimalNotSerializable));
      }
    }

    /** `list_accounts` with the numbers converted: every account once, AVAILABLE first, each group by ascending `last_updated`, ties in scan order. */
    method List(order: seq<string>) returns (resp: Response, perm: seq<nat>)
      requires IsScanOrder(order, table)
      ensures ListOutcome(table, order, perm, resp)
    {
      var items := ScannedItems(order, table);
      perm := SortPositions(items);
      var listed := Reorder(items, perm);
      resp := Response(200, JArr(seq(|listed|, i requires 0 <= i < |listed| => AccountJson(listed[i]))));
    }

    method CleanupStale(order: seq<string>, now: int) returns (resp: Response)
      requires IsScanOrder(order, table)
      modifies this
      ensures CleanupOutcome(old(table), old(events), table, events, order, now, resp)
    {
      var cleaned;
      table, cleaned := ResetStale(order, table, now);
      resp := Response(200, JObj([
        ("message", JStr("Cleaned up " + NatToString(|cleaned|) + " stale accounts")),
        ("accounts", StrList(cleaned))]));
    }

    /**
     * `lambda_handler`: dispatch on the operation, each with the outcome of its
     * own operation; an unknown one is refused without touching the table.
     */
    method Handle(req: Request, order: seq<string>, now: int) returns (resp: Response)
      requires IsScanOrder(order, table)
      modifies this
      ensures req.operation == Some("register_account") ==>
        RegisterOutcome(old(table), old(events), table, events, req.accountId, req.roleArn, now, resp)
      ensures req.operation == Some("deregister_account") ==>
        DeregisterOutcome(old(table), old(events), table, events, req.accountId, resp)
      ensures req.operation == Some("acquire_account") ==>
        AcquireOutcome(old(table), old(events), table, events, req.taskId, order, now, resp)
      ensures req.operation == Some("release_account") ==>
        ReleaseOutcome(old(table), old(events), table, events, req.accountId, req.taskId, now, resp)
      ensures req.operation == Some("list_accounts") ==>
        table == old(table) && events == old(events)
        && exists perm :: ListOutcome(table, order, perm, resp)
      ensures req.operation == Some("cleanup_stale_accounts") ==>
        CleanupOutcome(old(table), old(events), table, events, order, now, resp)
      ensures req.operation !in {Some("register_account"), Some("deregister_account"), Some("acquire_account"),
                                 Some("release_account"), Some("list_accounts"), Some("cleanup_stale_accounts")} ==>
        resp == Response(400, ErrorBody("Unknown operation: " + ShowOptional(req.operation)))
        && table == old(table) && events == old(events)
      ensures old(Valid()) ==> Valid()
    {
      if req.operation == Some("register_account") {
        resp := Register(req.accountId, req.roleArn, now);
      } else if req.operation == Some("deregister_account") {
        resp := Deregister(req.accountId);
      } else if req.operation == Some("acquire_account") {
        resp := Acquire(req.taskId, order, now);
      } else if req.operation == Some("release_account") {
        resp := Release(req.accountId, req.taskId, now);
      } else if req.operation == Some("list_accounts") {
        var perm;
        resp, perm := List(order);
      } else if req.operation == Some("cleanup_stale_accounts") {
        resp := CleanupStale(order, now);
        if old(Valid()) {
          CleanupKeepsOwners(old(table), now);
        }
      } else {
        resp := Response(400, ErrorBody("Unknown operation: " + ShowOptional(req.operation)));
      }
    }
  }

  /** The items of the table in scan order. */
  function ScannedItems(order: seq<string>, t: Table): (items: seq<Account>)
    requires forall id :: id in order ==> id in t
    ensures |items| == |order| && forall i :: 0 <= i < |order| ==> items[i] == t[order[i]]
  {
    seq(|order|, i requires 0 <= i < |order| => t[order[i]])
  }

  function StatusName(s: Status): string {
    if s == Available then "AVAILABLE" else "IN_USE"
  }

  /** A record as `json.dumps` writes it. */
  function AccountJson(a: Account): Json {
    JObj([("account_id", JStr(a.accountId)), ("role_arn", JStr(a.roleArn)), ("status", JStr(StatusName(a.status)))]
      + (if a.taskId.Some? then [("task_id", JStr(a.taskId.value))] else [])
      + [("registered_at", JInt(a.registeredAt)), ("last_updated", JInt(a.lastUpdated))])
  }

  /** In a listing, AVAILABLE accounts come first, each group ordered by `last_updated`, ties kept in scan order. */
  lemma ListingOrder(items: seq<Account>, perm: seq<nat>, i: nat, j: nat)
    requires SortedPositions(items, perm) && i < j < |perm|
    ensures var listed := Reorder(items, perm);
      (listed[i].status != Available ==> listed[j].status != Available)
      && ((listed[i].status == Available) == (listed[j].status == Available) ==> listed[i].lastUpdated <= listed[j].lastUpdated)
      && (SameKey(listed[i], listed[j]) ==> perm[i] < perm[j])
  {
    assert Before(items, perm[i], perm[j]);
  }

  /** Cleanup keeps the owner invariant, which all other operations keep by their contracts. */
  lemma CleanupKeepsOwners(t: Table, now: int)
    requires Owned(t)
    ensures Owned(CleanedTable(t, now))
  {
    CleanupResetsStale(t, now);
  }
}
