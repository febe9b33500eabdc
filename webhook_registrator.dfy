/**
 * The CloudFormation custom resource that registers the repository webhook:
 * on Create it registers (or finds) a hook for the receiver URL, on Update
 * it moves the hook when the repository or URL changed, on Delete it removes
 * the hook. CloudFormation gets one SUCCESS or FAILED response.
 *
 * GitHub's hook lists are a class whose state the handler changes; the
 * secret store's answers are inputs.
 */
module WebhookRegistrator {
  import opened Wrappers
  import opened Strings
  import opened JsonValue

  /** A hook as GitHub lists it: its id and its `config` object. */
  datatype Hook = Hook(id: int, config: seq<(string, Json)>)

  /** `webhook.get('config', {}).get('url') == url`. */
  predicate Matches(h: Hook, url: string) {
    Field(h.config, "url") == Some(JStr(url))
  }

  /** The position of the first hook for `url`, the one the handler's `for … break` loops stop at. */
  function FirstWithUrl(hooks: seq<Hook>, url: string): (r: Option<nat>)
    ensures r.Some? ==> r.value < |hooks| && Matches(hooks[r.value], url)
    ensures r.Some? ==> forall k :: 0 <= k < r.value ==> !Matches(hooks[k], url)
    ensures r.None? <==> forall k :: 0 <= k < |hooks| ==> !Matches(hooks[k], url)
    decreases |hooks|
  {
    if |hooks| == 0 then None
    else if Matches(hooks[0], url) then Some(0)
    else match FirstWithUrl(hooks[1..], url)
      case None => None
      case Some(k) => Some(k + 1)
  }

  /** The loop over a fetched hook list: the first hook whose URL matches. */
  method FindHook(hooks: seq<Hook>, url: string) returns (found: Option<nat>)
    ensures found == FirstWithUrl(hooks, url)
  {
    var i := 0;
    while i < |hooks|
      invariant 0 <= i <= |hooks|
      invariant forall k :: 0 <= k < i ==> !Matches(hooks[k], url)
    {
      if Matches(hooks[i], url) {
        return Some(i);
      }
      i := i + 1;
    }
    return None;
  }

  /** The hook list without the hook at position `k`. */
  function RemoveAt(hooks: seq<Hook>, k: nat): (r: seq<Hook>)
    requires k < |hooks|
    ensures |r| == |hooks| - 1
    ensures forall i :: 0 <= i < k ==> r[i] == hooks[i]
    ensures forall i :: k <= i < |r| ==> r[i] == hooks[i + 1]
  {
    hooks[..k] + hooks[k + 1..]
  }

  /** The position of the hook with a given id. */
  function FirstWithId(hooks: seq<Hook>, id: int): (r: Option<nat>)
    ensures r.Some? ==> r.value < |hooks| && hooks[r.value].id == id
    ensures r.Some? ==> forall k :: 0 <= k < r.value ==> hooks[k].id != id
    ensures r.None? <==> forall k :: 0 <= k < |hooks| ==> hooks[k].id != id
    decreases |hooks|
  {
    if |hooks| == 0 then None
    else if hooks[0].id == id then Some(0)
    else match FirstWithId(hooks[1..], id)
      case None => None
      case Some(k) => Some(k + 1)
  }

  /** What a `DELETE …/hooks/{id}` leaves: the hook with that id is gone (an unknown id is a 404, which changes nothing). */
  function WithoutId(hooks: seq<Hook>, id: int): seq<Hook> {
    match FirstWithId(hooks, id)
    case None => hooks
    case Some(k) => RemoveAt(hooks, k)
  }

  ghost predicate DistinctIds(hooks: seq<Hook>) {
    forall i, j :: 0 <= i < j < |hooks| ==> hooks[i].id != hooks[j].id
  }

  /** With distinct ids, deleting the id of the hook at `k` removes exactly that hook. */
  lemma WithoutIdRemovesOne(hooks: seq<Hook>, k: nat)
    requires k < |hooks| && DistinctIds(hooks)
    ensures WithoutId(hooks, hooks[k].id) == RemoveAt(hooks, k)
  {
    var f := FirstWithId(hooks, hooks[k].id);
    assert f.Some?;
  }

  lemma RemoveAtKeepsDistinct(hooks: seq<Hook>, k: nat)
    requires k < |hooks| && DistinctIds(hooks)
    ensures DistinctIds(RemoveAt(hooks, k))
  {
    var r := RemoveAt(hooks, k);
    forall i, j | 0 <= i < j < |r|
      ensures r[i].id != r[j].id
    {
      var i' := if i < k then i else i + 1;
      var j' := if j < k then j else j + 1;
      assert r[i] == hooks[i'] && r[j] == hooks[j'];
    }
  }

  // ---------------------------------------------------------------- the hook payload

  /** The body of `POST …/hooks`: an active "web" hook on "issues" sending JSON to `url`, with the secret when there is one. */
  function HookPayload(url: string, secret: string): Json {
    JObj([
      ("name", JStr("web")),
      ("active", JBool(true)),
      ("events", JArr([JStr("issues")])),
      ("config", JObj([
        ("url", JStr(url)),
        ("content_type", JStr("json")),
        ("insecure_ssl", JStr("0"))]
        + (if secret != "" then [("secret", JStr(secret))] else [])))])
  }

  /** The `config` object a created hook keeps. */
  function ConfigOf(payload: Json): seq<(string, Json)> {
    if payload.JObj? && Field(payload.fields, "config").Some? && Field(payload.fields, "config").value.JObj? then
      Field(payload.fields, "config").value.fields
    else []
  }

  /**
   * The payload is an active "web" hook subscribed to issue events only,
   * sends JSON to `url`, and carries the secret exactly when it is non-empty.
   */
  lemma PayloadContents(url: string, secret: string)
    ensures var p := HookPayload(url, secret);
      Field(p.fields, "name") == Some(JStr("web"))
      && Field(p.fields, "events") == Some(JArr([JStr("issues")]))
      && Field(p.fields, "active") == Some(JBool(true))
      && Field(ConfigOf(p), "url") == Some(JStr(url))
      && Field(ConfigOf(p), "content_type") == Some(JStr("json"))
      && Field(ConfigOf(p), "secret") == (if secret != "" then Some(JStr(secret)) else None)
  {
    var p := HookPayload(url, secret);
    FieldAt(p.fields, 0);
    FieldAt(p.fields, 1);
    FieldAt(p.fields, 2);
    FieldAt(p.fields, 3);
    var c := ConfigOf(p);
    FieldAt(c, 0);
    FieldAt(c, 1);
    if secret != "" {
      FieldAt(c, 3);
    } else {
      FieldMissing(c, "secret");
    }
  }

  // ---------------------------------------------------------------- GitHub

  type RepoKey = (string, string)

  const NotFound := "HTTP Error 404: Not Found"

  /** `get_webhooks` over GitHub's hook lists: a listing error is raised, and a 404 gives the empty list. */
  function ListingIn(hooks: map<RepoKey, seq<Hook>>, failures: map<RepoKey, string>, key: RepoKey): (r: Result<seq<Hook>>)
    ensures key in failures <==> r.Err?
    ensures key !in failures && key !in hooks ==> r == Ok([])
    ensures key !in failures && key in hooks ==> r == Ok(hooks[key])
  {
    if key in failures then Err(failures[key])
    else if key !in hooks then Ok([])
    else Ok(hooks[key])
  }

  /**
   * The id of the first listed hook for `url`: the one the delete loop
   * reports (even when its deletion then fails), the one registration
   * reuses, and the one an unchanged Update reports.
   */
  function ListedId(hooks: map<RepoKey, seq<Hook>>, failures: map<RepoKey, string>, key: RepoKey, url: string): Option<string> {
    var listing := ListingIn(hooks, failures, key);
    if listing.Err? || FirstWithUrl(listing.value, url).None? then None
    else Some(IntToString(listing.value[FirstWithUrl(listing.value, url).value].id))
  }

  /**
   * The hook lists after the delete loop for `url` in `key`: the first
   * listed hook for `url` is gone, unless the listing or the deletion
   * failed. No other repository changes.
   */
  function DeletedIn(hooks: map<RepoKey, seq<Hook>>, failures: map<RepoKey, string>, deleteFailures: map<RepoKey, string>,
                     key: RepoKey, url: string): (r: map<RepoKey, seq<Hook>>)
    ensures r.Keys == hooks.Keys
    ensures forall other :: other in hooks && other != key ==> r[other] == hooks[other]
    ensures ListedId(hooks, failures, key, url).None? || key in deleteFailures ==> r == hooks
  {
    var listing := ListingIn(hooks, failures, key);
    if listing.Err? || FirstWithUrl(listing.value, url).None? || key in deleteFailures then hooks
    else hooks[key := RemoveAt(listing.value, FirstWithUrl(listing.value, url).value)]
  }

  /** With distinct ids, a reported and deleted hook is the one hook of that id to leave its repository; the others stay. */
  lemma {:induction false} DeletedInRemovesReported(hooks: map<RepoKey, seq<Hook>>, failures: map<RepoKey, string>,
                                                    deleteFailures: map<RepoKey, string>, key: RepoKey, url: string)
    requires key in hooks ==> DistinctIds(hooks[key])
    requires ListedId(hooks, failures, key, url).Some? && key !in deleteFailures
    ensures var listing := ListingIn(hooks, failures, key).value;
      var gone := listing[FirstWithUrl(listing, url).value];
      var after := DeletedIn(hooks, failures, deleteFailures, key, url);
      key in hooks && |after[key]| == |hooks[key]| - 1
      && ListedId(hooks, failures, key, url) == Some(IntToString(gone.id))
      && (forall h :: h in after[key] ==> h.id != gone.id)
      && (forall h :: h in hooks[key] && h.id != gone.id ==> h in after[key])
  {
    var listing := ListingIn(hooks, failures, key).value;
    var k := FirstWithUrl(listing, url).value;
    assert key in hooks && listing == hooks[key];
    var after := DeletedIn(hooks, failures, deleteFailures, key, url);
    assert after[key] == RemoveAt(listing, k);
    forall h: Hook | h in after[key]
      ensures h.id != listing[k].id
    {
      var i :| 0 <= i < |after[key]| && after[key][i] == h;
      if i < k {
        assert h == listing[i];
      } else {
        assert h == listing[i + 1];
      }
    }
    forall h: Hook | h in hooks[key] && h.id != listing[k].id
      ensures h in after[key]
    {
      var i :| 0 <= i < |listing| && listing[i] == h;
      if i < k {
        assert after[key][i] == h;
      } else {
        assert i != k;
        assert after[key][i - 1] == h;
      }
    }
  }

  /** Whether registering `url` in `key` creates a hook: the listing works and finds none, and GitHub accepts the POST. */
  predicate Creates(hooks: map<RepoKey, seq<Hook>>, failures: map<RepoKey, string>, createFailures: map<RepoKey, string>,
                    key: RepoKey, url: string)
  {
    var listing := ListingIn(hooks, failures, key);
    listing.Ok? && FirstWithUrl(listing.value, url).None? && key !in createFailures && key in hooks
  }

  /** Whether registering `url` in `key` raises: the listing fails, or it finds none and GitHub refuses the POST. */
  predicate RegisterFails(hooks: map<RepoKey, seq<Hook>>, failures: map<RepoKey, string>, createFailures: map<RepoKey, string>,
                          key: RepoKey, url: string)
  {
    var listing := ListingIn(hooks, failures, key);
    listing.Err? || (FirstWithUrl(listing.value, url).None? && (key in createFailures || key !in hooks))
  }

  /**
   * The hook lists after registering `url` in `key`: a new hook with the
   * next id at the end of the repository's list when one is created, and
   * nothing changed otherwise. No other repository changes.
   */
  function RegisteredIn(hooks: map<RepoKey, seq<Hook>>, failures: map<RepoKey, string>, createFailures: map<RepoKey, string>,
                        nextId: int, key: RepoKey, url: string, secret: string): (r: map<RepoKey, seq<Hook>>)
    ensures r.Keys == hooks.Keys
    ensures forall other :: other in hooks && other != key ==> r[other] == hooks[other]
    ensures !Creates(hooks, failures, createFailures, key, url) ==> r == hooks
  {
    if Creates(hooks, failures, createFailures, key, url) then
      hooks[key := hooks[key] + [Hook(nextId, ConfigOf(HookPayload(url, secret)))]]
    else hooks
  }

  /** The id registering `url` in `key` answers: the listing's error, the listed hook's id, or the new hook's id unless GitHub refuses the POST. */
  function RegisteredId(hooks: map<RepoKey, seq<Hook>>, failures: map<RepoKey, string>, createFailures: map<RepoKey, string>,
                        nextId: int, key: RepoKey, url: string): (r: Result<string>)
    ensures r.Err? <==> RegisterFails(hooks, failures, createFailures, key, url)
    ensures key in failures ==> r == Err(failures[key])
    ensures ListedId(hooks, failures, key, url).Some? ==> r == Ok(ListedId(hooks, failures, key, url).value)
    ensures Creates(hooks, failures, createFailures, key, url) ==> r == Ok(IntToString(nextId))
  {
    var listing := ListingIn(hooks, failures, key);
    if listing.Err? then Err(listing.error)
    else if FirstWithUrl(listing.value, url).Some? then Ok(IntToString(listing.value[FirstWithUrl(listing.value, url).value].id))
    else if key in createFailures then Err(createFailures[key])
    else if key !in hooks then Err(NotFound)
    else Ok(IntToString(nextId))
  }

  /** The id a successful registration answers is the one the next listing finds for the URL. */
  lemma {:induction false} RegisteredIdListed(hooks: map<RepoKey, seq<Hook>>, failures: map<RepoKey, string>,
                                              createFailures: map<RepoKey, string>, nextId: int, key: RepoKey, url: string, secret: string)
    requires RegisteredId(hooks, failures, createFailures, nextId, key, url).Ok?
    ensures ListedId(RegisteredIn(hooks, failures, createFailures, nextId, key, url, secret), failures, key, url)
            == Some(RegisteredId(hooks, failures, createFailures, nextId, key, url).value)
  {
    if Creates(hooks, failures, createFailures, key, url) {
      var h := Hook(nextId, ConfigOf(HookPayload(url, secret)));
      PayloadContents(url, secret);
      FirstWithUrlAfterAppend(hooks[key], h, url);
      assert ListingIn(RegisteredIn(hooks, failures, createFailures, nextId, key, url, secret), failures, key) == Ok(hooks[key] + [h]);
      assert |hooks[key] + [h]| == |hooks[key]| + 1;
    }
  }

  /** Registering the same URL again creates nothing more, whatever id would come next. */
  lemma {:induction false} RegisterTwiceCreatesOnce(hooks: map<RepoKey, seq<Hook>>, failures: map<RepoKey, string>,
                                                    createFailures: map<RepoKey, string>, nextId: int, nextId': int,
                                                    key: RepoKey, url: string, secret: string)
    ensures var once := RegisteredIn(hooks, failures, createFailures, nextId, key, url, secret);
      !Creates(once, failures, createFailures, key, url)
      && RegisteredIn(once, failures, createFailures, nextId', key, url, secret) == once
  {
    var once := RegisteredIn(hooks, failures, createFailures, nextId, key, url, secret);
    if Creates(hooks, failures, createFailures, key, url) {
      var h := Hook(nextId, ConfigOf(HookPayload(url, secret)));
      PayloadContents(url, secret);
      FirstWithUrlAfterAppend(hooks[key], h, url);
      assert ListingIn(once, failures, key) == Ok(hooks[key] + [h]);
    }
  }

  /**
   * The hooks of every repository, in listing order. A repository that is
   * not in `hooks` answers 404; one in `failures` answers every listing
   * with that error, one in `deleteFailures` every deletion and one in
   * `createFailures` every creation.
   */
  class GitHub {
    var hooks: map<RepoKey, seq<Hook>>
    const failures: map<RepoKey, string>
    const deleteFailures: map<RepoKey, string>
    const createFailures: map<RepoKey, string>
    var nextId: int

    ghost predicate Valid()
      reads this
    {
      (forall key, i :: key in hooks && 0 <= i < |hooks[key]| ==> hooks[key][i].id < nextId)
      && (forall key :: key in hooks ==> DistinctIds(hooks[key]))
    }

    constructor (hooks: map<RepoKey, seq<Hook>>, failures: map<RepoKey, string>, deleteFailures: map<RepoKey, string>,
                 createFailures: map<RepoKey, string>, nextId: int)
      requires forall key, i :: key in hooks && 0 <= i < |hooks[key]| ==> hooks[key][i].id < nextId
      requires forall key :: key in hooks ==> DistinctIds(hooks[key])
      ensures Valid()
      ensures this.hooks == hooks && this.nextId == nextId
      ensures this.failures == failures && this.deleteFailures == deleteFailures && this.createFailures == createFailures
    {
      this.hooks := hooks;
      this.failures := failures;
      this.deleteFailures := deleteFailures;
      this.createFailures := createFailures;
      this.nextId := nextId;
    }

    /** `get_webhooks`: a 404 gives the empty list, any other error is raised. */
    function Listing(owner: string, repo: string): (r: Result<seq<Hook>>)
      reads this
      ensures r == ListingIn(hooks, failures, (owner, repo))
      ensures (owner, repo) !in failures && (owner, repo) !in hooks ==> r == Ok([])
    {
      ListingIn(hooks, failures, (owner, repo))
    }

    /** `delete_webhook`: a 404 counts as deleted; any other error is raised. */
    method DeleteHook(owner: string, repo: string, id: int) returns (err: Option<string>)
      requires Valid()
      modifies this
      ensures Valid()
      ensures (owner, repo) in deleteFailures ==> err == Some(deleteFailures[(owner, repo)]) && unchanged(this)
      ensures (owner, repo) !in deleteFailures && (owner, repo) !in old(hooks) ==> err.None? && unchanged(this)
      ensures (owner, repo) !in deleteFailures && (owner, repo) in old(hooks) ==>
        err.None? && nextId == old(nextId)
        && hooks == old(hooks)[(owner, repo) := WithoutId(old(hooks)[(owner, repo)], id)]
    {
      var key := (owner, repo);
      if key in deleteFailures {
        return Some(deleteFailures[key]);
      }
      if key !in hooks {
        return None;
      }
      var f := FirstWithId(hooks[key], id);
      if f.Some? {
        RemoveAtKeepsDistinct(hooks[key], f.value);
      }
      hooks := hooks[key := WithoutId(hooks[key], id)];
      return None;
    }

    /** `POST …/hooks`: the new hook gets the next id and goes to the end of the list. */
    method CreateHook(owner: string, repo: string, payload: Json) returns (r: Result<int>)
      requires Valid()
      modifies this
      ensures Valid()
      ensures (owner, repo) in createFailures ==> r == Err(createFailures[(owner, repo)]) && unchanged(this)
      ensures (owner, repo) !in createFailures && (owner, repo) !in old(hooks) ==> r == Err(NotFound) && unchanged(this)
      ensures (owner, repo) !in createFailures && (owner, repo) in old(hooks) ==>
        r == Ok(old(nextId)) && nextId == old(nextId) + 1
        && hooks == old(hooks)[(owner, repo) := old(hooks)[(owner, repo)] + [Hook(old(nextId), ConfigOf(payload))]]
    {
      var key := (owner, repo);
      if key in createFailures {
        return Err(createFailures[key]);
      }
      if key !in hooks {
        return Err(NotFound);
      }
      var id := nextId;
      hooks := hooks[key := hooks[key] + [Hook(id, ConfigOf(payload))]];
      nextId := nextId + 1;
      return Ok(id);
    }
  }

  /** A new hook for `url` is found by the next search for `url`. */
  lemma FirstWithUrlAfterAppend(hs: seq<Hook>, h: Hook, url: string)
    requires FirstWithUrl(hs, url).None? && Matches(h, url)
    ensures FirstWithUrl(hs + [h], url) == Some(|hs|)
  {
    var r := FirstWithUrl(hs + [h], url);
    assert (hs + [h])[|hs|] == h;
    assert forall k :: 0 <= k < |hs| ==> (hs + [h])[k] == hs[k];
  }

  /**
   * `register_webhook`: the first listed hook for `url` is reused and
   * nothing is created; otherwise one hook is created. After a success the
   * returned id is the first listed hook for `url`, so registering again
   * returns it and changes nothing.
   */
  method RegisterWebhook(gh: GitHub, owner: string, repo: string, url: string, secret: string) returns (r: Result<string>)
    requires gh.Valid()
    modifies gh
    ensures gh.Valid()
    ensures gh.hooks == RegisteredIn(old(gh.hooks), gh.failures, gh.createFailures, old(gh.nextId), (owner, repo), url, secret)
    ensures gh.nextId == old(gh.nextId) + (if Creates(old(gh.hooks), gh.failures, gh.createFailures, (owner, repo), url) then 1 else 0)
    ensures r.Err? <==> RegisterFails(old(gh.hooks), gh.failures, gh.createFailures, (owner, repo), url)
    ensures old(gh.Listing(owner, repo)).Err? ==> r == Err(old(gh.Listing(owner, repo)).error)
    ensures old(gh.Listing(owner, repo)).Ok? && FirstWithUrl(old(gh.Listing(owner, repo)).value, url).Some? ==>
      r == Ok(IntToString(old(gh.Listing(owner, repo)).value[FirstWithUrl(old(gh.Listing(owner, repo)).value, url).value].id))
    ensures old(gh.Listing(owner, repo)).Ok? && FirstWithUrl(old(gh.Listing(owner, repo)).value, url).None? ==>
      r == (if (owner, repo) in gh.createFailures then Err(gh.createFailures[(owner, repo)])
            else if (owner, repo) !in old(gh.hooks) then Err(NotFound)
            else Ok(IntToString(old(gh.nextId))))
    ensures r == RegisteredId(old(gh.hooks), gh.failures, gh.createFailures, old(gh.nextId), (owner, repo), url)
    ensures r.Ok? ==>
      (gh.Listing(owner, repo).Ok?
       && FirstWithUrl(gh.Listing(owner, repo).value, url).Some?
       && r.value == IntToString(gh.Listing(owner, repo).value[FirstWithUrl(gh.Listing(owner, repo).value, url).value].id))
  {
    var listing := gh.Listing(owner, repo);
    if listing.Err? {
      return Err(listing.error);
    }
    var found := FindHook(listing.value, url);
    if found.Some? {
      return Ok(IntToString(listing.value[found.value].id));
    }
    ghost var before := listing.value;
    var payload := HookPayload(url, secret);
    var created := gh.CreateHook(owner, repo, payload);
    if created.Err? {
      return Err(created.error);
    }
    PayloadContents(url, secret);
    FirstWithUrlAfterAppend(before, Hook(created.value, ConfigOf(payload)), url);
    return Ok(IntToString(created.value));
  }

  /**
   * The loop that deletes the first hook for `url` and reports its id. A
   * listing error is swallowed, and the id is kept even if the deletion
   * raises.
   */
  method DeleteMatching(gh: GitHub, owner: string, repo: string, url: string) returns (id: Option<string>)
    requires gh.Valid()
    modifies gh
    ensures gh.Valid()
    ensures id == ListedId(old(gh.hooks), gh.failures, (owner, repo), url)
    ensures gh.hooks == DeletedIn(old(gh.hooks), gh.failures, gh.deleteFailures, (owner, repo), url)
    ensures gh.nextId == old(gh.nextId)
  {
    var listing := gh.Listing(owner, repo);
    if listing.Err? {
      return None;
    }
    var found := FindHook(listing.value, url);
    if found.None? {
      return None;
    }
    var hook := listing.value[found.value];
    id := Some(IntToString(hook.id));
    WithoutIdRemovesOne(listing.value, found.value);
    var _ := gh.DeleteHook(owner, repo, hook.id);
  }

  // ---------------------------------------------------------------- the custom resource

  datatype RequestType = CreateRequest | UpdateRequest | DeleteRequest | OtherRequest(name: string)

  datatype Properties = Properties(repo: Option<string>, url: Option<string>, tokenArn: Option<string>, secretArn: Option<string>)

  /** A custom-resource event; the context's request id names a resource that has no physical id yet. */
  datatype Request = Request(
    requestType: RequestType,
    props: Properties,
    previous: Properties,
    physicalId: Option<string>,
    awsRequestId: string)

  /** What the secret store returned for the token and for the webhook secret. */
  datatype Secrets = Secrets(token: Result<string>, secret: Result<string>)

  datatype Status = SUCCESS | FAILED

  datatype Data =
    | Failure(error: string)
    | Success(webhookId: string, webhookUrl: string, gitHubRepo: string, oldWebhookId: Option<Option<string>>)

  datatype Response = Response(status: Status, data: Data, physicalId: string)

  const MissingProperties := "Missing required properties: GitHubRepo, WebhookUrl, GitHubTokenSecretArn, or WebhookSecretArn"

  function PhysicalId(req: Request): string {
    if req.physicalId.Some? then req.physicalId.value else "github-webhook-" + req.awsRequestId
  }

  predicate Truthy(x: Option<string>) {
    x.Some? && x.value != ""
  }

  /** `owner, repo = s.split('/')`: exactly two parts, either may be empty. */
  function SplitRepo(s: string): (r: Option<RepoKey>)
    ensures r.Some? ==> s == r.value.0 + "/" + r.value.1 && '/' !in r.value.0 && '/' !in r.value.1
  {
    var parts := Split(s, '/');
    if |parts| == 2 then
      SplitJoin(s, '/');
      assert Join(parts, "/") == parts[0] + "/" + Join(parts[1..], "/");
      Some((parts[0], parts[1]))
    else None
  }

  /** Every "owner/repo" whose halves have no slash splits back into them. */
  lemma SplitRepoOfPair(owner: string, repo: string)
    requires '/' !in owner && '/' !in repo
    ensures SplitRepo(owner + "/" + repo) == Some((owner, repo))
  {
    var parts := [owner, repo];
    assert Join(parts, "/") == owner + "/" + repo;
    JoinSplit(parts, '/');
  }

  /** A text with no slash, or with more than one, is not a repository. */
  lemma SplitRepoRejects(s: string)
    requires '/' !in s || exists i, j :: 0 <= i < j < |s| && s[i] == '/' && s[j] == '/'
    ensures SplitRepo(s).None?
  {
  }

  /**
   * The checks before any GitHub call, in the handler's order: the four
   * properties, the token, the secret, the repository format. `Ok` carries
   * the owner, the repository and the secret.
   */
  function Precheck(req: Request, secrets: Secrets): (r: Result<(string, string, string)>)
    ensures r.Ok? <==>
      Truthy(req.props.repo) && Truthy(req.props.url) && Truthy(req.props.tokenArn) && Truthy(req.props.secretArn)
      && secrets.token.Ok? && secrets.secret.Ok? && SplitRepo(req.props.repo.value).Some?
    ensures !(Truthy(req.props.repo) && Truthy(req.props.url) && Truthy(req.props.tokenArn) && Truthy(req.props.secretArn)) ==>
      r == Err(MissingProperties)
    ensures r.Ok? ==>
      r.value == (SplitRepo(req.props.repo.value).value.0, SplitRepo(req.props.repo.value).value.1, secrets.secret.value)
  {
    var p := req.props;
    if !(Truthy(p.repo) && Truthy(p.url) && Truthy(p.tokenArn) && Truthy(p.secretArn)) then Err(MissingProperties)
    else if secrets.token.Err? then Err(secrets.token.error)
    else if secrets.secret.Err? then Err(secrets.secret.error)
    else match SplitRepo(p.repo.value)
      case None => Err("Invalid GitHub repository format: " + p.repo.value + ". Expected format: owner/repo")
      case Some(key) => Ok((key.0, key.1, secrets.secret.value))
  }

  /** The repository the previous properties name, when they name one and a URL. */
  function PreviousKey(previous: Properties): (r: Option<RepoKey>)
    ensures r.Some? ==> Truthy(previous.repo) && Truthy(previous.url) && SplitRepo(previous.repo.value) == r
  {
    if Truthy(previous.repo) && Truthy(previous.url) then SplitRepo(previous.repo.value) else None
  }

  /** The hook lists after the Update step's clean-up of the previous hook. */
  function CleanedIn(hooks: map<RepoKey, seq<Hook>>, failures: map<RepoKey, string>, deleteFailures: map<RepoKey, string>,
                     previous: Properties): (r: map<RepoKey, seq<Hook>>)
    ensures r.Keys == hooks.Keys
    ensures forall other :: other in hooks && Some(other) != PreviousKey(previous) ==> r[other] == hooks[other]
  {
    match PreviousKey(previous)
    case None => hooks
    case Some(key) => DeletedIn(hooks, failures, deleteFailures, key, previous.url.value)
  }

  /** The old hook id the Update step reports. */
  function CleanedId(hooks: map<RepoKey, seq<Hook>>, failures: map<RepoKey, string>, previous: Properties): Option<string> {
    match PreviousKey(previous)
    case None => None
    case Some(key) => ListedId(hooks, failures, key, previous.url.value)
  }

  /** The old hook the Update step removes, when the previous properties name one; any error on the way is swallowed. */
  method CleanupPrevious(gh: GitHub, previous: Properties) returns (oldId: Option<string>)
    requires gh.Valid()
    modifies gh
    ensures gh.Valid()
    ensures oldId == CleanedId(old(gh.hooks), gh.failures, previous)
    ensures gh.hooks == CleanedIn(old(gh.hooks), gh.failures, gh.deleteFailures, previous)
    ensures gh.nextId == old(gh.nextId)
  {
    if !(Truthy(previous.repo) && Truthy(previous.url)) {
      return None;
    }
    var key := SplitRepo(previous.repo.value);
    if key.None? {
      return None;
    }
    oldId := DeleteMatching(gh, key.value.0, key.value.1, previous.url.value);
  }

  /**
   * Update with the repository or the URL changed: remove the old hook, then
   * register in the new repository. The clean-up stays done when the
   * registration fails; repositories other than the old and the new one are
   * untouched.
   */
  method UpdateChanged(gh: GitHub, req: Request, owner: string, repo: string, secret: string) returns (resp: Response)
    requires gh.Valid() && Truthy(req.props.repo) && Truthy(req.props.url)
    modifies gh
    ensures gh.Valid()
    ensures var cleaned := CleanedIn(old(gh.hooks), gh.failures, gh.deleteFailures, req.previous);
      gh.hooks == RegisteredIn(cleaned, gh.failures, gh.createFailures, old(gh.nextId), (owner, repo), req.props.url.value, secret)
      && (resp.status == FAILED <==> RegisterFails(cleaned, gh.failures, gh.createFailures, (owner, repo), req.props.url.value))
    ensures gh.hooks.Keys == old(gh.hooks).Keys
    ensures forall other :: other in old(gh.hooks) && other != (owner, repo) && Some(other) != PreviousKey(req.previous) ==>
      gh.hooks[other] == old(gh.hooks)[other]
    ensures resp.status == SUCCESS ==>
      resp.data.Success? && resp.physicalId == resp.data.webhookId
      && resp.data.oldWebhookId == Some(CleanedId(old(gh.hooks), gh.failures, req.previous))
      && gh.Listing(owner, repo).Ok? && FirstWithUrl(gh.Listing(owner, repo).value, req.props.url.value).Some?
      && resp.data.webhookId
         == IntToString(gh.Listing(owner, repo).value[FirstWithUrl(gh.Listing(owner, repo).value, req.props.url.value).value].id)
    ensures resp.status == FAILED ==> resp.data.Failure? && resp.physicalId == PhysicalId(req)
    ensures var cleaned := CleanedIn(old(gh.hooks), gh.failures, gh.deleteFailures, req.previous);
      var reg := RegisteredId(cleaned, gh.failures, gh.createFailures, old(gh.nextId), (owner, repo), req.props.url.value);
      resp == if reg.Err? then Response(FAILED, Failure(reg.error), PhysicalId(req))
              else Response(SUCCESS, Success(reg.value, req.props.url.value, req.props.repo.value,
                                             Some(CleanedId(old(gh.hooks), gh.failures, req.previous))), reg.value)
  {
    var oldId := CleanupPrevious(gh, req.previous);
    var registered := RegisterWebhook(gh, owner, repo, req.props.url.value, secret);
    if registered.Err? {
      return Response(FAILED, Failure(registered.error), PhysicalId(req));
    }
    return Response(SUCCESS, Success(registered.value, req.props.url.value, req.props.repo.value, Some(oldId)), registered.value);
  }

  /** Update with nothing changed: no hook is touched; the reported id is the hook found for the URL, or the physical id. */
  method UpdateSame(gh: GitHub, req: Request, owner: string, repo: string) returns (resp: Response)
    requires Truthy(req.props.repo) && Truthy(req.props.url)
    ensures var listing := gh.Listing(owner, repo);
      var id :=
        if listing.Ok? && FirstWithUrl(listing.value, req.props.url.value).Some? then
          IntToString(listing.value[FirstWithUrl(listing.value, req.props.url.value).value].id)
        else PhysicalId(req);
      resp == Response(SUCCESS, Success(id, req.props.url.value, req.props.repo.value, None), id)
    ensures var listed := ListedId(gh.hooks, gh.failures, (owner, repo), req.props.url.value);
      resp.data.Success? && resp.data.webhookId == resp.physicalId
      && resp.physicalId == if listed.Some? then listed.value else PhysicalId(req)
  {
    var id := PhysicalId(req);
    var listing := gh.Listing(owner, repo);
    if listing.Ok? {
      var found := FindHook(listing.value, req.props.url.value);
      if found.Some? {
        id := IntToString(listing.value[found.value].id);
      }
    }
    return Response(SUCCESS, Success(id, req.props.url.value, req.props.repo.value, None), id);
  }

  /**
   * Delete: remove the first hook for the URL; the response always says
   * SUCCESS, keeps the physical id, and reports the physical id when no hook
   * matched.
   */
  method DeleteResource(gh: GitHub, req: Request, owner: string, repo: string) returns (resp: Response)
    requires gh.Valid() && Truthy(req.props.repo) && Truthy(req.props.url)
    modifies gh
    ensures gh.Valid()
    ensures gh.hooks == DeletedIn(old(gh.hooks), gh.failures, gh.deleteFailures, (owner, repo), req.props.url.value)
    ensures gh.nextId == old(gh.nextId)
    ensures var deleted := ListedId(old(gh.hooks), gh.failures, (owner, repo), req.props.url.value);
      var id := if deleted.Some? then deleted.value else PhysicalId(req);
      resp == Response(SUCCESS, Success(id, req.props.url.value, req.props.repo.value, None), PhysicalId(req))
  {
    var deleted := DeleteMatching(gh, owner, repo, req.props.url.value);
    var id := if deleted.Some? then deleted.value else PhysicalId(req);
    return Response(SUCCESS, Success(id, req.props.url.value, req.props.repo.value, None), PhysicalId(req));
  }

  /** The owner and repository the properties name, once the precheck passed. */
  function Target(req: Request, secrets: Secrets): RepoKey
    requires Precheck(req, secrets).Ok?
  {
    (Precheck(req, secrets).value.0, Precheck(req, secrets).value.1)
  }

  /**
   * `lambda_handler`. A failed precheck answers FAILED and touches no hook;
   * a request type other than Create, Update or Delete gets no response.
   * Create registers the hook; Update with the same repository and URL
   * touches no hook, and with either changed moves the hook; Delete removes
   * the hook and keeps the physical id.
   */
  method Handle(gh: GitHub, req: Request, secrets: Secrets) returns (resp: Option<Response>)
    requires gh.Valid()
    modifies gh
    ensures gh.Valid()
    ensures Precheck(req, secrets).Err? ==>
      resp == Some(Response(FAILED, Failure(Precheck(req, secrets).error), PhysicalId(req))) && unchanged(gh)
    ensures req.requestType.OtherRequest? && Precheck(req, secrets).Ok? ==> resp.None? && unchanged(gh)
    ensures req.requestType == CreateRequest && Precheck(req, secrets).Ok? ==>
      var key := Target(req, secrets);
      var url := req.props.url.value;
      gh.hooks == RegisteredIn(old(gh.hooks), gh.failures, gh.createFailures, old(gh.nextId), key, url, Precheck(req, secrets).value.2)
      && resp.Some?
      && (resp.value.status == FAILED <==> RegisterFails(old(gh.hooks), gh.failures, gh.createFailures, key, url))
      && (resp.value.status == SUCCESS ==>
            resp.value.data.Success? && resp.value.physicalId == resp.value.data.webhookId
            && gh.Listing(key.0, key.1).Ok? && FirstWithUrl(gh.Listing(key.0, key.1).value, url).Some?
            && resp.value.data.webhookId
               == IntToString(gh.Listing(key.0, key.1).value[FirstWithUrl(gh.Listing(key.0, key.1).value, url).value].id))
    ensures req.requestType == CreateRequest && Precheck(req, secrets).Ok? ==>
      var reg := RegisteredId(old(gh.hooks), gh.failures, gh.createFailures, old(gh.nextId), Target(req, secrets), req.props.url.value);
      resp == Some(if reg.Err? then Response(FAILED, Failure(reg.error), PhysicalId(req))
                   else Response(SUCCESS, Success(reg.value, req.props.url.value, req.props.repo.value, None), reg.value))
    ensures req.requestType == UpdateRequest && req.previous.repo == req.props.repo && req.previous.url == req.props.url ==>
      unchanged(gh) && resp.Some? && (Precheck(req, secrets).Ok? ==> resp.value.status == SUCCESS)
    ensures req.requestType == UpdateRequest && req.previous.repo == req.props.repo && req.previous.url == req.props.url
            && Precheck(req, secrets).Ok? ==>
      var listed := ListedId(gh.hooks, gh.failures, Target(req, secrets), req.props.url.value);
      var id := if listed.Some? then listed.value else PhysicalId(req);
      resp == Some(Response(SUCCESS, Success(id, req.props.url.value, req.props.repo.value, None), id))
    ensures req.requestType == UpdateRequest && (req.previous.repo != req.props.repo || req.previous.url != req.props.url)
            && Precheck(req, secrets).Ok? ==>
      var key := Target(req, secrets);
      var url := req.props.url.value;
      var cleaned := CleanedIn(old(gh.hooks), gh.failures, gh.deleteFailures, req.previous);
      gh.hooks == RegisteredIn(cleaned, gh.failures, gh.createFailures, old(gh.nextId), key, url, Precheck(req, secrets).value.2)
      && resp.Some?
      && (resp.value.status == FAILED <==> RegisterFails(cleaned, gh.failures, gh.createFailures, key, url))
      && (resp.value.status == SUCCESS ==>
            resp.value.data.Success? && resp.value.physicalId == resp.value.data.webhookId
            && resp.value.data.oldWebhookId == Some(CleanedId(old(gh.hooks), gh.failures, req.previous)))
    ensures req.requestType == UpdateRequest && (req.previous.repo != req.props.repo || req.previous.url != req.props.url)
            && Precheck(req, secrets).Ok? ==>
      var cleaned := CleanedIn(old(gh.hooks), gh.failures, gh.deleteFailures, req.previous);
      var reg := RegisteredId(cleaned, gh.failures, gh.createFailures, old(gh.nextId), Target(req, secrets), req.props.url.value);
      resp == Some(if reg.Err? then Response(FAILED, Failure(reg.error), PhysicalId(req))
                   else Response(SUCCESS, Success(reg.value, req.props.url.value, req.props.repo.value,
                                                  Some(CleanedId(old(gh.hooks), gh.failures, req.previous))), reg.value))
    ensures req.requestType == DeleteRequest && Precheck(req, secrets).Ok? ==>
      var key := Target(req, secrets);
      gh.hooks == DeletedIn(old(gh.hooks), gh.failures, gh.deleteFailures, key, req.props.url.value)
      && resp.Some? && resp.value.status == SUCCESS
    ensures req.requestType == DeleteRequest && Precheck(req, secrets).Ok? ==>
      var deleted := ListedId(old(gh.hooks), gh.failures, Target(req, secrets), req.props.url.value);
      var id := if deleted.Some? then deleted.value else PhysicalId(req);
      resp == Some(Response(SUCCESS, Success(id, req.props.url.value, req.props.repo.value, None), PhysicalId(req)))
    ensures req.requestType == DeleteRequest ==> resp.Some? && resp.value.physicalId == PhysicalId(req)
    ensures resp.Some? && resp.value.status == SUCCESS ==> resp.value.data.Success?
    ensures resp.Some? && resp.value.status == FAILED ==> resp.value.data.Failure? && resp.value.physicalId == PhysicalId(req)
  {
    var checked := Precheck(req, secrets);
    if checked.Err? {
      return Some(Response(FAILED, Failure(checked.error), PhysicalId(req)));
    }
    var (owner, repo, secret) := checked.value;
    match req.requestType {
      case CreateRequest =>
        var registered := RegisterWebhook(gh, owner, repo, req.props.url.value, secret);
        if registered.Err? {
          return Some(Response(FAILED, Failure(registered.error), PhysicalId(req)));
        }
        return Some(Response(SUCCESS, Success(registered.value, req.props.url.value, req.props.repo.value, None), registered.value));
      case UpdateRequest =>
        if req.previous.repo != req.props.repo || req.previous.url != req.props.url {
          var r := UpdateChanged(gh, req, owner, repo, secret);
          return Some(r);
        }
        var r := UpdateSame(gh, req, owner, repo);
        return Some(r);
      case DeleteRequest =>
        var r := DeleteResource(gh, req, owner, repo);
        return Some(r);
      case OtherRequest(_) =>
        return None;
    }
  }
}
