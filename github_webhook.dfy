/**
 * The webhook receiver: it checks the signature GitHub puts on a delivery,
 * keeps only "issue opened" events whose labels pass the configured filter,
 * and queues one message per such issue.
 *
 * The secret store, the GitHub API, the queue and the event bus are
 * oracles (fields of `Services`); the HMAC-SHA256 digest is an opaque
 * function. What the handler sends out is recorded as a list of effects.
 */
module GithubWebhook {
  import opened Wrappers
  import opened Strings
  import opened JsonValue

  const SignatureHeader := "X-Hub-Signature-256"
  const EventHeader := "X-GitHub-Event"

  /** An API Gateway proxy event: its headers and, when the key is there, its `body`. */
  datatype Event = Event(headers: map<string, string>, body: Option<Json>)

  /**
   * The world the handler talks to. `secret` and `token` are what the secret
   * store returned (`None` when the ARN is unset, the secret has no string
   * or the call raised); `hmacHex(key, msg)` is the hex HMAC-SHA256 digest;
   * `decode` is `json.loads`; `detailsOk` says the issue GET answered 200
   * with a JSON body; `messageId` is the id the queue answers, or the
   * error `send_message` raised.
   */
  datatype Services = Services(
    secret: Option<string>,
    token: Option<string>,
    hmacHex: (string, string) -> string,
    decode: string -> Result<Json>,
    detailsOk: bool,
    messageId: Result<string>)

  datatype Effect =
    | AcknowledgeComment
    | SendMessage(message: Json)
    | PublishMessageAdded(messageId: string)

  datatype Outcome = Outcome(statusCode: int, body: Json, effects: seq<Effect>)

  function ErrorBody(msg: string): Json { JObj([("error", JStr(msg))]) }
  function MessageBody(msg: string): Json { JObj([("message", JStr(msg))]) }

  /** Python truthiness of an optional string. */
  function Truthy(x: Option<string>): bool {
    x.Some? && x.value != ""
  }

  // ---------------------------------------------------------------- signature

  /** The text `event.get('body', '')` yields, which must be a string to be encoded. */
  function SignedText(event: Event): (r: Result<string>)
    ensures event.body.None? ==> r == Ok("")
  {
    match event.body
    case None => Ok("")
    case Some(JStr(s)) => Ok(s)
    case Some(v) => Err(NoAttribute(v, "encode"))
  }

  /** `validate_github_webhook`: `Err` when the body is not text and has to be encoded. */
  function Validate(event: Event, secret: string, hmacHex: (string, string) -> string): (r: Result<bool>)
    ensures secret == "" ==> r == Ok(true)
    ensures secret != "" && (SignatureHeader !in event.headers || event.headers[SignatureHeader] == "") ==> r == Ok(false)
    ensures r == Ok(true) <==>
      (secret == ""
       || (SignatureHeader in event.headers && SignedText(event).Ok?
           && event.headers[SignatureHeader] == "sha256=" + hmacHex(secret, SignedText(event).value)))
    ensures r.Err? <==>
      secret != "" && SignatureHeader in event.headers && event.headers[SignatureHeader] != "" && SignedText(event).Err?
  {
    if secret == "" then Ok(true)
    else if SignatureHeader !in event.headers || event.headers[SignatureHeader] == "" then Ok(false)
    else match SignedText(event)
      case Err(e) => Err(e)
      case Ok(text) => Ok("sha256=" + hmacHex(secret, text) == event.headers[SignatureHeader])
  }

  // ---------------------------------------------------------------- payload

  /** The webhook payload: a string body is decoded, a missing body is `{}`, anything else is taken as is. */
  function Payload(event: Event, decode: string -> Result<Json>): Result<Json> {
    match event.body
    case None => Ok(JObj([]))
    case Some(JStr(s)) => decode(s)
    case Some(v) => Ok(v)
  }

  /** What the handler reads from an "issue opened" payload before filtering. */
  datatype IssueFacts = IssueFacts(issue: Json, number: Json, repository: Json, labels: seq<Json>)

  function Facts(body: Json): (r: Result<IssueFacts>)
    ensures r.Ok? ==> r.value.issue.JObj?
  {
    match GetOr(body, "issue", JObj([]))
    case Err(e) => Err(e)
    case Ok(issue) =>
      match Get(issue, "number")
      case Err(e) => Err(e)
      case Ok(number) =>
        match GetOr(body, "repository", JObj([]))
        case Err(e) => Err(e)
        case Ok(repo) =>
          match Get(repo, "full_name")
          case Err(e) => Err(e)
          case Ok(name) =>
            match GetOr(issue, "labels", JArr([]))
            case Err(e) => Err(e)
            case Ok(ls) =>
              match Labels(ls)
              case Err(e) => Err(e)
              case Ok(names) => Ok(IssueFacts(issue, OrNull(number), OrNull(name), names))
  }

  // ---------------------------------------------------------------- label filter

  /** `any(label in names for label in required)`. */
  function AnyRequired(required: seq<string>, names: seq<Json>): (r: bool)
    ensures r <==> exists i, j :: 0 <= i < |required| && 0 <= j < |names| && names[j] == JStr(required[i])
    decreases |required|
  {
    if |required| == 0 then false
    else if JStr(required[0]) in names then true
    else
      var r := AnyRequired(required[1..], names);
      assert forall i :: 1 <= i < |required| ==> required[i] == required[1..][i - 1];
      r
  }

  /** No filter configured (the setting's first comma-separated part is empty) lets every issue through. */
  function ShouldProcess(required: seq<string>, names: seq<Json>): bool {
    |required| == 0 || required[0] == "" || AnyRequired(required, names)
  }

  /** The filter as configured from the `REQUIRED_LABELS` setting. */
  lemma LabelFilter(setting: string, names: seq<Json>)
    ensures ShouldProcess(Split(setting, ','), names) <==>
      (Split(setting, ',')[0] == ""
       || exists l, j :: 0 <= j < |names| && l in Split(setting, ',') && names[j] == JStr(l))
  {
    var required := Split(setting, ',');
    if ShouldProcess(required, names) && required[0] != "" {
      var i, j :| 0 <= i < |required| && 0 <= j < |names| && names[j] == JStr(required[i]);
      assert required[i] in required;
    }
  }

  /** An unset setting (the empty string) processes every issue. */
  lemma UnsetFilterProcessesAll(names: seq<Json>)
    ensures ShouldProcess(Split("", ','), names)
  {
  }

  // ---------------------------------------------------------------- handler

  /** The queued message for an issue, with `user` the login read from `issue.user`. */
  function Message(f: IssueFacts, user: Json): (m: Json)
    requires f.issue.JObj?
  {
    JObj([
      ("issue_number", f.number),
      ("repository", f.repository),
      ("title", OrNull(Field(f.issue.fields, "title"))),
      ("body", OrNull(Field(f.issue.fields, "body"))),
      ("labels", JArr(f.labels)),
      ("html_url", OrNull(Field(f.issue.fields, "html_url"))),
      ("user", user)])
  }

  /** The label decision and everything after it. */
  function Queue(required: seq<string>, f: IssueFacts, s: Services): (o: Outcome)
    requires f.issue.JObj?
  {
    if !ShouldProcess(required, f.labels) then
      Outcome(200, MessageBody("Issue ignored - does not meet label criteria"), [])
    else
      var ack := if Truthy(s.token) && s.detailsOk then [AcknowledgeComment] else [];
      match GetOr(f.issue, "user", JObj([]))
      case Err(e) => Outcome(500, ErrorBody(e), ack)
      case Ok(u) =>
        match Get(u, "login")
        case Err(e) => Outcome(500, ErrorBody(e), ack)
        case Ok(login) =>
          match s.messageId
          case Err(e) => Outcome(500, ErrorBody(e), ack)
          case Ok(id) =>
            Outcome(200, JObj([("message", JStr("Issue queued for processing")), ("messageId", JStr(id))]),
              ack + [SendMessage(Message(f, OrNull(login))), PublishMessageAdded(id)])
  }

  /** `lambda_handler`, for the label setting `setting` (`REQUIRED_LABELS`). */
  function Handle(setting: string, event: Event, s: Services): (o: Outcome) {
    var secret := if s.secret.Some? then s.secret.value else "";
    match Validate(event, secret, s.hmacHex)
    case Err(e) => Outcome(500, ErrorBody(e), [])
    case Ok(valid) =>
      if !valid then Outcome(401, ErrorBody("Invalid webhook signature"), [])
      else
        match Payload(event, s.decode)
        case Err(e) => Outcome(500, ErrorBody(e), [])
        case Ok(body) =>
          if EventHeader !in event.headers || event.headers[EventHeader] != "issues" then
            Outcome(200, MessageBody("Event ignored - not a new issue"), [])
          else
            match Get(body, "action")
            case Err(e) => Outcome(500, ErrorBody(e), [])
            case Ok(action) =>
              if action != Some(JStr("opened")) then
                Outcome(200, MessageBody("Event ignored - not a new issue"), [])
              else
                match Facts(body)
                case Err(e) => Outcome(500, ErrorBody(e), [])
                case Ok(f) => Queue(Split(setting, ','), f, s)
  }

  /** The delivery passes the signature step. */
  predicate Authentic(event: Event, s: Services) {
    Validate(event, if s.secret.Some? then s.secret.value else "", s.hmacHex) == Ok(true)
  }

  /** The delivery is an "issues" event with action "opened". */
  predicate IsNewIssue(event: Event, s: Services) {
    Payload(event, s.decode).Ok?
    && EventHeader in event.headers && event.headers[EventHeader] == "issues"
    && Get(Payload(event, s.decode).value, "action") == Ok(Some(JStr("opened")))
  }

  predicate Queues(o: Outcome) {
    exists i :: 0 <= i < |o.effects| && o.effects[i].SendMessage?
  }

  /** A configured secret and a signature that does not match: 401, nothing queued. */
  lemma BadSignatureRejected(setting: string, event: Event, s: Services)
    requires Truthy(s.secret)
    requires SignatureHeader in event.headers && SignedText(event).Ok?
    requires event.headers[SignatureHeader] != "sha256=" + s.hmacHex(s.secret.value, SignedText(event).value)
    ensures Handle(setting, event, s) == Outcome(401, ErrorBody("Invalid webhook signature"), [])
  {
  }

  /** A configured secret and no signature header: 401, nothing queued. */
  lemma UnsignedRejected(setting: string, event: Event, s: Services)
    requires Truthy(s.secret) && SignatureHeader !in event.headers
    ensures Handle(setting, event, s) == Outcome(401, ErrorBody("Invalid webhook signature"), [])
  {
  }

  /** Without a secret nothing is ever rejected as unsigned. */
  lemma NoSecretNoRejection(setting: string, event: Event, s: Services)
    requires !Truthy(s.secret)
    ensures Handle(setting, event, s).statusCode != 401
  {
  }

  /** An authentic delivery that is not an "issues" event: 200 "ignored", nothing queued. */
  lemma OtherEventIgnored(setting: string, event: Event, s: Services)
    requires Authentic(event, s) && Payload(event, s.decode).Ok?
    requires EventHeader !in event.headers || event.headers[EventHeader] != "issues"
    ensures Handle(setting, event, s) == Outcome(200, MessageBody("Event ignored - not a new issue"), [])
  {
  }

  /** An authentic "issues" delivery whose action is not "opened": 200 "ignored", nothing queued. */
  lemma OtherActionIgnored(setting: string, event: Event, s: Services)
    requires Authentic(event, s) && Payload(event, s.decode).Ok? && Payload(event, s.decode).value.JObj?
    requires EventHeader in event.headers && event.headers[EventHeader] == "issues"
    requires Field(Payload(event, s.decode).value.fields, "action") != Some(JStr("opened"))
    ensures Handle(setting, event, s) == Outcome(200, MessageBody("Event ignored - not a new issue"), [])
  {
  }

  /** A new issue whose labels fail the filter: 200 "does not meet label criteria", nothing queued. */
  lemma UnlabelledIgnored(setting: string, event: Event, s: Services)
    requires Authentic(event, s) && IsNewIssue(event, s)
    requires Facts(Payload(event, s.decode).value).Ok?
    requires !ShouldProcess(Split(setting, ','), Facts(Payload(event, s.decode).value).value.labels)
    ensures Handle(setting, event, s) == Outcome(200, MessageBody("Issue ignored - does not meet label criteria"), [])
  {
  }

  /**
   * A message is queued only for an authentic new-issue delivery whose
   * labels pass the filter; it is queued once, after any acknowledgement and
   * before the scaling event, and it carries the payload's fields.
   */
  lemma QueuedOnlyWhenAccepted(setting: string, event: Event, s: Services)
    requires Queues(Handle(setting, event, s))
    ensures Authentic(event, s) && IsNewIssue(event, s)
    ensures Facts(Payload(event, s.decode).value).Ok?
    ensures s.messageId.Ok?
    ensures var f := Facts(Payload(event, s.decode).value).value;
      ShouldProcess(Split(setting, ','), f.labels)
      && exists user ::
        Handle(setting, event, s).effects
          == (if Truthy(s.token) && s.detailsOk then [AcknowledgeComment] else [])
             + [SendMessage(Message(f, user)), PublishMessageAdded(s.messageId.value)]
  {
    var o := Handle(setting, event, s);
    var secret := if s.secret.Some? then s.secret.value else "";
    var i :| 0 <= i < |o.effects| && o.effects[i].SendMessage?;
    var body := Payload(event, s.decode).value;
    var f := Facts(body).value;
    var u := GetOr(f.issue, "user", JObj([])).value;
    var login := Get(u, "login").value;
    assert o.effects == (if Truthy(s.token) && s.detailsOk then [AcknowledgeComment] else [])
             + [SendMessage(Message(f, OrNull(login))), PublishMessageAdded(s.messageId.value)];
  }

  /**
   * Conversely, an authentic new-issue delivery whose labels pass the filter
   * and whose issue user can be read answers 200 "Issue queued for
   * processing" with the queue's message id, after queueing its message once
   * and then publishing the scaling event, provided the queue accepts the
   * message (see `SendFailureAnswers500` for the other case).
   */
  lemma QueuedWhenAccepted(setting: string, event: Event, s: Services)
    requires Authentic(event, s) && IsNewIssue(event, s)
    requires Facts(Payload(event, s.decode).value).Ok?
    requires var f := Facts(Payload(event, s.decode).value).value;
      ShouldProcess(Split(setting, ','), f.labels)
      && GetOr(f.issue, "user", JObj([])).Ok?
      && Get(GetOr(f.issue, "user", JObj([])).value, "login").Ok?
    requires s.messageId.Ok?
    ensures var f := Facts(Payload(event, s.decode).value).value;
      var login := Get(GetOr(f.issue, "user", JObj([])).value, "login").value;
      Handle(setting, event, s) == Outcome(200,
        JObj([("message", JStr("Issue queued for processing")), ("messageId", JStr(s.messageId.value))]),
        (if Truthy(s.token) && s.detailsOk then [AcknowledgeComment] else [])
          + [SendMessage(Message(f, OrNull(login))), PublishMessageAdded(s.messageId.value)])
    ensures Queues(Handle(setting, event, s))
  {
    var f := Facts(Payload(event, s.decode).value).value;
    var login := Get(GetOr(f.issue, "user", JObj([])).value, "login").value;
    var ack := if Truthy(s.token) && s.detailsOk then [AcknowledgeComment] else [];
    assert (ack + [SendMessage(Message(f, OrNull(login))), PublishMessageAdded(s.messageId.value)])[|ack|].SendMessage?;
  }

  /**
   * An accepted issue whose message the queue refuses: `send_message` raises,
   * the handler answers 500 with the error, nothing is queued and no scaling
   * event is published; only the acknowledgement comment, when there was one,
   * has been posted.
   */
  lemma SendFailureAnswers500(setting: string, event: Event, s: Services)
    requires Authentic(event, s) && IsNewIssue(event, s)
    requires Facts(Payload(event, s.decode).value).Ok?
    requires var f := Facts(Payload(event, s.decode).value).value;
      ShouldProcess(Split(setting, ','), f.labels)
      && GetOr(f.issue, "user", JObj([])).Ok?
      && Get(GetOr(f.issue, "user", JObj([])).value, "login").Ok?
    requires s.messageId.Err?
    ensures Handle(setting, event, s)
      == Outcome(500, ErrorBody(s.messageId.error), if Truthy(s.token) && s.detailsOk then [AcknowledgeComment] else [])
    ensures !Queues(Handle(setting, event, s))
  {
  }

  /** The queued message's fields are the payload's, with `null` for what is missing. */
  lemma MessageCopiesIssue(f: IssueFacts, user: Json)
    requires f.issue.JObj?
    ensures var m := Message(f, user);
      Field(m.fields, "issue_number") == Some(f.number)
      && Field(m.fields, "repository") == Some(f.repository)
      && Field(m.fields, "title") == Some(OrNull(Field(f.issue.fields, "title")))
      && Field(m.fields, "body") == Some(OrNull(Field(f.issue.fields, "body")))
      && Field(m.fields, "labels") == Some(JArr(f.labels))
      && Field(m.fields, "html_url") == Some(OrNull(Field(f.issue.fields, "html_url")))
      && Field(m.fields, "user") == Some(user)
  {
    var fs := Message(f, user).fields;
    FieldAt(fs, 0);
    FieldAt(fs, 1);
    FieldAt(fs, 2);
    FieldAt(fs, 3);
    FieldAt(fs, 4);
    FieldAt(fs, 5);
    FieldAt(fs, 6);
  }
}
