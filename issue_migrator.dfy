/**
 * The issue migration utility: for each requested issue number it reads
 * the issue (and, when asked, its comments) from the source repository and
 * files a copy in the destination repository, attributed to the original
 * author and labelled "bug".
 *
 * The GitHub reads are inputs (`Source`); the issues the run would create,
 * in order, are its result.
 */
module IssueMigrator {
  import opened Wrappers
  import opened Strings
  import opened JsonValue

  // ---------------------------------------------------------------- arguments

  /** `owner/repo`: exactly two "/"-separated parts, both non-empty. */
  predicate ValidRepoFormat(repo: string) {
    var parts := Split(repo, '/');
    |parts| == 2 && parts[0] != "" && parts[1] != ""
  }

  /** An accepted repository is a non-empty owner and a non-empty name around one slash. */
  lemma ValidRepoFormatSplits(repo: string)
    requires ValidRepoFormat(repo)
    ensures var parts := Split(repo, '/');
      repo == parts[0] + "/" + parts[1]
      && parts[0] != "" && parts[1] != "" && '/' !in parts[0] && '/' !in parts[1]
  {
    var parts := Split(repo, '/');
    SplitJoin(repo, '/');
    assert parts[1..] == [parts[1]];
  }

  /** Every non-empty owner and name without slashes form an accepted repository. */
  lemma ValidRepoFormatOfPair(owner: string, name: string)
    requires owner != "" && name != "" && '/' !in owner && '/' !in name
    ensures ValidRepoFormat(owner + "/" + name)
  {
    var parts := [owner, name];
    assert Join(parts, "/") == owner + "/" + name;
    JoinSplit(parts, '/');
  }

  /** `int(part.strip())`. */
  function Number(part: string): Option<int> {
    ParseInt(Strip(part))
  }

  /** `[parse(i) for i in parts]`, where a part that does not parse raises. */
  function ParseAll(parts: seq<string>, parse: string -> Option<int>): (r: Option<seq<int>>)
    ensures r.Some? <==> forall i :: 0 <= i < |parts| ==> parse(parts[i]).Some?
    ensures r.Some? ==> |r.value| == |parts| && forall i :: 0 <= i < |parts| ==> r.value[i] == parse(parts[i]).value
    decreases |parts|
  {
    if |parts| == 0 then Some([])
    else
      var head := parse(parts[0]);
      var rest := ParseAll(parts[1..], parse);
      assert forall i :: 1 <= i < |parts| ==> parts[i] == parts[1..][i - 1];
      if head.None? || rest.None? then None
      else Some([head.value] + rest.value)
  }

  /** The `--issues` argument: comma-separated integers. */
  function IssueNumbers(arg: string): Option<seq<int>> {
    ParseAll(Split(arg, ','), Number)
  }

  function ShowNumbers(ns: seq<nat>): (parts: seq<string>)
    ensures |parts| == |ns| && forall i :: 0 <= i < |ns| ==> parts[i] == NatToString(ns[i])
  {
    seq(|ns|, i requires 0 <= i < |ns| => NatToString(ns[i]))
  }

  /** A printed number has no comma and is read back as itself. */
  lemma NumberOfNatToString(n: nat)
    ensures ',' !in NatToString(n) && Number(NatToString(n)) == Some(n as int)
  {
    StripWithoutSpaces(NatToString(n));
    ParseIntOfNatToString(n);
  }

  /** Parts that each parse to the corresponding number parse to those numbers. */
  lemma ParseAllExact(parts: seq<string>, parse: string -> Option<int>, ns: seq<int>)
    requires |parts| == |ns| && forall i :: 0 <= i < |parts| ==> parse(parts[i]) == Some(ns[i])
    ensures ParseAll(parts, parse) == Some(ns)
  {
    assert ParseAll(parts, parse).value == ns;
  }

  /** Printing issue numbers with commas between them and parsing the text gives them back. */
  lemma IssueNumbersOfList(ns: seq<nat>)
    requires |ns| > 0
    ensures IssueNumbers(Join(ShowNumbers(ns), ",")) == Some(ns)
  {
    var parts := ShowNumbers(ns);
    forall i | 0 <= i < |parts|
      ensures ',' !in parts[i] && Number(parts[i]) == Some(ns[i] as int)
    {
      NumberOfNatToString(ns[i]);
    }
    JoinSplit(parts, ',');
    ParseAllExact(parts, Number, ns);
  }

  // ---------------------------------------------------------------- issue text

  /** The three values a comment is shown with: author, date and text. */
  datatype Shown = Shown(user: Json, created: Json, body: Json)

  /** `comment.get('user', {}).get('login', …)`: a `user` that is not a dictionary raises. */
  function Login(record: Json, default: string): (r: Result<Json>)
    requires record.JObj?
    ensures Field(record.fields, "user").None? ==> r == Ok(JStr(default))
  {
    match GetOr(record, "user", JObj([]))
    case Err(e) => Err(e)
    case Ok(user) => GetOr(user, "login", JStr(default))
  }

  /** What `format_comment_body` reads from a comment, each value with its default. */
  function ReadComment(comment: Json): (r: Result<Shown>)
    ensures comment.JObj? && Field(comment.fields, "user").None? ==> r.Ok?
  {
    if !comment.JObj? then Err(NoAttribute(comment, "get"))
    else match Login(comment, "Unknown user")
      case Err(e) => Err(e)
      case Ok(login) =>
        Ok(Shown(login, GetOr(comment, "created_at", JStr("Unknown date")).value, GetOr(comment, "body", JStr("")).value))
  }

  /** A comment with no fields is shown with the three defaults. */
  lemma CommentDefaults()
    ensures ReadComment(JObj([])) == Ok(Shown(JStr("Unknown user"), JStr("Unknown date"), JStr("")))
  {
  }

  function ShowComment(v: Shown): string {
    Join(["\n### Comment by @", PyStr(v.user), " on ", PyStr(v.created), "\n\n", PyStr(v.body), "\n\n---\n"], "")
  }

  /** `format_comment_body`. */
  function CommentText(comment: Json): Result<string> {
    match ReadComment(comment)
    case Err(e) => Err(e)
    case Ok(v) => Ok(ShowComment(v))
  }

  /** `[text(c) for c in comments]`, where the first comment that cannot be formatted raises. */
  function Texts(comments: seq<Json>, text: Json -> Result<string>): (r: Result<seq<string>>)
    ensures r.Ok? <==> forall i :: 0 <= i < |comments| ==> text(comments[i]).Ok?
    ensures r.Ok? ==> |r.value| == |comments| && forall i :: 0 <= i < |comments| ==> r.value[i] == text(comments[i]).value
    decreases |comments|
  {
    if |comments| == 0 then Ok([])
    else
      var head := text(comments[0]);
      var rest := Texts(comments[1..], text);
      assert forall i :: 1 <= i < |comments| ==> comments[i] == comments[1..][i - 1];
      if head.Err? then Err(head.error)
      else if rest.Err? then Err(rest.error)
      else Ok([head.value] + rest.value)
  }

  /** The formatted comments, in order. */
  function CommentTexts(comments: seq<Json>): Result<seq<string>> {
    Texts(comments, CommentText)
  }

  /** What the attribution header shows of the original issue, each value with its default. */
  function ReadIssue(issue: Json): (r: Result<Shown>)
    requires issue.JObj?
    ensures Field(issue.fields, "user").None? ==> r.Ok? && r.value.user == JStr("Unknown")
  {
    match Login(issue, "Unknown")
    case Err(e) => Err(e)
    case Ok(login) =>
      Ok(Shown(login, GetOr(issue, "created_at", JStr("Unknown date")).value, GetOr(issue, "body", JStr("")).value))
  }

  function ShowIssue(v: Shown): string {
    Join(["\n**Original issue by @", PyStr(v.user), " on ", PyStr(v.created), "**\n\n", PyStr(v.body), "\n"], "")
  }

  /** The attribution line and the original text. */
  function Header(issue: Json): Result<string>
    requires issue.JObj?
  {
    match ReadIssue(issue)
    case Err(e) => Err(e)
    case Ok(v) => Ok(ShowIssue(v))
  }

  function Reference(issue: Json): string
    requires issue.JObj?
  {
    "\n\n---\nOriginal issue: " + PyStr(GetOr(issue, "html_url", JStr("")).value)
  }

  const CommentsHeading := "\n\n## Original Comments\n"

  /** Whether the body gets a comments section. */
  predicate HasCommentsSection(includeComments: bool, comments: seq<Json>) {
    includeComments && |comments| > 0
  }

  /**
   * The new issue's body: the header, then the reference line when asked
   * for, then, when comments are asked for and there are some, the heading
   * and every formatted comment.
   */
  function IssueBody(addReference: bool, includeComments: bool, issue: Json, comments: seq<Json>): (r: Result<string>)
    requires issue.JObj?
  {
    match Header(issue)
    case Err(e) => Err(e)
    case Ok(h) =>
      var withRef := h + (if addReference then Reference(issue) else "");
      if !HasCommentsSection(includeComments, comments) then Ok(withRef)
      else match CommentTexts(comments)
        case Err(e) => Err(e)
        case Ok(texts) => Ok(withRef + CommentsHeading + Join(texts, ""))
  }

  /** Without comments asked for (or none to include), the body is the header and, when asked for, the reference line. */
  lemma BodyWithoutComments(addReference: bool, includeComments: bool, issue: Json, comments: seq<Json>)
    requires issue.JObj? && Header(issue).Ok? && !HasCommentsSection(includeComments, comments)
    ensures IssueBody(addReference, includeComments, issue, comments)
      == Ok(Header(issue).value + (if addReference then Reference(issue) else ""))
  {
  }

  /** In the concatenated texts, an earlier comment's text comes before a later one's. */
  lemma TextsInOrder(comments: seq<Json>, text: Json -> Result<string>, i: nat, j: nat) returns (b: string, c: string, d: string)
    requires Texts(comments, text).Ok? && i < j < |comments|
    ensures Join(Texts(comments, text).value, "") == b + text(comments[i]).value + c + text(comments[j]).value + d
  {
    b, c, d := JoinKeepsOrder(Texts(comments, text).value, "", i, j);
  }

  /** With comments, earlier comments come before later ones, all after the header and the heading. */
  lemma CommentsInOrder(addReference: bool, issue: Json, comments: seq<Json>, i: nat, j: nat) returns (b: string, c: string, d: string)
    requires issue.JObj? && IssueBody(addReference, true, issue, comments).Ok?
    requires i < j < |comments|
    ensures IssueBody(addReference, true, issue, comments).value
      == Header(issue).value + (if addReference then Reference(issue) else "") + CommentsHeading
         + (b + CommentText(comments[i]).value + c + CommentText(comments[j]).value + d)
  {
    b, c, d := TextsInOrder(comments, CommentText, i, j);
  }

  /** `labels.append('bug')` unless it is already there. */
  function WithBug(labels: seq<Json>): (r: seq<Json>)
    ensures JStr("bug") in r && |r| >= |labels|
    ensures forall x :: x != JStr("bug") ==> multiset(r)[x] == multiset(labels)[x]
    ensures multiset(r)[JStr("bug")] == if JStr("bug") in labels then multiset(labels)[JStr("bug")] else 1
    ensures r[..|labels|] == labels
  {
    if JStr("bug") in labels then labels else labels + [JStr("bug")]
  }

  /** Adding the label twice is adding it once. */
  lemma WithBugIdempotent(labels: seq<Json>)
    ensures WithBug(WithBug(labels)) == WithBug(labels)
  {
  }

  // ---------------------------------------------------------------- the run

  datatype Options = Options(
    source: string,
    dest: string,
    issues: string,
    dryRun: bool,
    addReference: bool,
    includeComments: bool)

  /** What GitHub answers: an issue's fields (none when the read failed) and its comments (none when that read failed). */
  datatype Source = Source(issue: int -> seq<(string, Json)>, comments: int -> seq<Json>)

  /** A `create_issue` request. */
  datatype NewIssue = NewIssue(repo: string, title: Json, body: string, labels: seq<Json>)

  function DefaultTitle(n: int, source: string): string {
    "Issue #" + IntToString(n) + " from " + source
  }

  /**
   * One issue: `None` when it could not be read (skipped) or on a dry run,
   * `Err` when the script would stop with an exception.
   */
  function Migrate(opts: Options, src: Source, n: int): (r: Result<Option<NewIssue>>)
    ensures opts.dryRun ==> r.Err? || r.value.None?
    ensures r.Ok? && r.value.Some? ==> r.value.value.repo == opts.dest && JStr("bug") in r.value.value.labels
  {
    var fields := src.issue(n);
    if |fields| == 0 then Ok(None)
    else
      var issue := JObj(fields);
      var title := GetOr(issue, "title", JStr(DefaultTitle(n, opts.source))).value;
      var comments := if opts.includeComments then src.comments(n) else [];
      match IssueBody(opts.addReference, opts.includeComments, issue, comments)
      case Err(e) => Err(e)
      case Ok(body) =>
        match Labels(GetOr(issue, "labels", JArr([])).value)
        case Err(e) => Err(e)
        case Ok(labels) =>
          if opts.dryRun then Ok(None)
          else Ok(Some(NewIssue(opts.dest, title, body, WithBug(labels))))
  }

  /** An issue without a title is filed as "Issue #n from <source>". */
  lemma TitleDefault(opts: Options, src: Source, n: int)
    requires Migrate(opts, src, n).Ok? && Migrate(opts, src, n).value.Some?
    requires Field(src.issue(n), "title").None?
    ensures Migrate(opts, src, n).value.value.title == JStr(DefaultTitle(n, opts.source))
  {
  }

  datatype Progress = Progress(created: seq<NewIssue>, crash: Option<string>)

  /** The numbers processed one after another by `step`; an exception ends the run. */
  function Fold(ns: seq<int>, step: int -> Result<Option<NewIssue>>): (p: Progress)
    decreases |ns|
  {
    if |ns| == 0 then Progress([], None)
    else
      var p := Fold(ns[..|ns| - 1], step);
      if p.crash.Some? then p
      else match step(ns[|ns| - 1])
        case Err(e) => Progress(p.created, Some(e))
        case Ok(None) => p
        case Ok(Some(x)) => Progress(p.created + [x], None)
  }

  /** The whole run over the issue numbers. */
  function Migration(opts: Options, src: Source, ns: seq<int>): Progress {
    Fold(ns, n => Migrate(opts, src, n))
  }

  /** Once the run has stopped, later numbers change nothing. */
  lemma {:induction false} CrashStops(ns: seq<int>, step: int -> Result<Option<NewIssue>>, k: nat)
    requires k <= |ns| && Fold(ns[..k], step).crash.Some?
    ensures Fold(ns, step) == Fold(ns[..k], step)
    decreases |ns| - k
  {
    if k < |ns| {
      assert ns[..|ns| - 1][..k] == ns[..k];
      CrashStops(ns[..|ns| - 1], step, k);
    } else {
      assert ns[..k] == ns;
    }
  }

  /** Every issue the run creates is one that `step` produced for one of the numbers, and there is at most one per number. */
  lemma {:induction false} FoldCreated(ns: seq<int>, step: int -> Result<Option<NewIssue>>)
    ensures |Fold(ns, step).created| <= |ns|
    ensures forall x :: x in Fold(ns, step).created ==> exists i :: 0 <= i < |ns| && step(ns[i]) == Ok(Some(x))
    decreases |ns|
  {
    if |ns| > 0 {
      var prefix := ns[..|ns| - 1];
      FoldCreated(prefix, step);
      forall x | x in Fold(ns, step).created
        ensures exists i :: 0 <= i < |ns| && step(ns[i]) == Ok(Some(x))
      {
        if x in Fold(prefix, step).created {
          var i :| 0 <= i < |prefix| && step(prefix[i]) == Ok(Some(x));
          assert ns[i] == prefix[i];
        } else {
          assert step(ns[|ns| - 1]) == Ok(Some(x));
        }
      }
    }
  }

  /** A run whose every step creates nothing creates nothing. */
  lemma {:induction false} FoldCreatesNothing(ns: seq<int>, step: int -> Result<Option<NewIssue>>)
    requires forall i :: 0 <= i < |ns| ==> step(ns[i]).Err? || step(ns[i]).value.None?
    ensures Fold(ns, step).created == []
    decreases |ns|
  {
    if |ns| > 0 {
      FoldCreatesNothing(ns[..|ns| - 1], step);
    }
  }

  /** A dry run creates no issue. */
  lemma DryRunCreatesNothing(opts: Options, src: Source, ns: seq<int>)
    requires opts.dryRun
    ensures Migration(opts, src, ns).created == []
  {
    FoldCreatesNothing(ns, n => Migrate(opts, src, n));
  }

  /** Every issue the run creates goes to the destination and carries "bug"; there is at most one per number. */
  lemma CreatedIssues(opts: Options, src: Source, ns: seq<int>)
    ensures |Migration(opts, src, ns).created| <= |ns|
    ensures forall x :: x in Migration(opts, src, ns).created ==> x.repo == opts.dest && JStr("bug") in x.labels
  {
    var step := n => Migrate(opts, src, n);
    FoldCreated(ns, step);
    forall x | x in Fold(ns, step).created
      ensures x.repo == opts.dest && JStr("bug") in x.labels
    {
      var i :| 0 <= i < |ns| && step(ns[i]) == Ok(Some(x));
    }
  }

  datatype Status = Finished | Exited(code: int) | Crashed(error: string)

  datatype Run = Run(status: Status, created: seq<NewIssue>)

  /** The loop of `migrate_issue` that appends each formatted comment to `body`. */
  method AppendTexts(body: string, comments: seq<Json>, text: Json -> Result<string>) returns (r: Result<string>)
    ensures r == match Texts(comments, text) case Err(e) => Err(e) case Ok(ts) => Ok(body + Join(ts, ""))
  {
    var out := body;
    var i := 0;
    ghost var texts: seq<string> := [];
    while i < |comments|
      invariant 0 <= i <= |comments| && |texts| == i
      invariant forall k :: 0 <= k < i ==> text(comments[k]).Ok? && texts[k] == text(comments[k]).value
      invariant out == body + Join(texts, "")
    {
      var t := text(comments[i]);
      if t.Err? {
        TextsFirstError(comments, text, i);
        return Err(t.error);
      }
      JoinSnoc(texts, t.value, "");
      out := out + t.value;
      texts := texts + [t.value];
      i := i + 1;
    }
    assert Texts(comments, text).value == texts;
    return Ok(out);
  }

  /** The first comment that cannot be formatted is the error of the whole list. */
  lemma {:induction false} TextsFirstError(comments: seq<Json>, text: Json -> Result<string>, i: nat)
    requires i < |comments| && text(comments[i]).Err?
    requires forall k :: 0 <= k < i ==> text(comments[k]).Ok?
    ensures Texts(comments, text) == Err(text(comments[i]).error)
    decreases i
  {
    if i > 0 {
      TextsFirstError(comments[1..], text, i - 1);
    }
  }

  /** The body as `migrate_issue` builds it, step by step. */
  method ComposeBody(addReference: bool, includeComments: bool, issue: Json, comments: seq<Json>) returns (r: Result<string>)
    requires issue.JObj?
    ensures r == IssueBody(addReference, includeComments, issue, comments)
  {
    var header := Header(issue);
    if header.Err? {
      return Err(header.error);
    }
    var body := header.value + (if addReference then Reference(issue) else "");
    if !HasCommentsSection(includeComments, comments) {
      return Ok(body);
    }
    r := AppendTexts(body + CommentsHeading, comments, CommentText);
  }

  /** One issue, as the loop body of `migrate_issues` does it. */
  method MigrateOne(opts: Options, src: Source, n: int) returns (r: Result<Option<NewIssue>>)
    ensures r == Migrate(opts, src, n)
  {
    var fields := src.issue(n);
    if |fields| == 0 {
      return Ok(None);
    }
    var issue := JObj(fields);
    var title := GetOr(issue, "title", JStr(DefaultTitle(n, opts.source))).value;
    var comments := if opts.includeComments then src.comments(n) else [];
    var body := ComposeBody(opts.addReference, opts.includeComments, issue, comments);
    if body.Err? {
      return Err(body.error);
    }
    var labels := Labels(GetOr(issue, "labels", JArr([])).value);
    if labels.Err? {
      return Err(labels.error);
    }
    if opts.dryRun {
      return Ok(None);
    }
    return Ok(Some(NewIssue(opts.dest, title, body.value, WithBug(labels.value))));
  }

  /** `migrate_issues`. */
  method MigrateIssues(opts: Options, src: Source) returns (run: Run)
    ensures !ValidRepoFormat(opts.source) || !ValidRepoFormat(opts.dest) ==> run == Run(Exited(1), [])
    ensures ValidRepoFormat(opts.source) && ValidRepoFormat(opts.dest) && IssueNumbers(opts.issues).None? ==>
      run == Run(Exited(1), [])
    ensures ValidRepoFormat(opts.source) && ValidRepoFormat(opts.dest) && IssueNumbers(opts.issues).Some? ==>
      var p := Migration(opts, src, IssueNumbers(opts.issues).value);
      run == Run(if p.crash.Some? then Crashed(p.crash.value) else Finished, p.created)
  {
    if !ValidRepoFormat(opts.source) || !ValidRepoFormat(opts.dest) {
      return Run(Exited(1), []);
    }
    var numbers := IssueNumbers(opts.issues);
    if numbers.None? {
      return Run(Exited(1), []);
    }
    var p := MigrateAll(opts, src, numbers.value);
    return Run(if p.crash.Some? then Crashed(p.crash.value) else Finished, p.created);
  }

  /** The loop of `migrate_issues` over the parsed numbers. */
  method MigrateAll(opts: Options, src: Source, ns: seq<int>) returns (p: Progress)
    ensures p == Migration(opts, src, ns)
  {
    ghost var step := n => Migrate(opts, src, n);
    var created: seq<NewIssue> := [];
    var i := 0;
    while i < |ns|
      invariant 0 <= i <= |ns|
      invariant Fold(ns[..i], step) == Progress(created, None)
    {
      assert ns[..i + 1][..i] == ns[..i];
      var r := MigrateOne(opts, src, ns[i]);
      assert step(ns[i]) == r;
      if r.Err? {
        CrashStops(ns, step, i + 1);
        return Progress(created, Some(r.error));
      }
      if r.value.Some? {
        created := created + [r.value.value];
      }
      i := i + 1;
    }
    assert ns[..|ns|] == ns;
    return Progress(created, None);
  }
}
