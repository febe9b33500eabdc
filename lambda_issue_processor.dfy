/**
 * The first-generation issue processor: a Lambda function that receives a
 * GitHub issue event, and when the issue is labelled "bug" takes the first
 * fenced TypeScript block of its description as the reproduction code,
 * builds a CDK app from it, uploads it and comments on the issue.
 *
 * Building the app, the upload and the comment are effects the handler
 * requests; their own failures are not modelled.
 */
module IssueProcessorLambda {
  import opened Wrappers
  import opened Strings
  import opened JsonValue

  // ---------------------------------------------------------------- fences

  /** A line that opens (or reopens) a TypeScript block. */
  predicate Opens(line: string) { StartsWith(line, "```typescript") }

  /** Any fence line. */
  predicate Fence(line: string) { StartsWith(line, "```") }

  /** A fence line that is not an opening one. */
  predicate Closes(line: string) { Fence(line) && !Opens(line) }

  /** Some opening line among the first `k` lines is followed, still before `k`, by a closing one. */
  ghost predicate ClosedBefore(lines: seq<string>, k: nat)
    requires k <= |lines|
  {
    exists o, c :: 0 <= o < c < k && Opens(lines[o]) && Closes(lines[c])
  }

  /**
   * The block extracted: opened at `o`, closed at `c`, with no fence line in
   * between (a second opening line would have restarted the block) and no
   * block closed before it.
   */
  ghost predicate FirstBlockAt(lines: seq<string>, o: int, c: int) {
    0 <= o < c < |lines| && Opens(lines[o]) && Closes(lines[c])
    && (forall m :: o < m < c ==> !Fence(lines[m]))
    && !ClosedBefore(lines, o)
  }

  /** `r` is what the description yields: nothing when no block is ever closed, else the first closed block's lines joined with newlines. */
  ghost predicate Extracted(lines: seq<string>, r: Option<string>) {
    (r.None? <==> !ClosedBefore(lines, |lines|))
    && (r.Some? ==> exists o, c :: FirstBlockAt(lines, o, c) && r.value == Join(lines[o + 1..c], "\n"))
  }

  /** There is only one first block. */
  lemma FirstBlockUnique(lines: seq<string>, o1: int, c1: int, o2: int, c2: int)
    requires FirstBlockAt(lines, o1, c1) && FirstBlockAt(lines, o2, c2)
    ensures o1 == o2 && c1 == c2
  {
  }

  /** A description determines what is extracted from it. */
  lemma ExtractedUnique(lines: seq<string>, r1: Option<string>, r2: Option<string>)
    requires Extracted(lines, r1) && Extracted(lines, r2)
    ensures r1 == r2
  {
    if r1.Some? {
      assert r2.Some?;
      var o1, c1 :| FirstBlockAt(lines, o1, c1) && r1.value == Join(lines[o1 + 1..c1], "\n");
      var o2, c2 :| FirstBlockAt(lines, o2, c2) && r2.value == Join(lines[o2 + 1..c2], "\n");
      FirstBlockUnique(lines, o1, c1, o2, c2);
    }
  }

  /** One more line closes a block only if it is a closing line with an opening line before it. */
  lemma ClosedBeforeNext(lines: seq<string>, i: nat)
    requires i < |lines|
    ensures ClosedBefore(lines, i + 1) <==>
      ClosedBefore(lines, i) || (Closes(lines[i]) && exists o :: 0 <= o < i && Opens(lines[o]))
  {
    if ClosedBefore(lines, i + 1) && !ClosedBefore(lines, i) {
      var o, c :| 0 <= o < c < i + 1 && Opens(lines[o]) && Closes(lines[c]);
      assert c == i;
    }
  }

  /**
   * What the loop of `extract_reproduction_steps` knows after the first `i`
   * lines: an open block holds the lines since its opening line, no
   * opening line has been seen while nothing is open and nothing was found,
   * and the first block found is the first closed block.
   */
  ghost predicate Scanned(lines: seq<string>, i: nat, inBlock: bool, open: int, content: seq<string>,
                          blocks: seq<string>, fo: int, fc: int)
  {
    i <= |lines|
    && (inBlock ==> 0 <= open < i && Opens(lines[open]) && content == lines[open + 1..i])
    && (inBlock ==> forall m :: open < m < i ==> !Fence(lines[m]))
    && (!inBlock && blocks == [] ==> forall m :: 0 <= m < i ==> !Opens(lines[m]))
    && (blocks == [] <==> !ClosedBefore(lines, i))
    && (blocks != [] ==> fc < i && FirstBlockAt(lines, fo, fc) && blocks[0] == Join(lines[fo + 1..fc], "\n"))
  }

  /** An opening line starts a new, empty block. */
  lemma ScanOpens(lines: seq<string>, i: nat, inBlock: bool, open: int, content: seq<string>, blocks: seq<string>, fo: int, fc: int)
    requires i < |lines| && Scanned(lines, i, inBlock, open, content, blocks, fo, fc) && Opens(lines[i])
    ensures Scanned(lines, i + 1, true, i, [], blocks, fo, fc)
  {
    ClosedBeforeNext(lines, i);
  }

  /** A closing line ends the open block and records it. */
  lemma ScanCloses(lines: seq<string>, i: nat, open: int, content: seq<string>, blocks: seq<string>, fo: int, fc: int)
    requires i < |lines| && Scanned(lines, i, true, open, content, blocks, fo, fc) && Closes(lines[i])
    ensures blocks == [] ==> Scanned(lines, i + 1, false, open, content, blocks + [Join(content, "\n")], open, i)
    ensures blocks != [] ==> Scanned(lines, i + 1, false, open, content, blocks + [Join(content, "\n")], fo, fc)
  {
    ClosedBeforeNext(lines, i);
  }

  /** Any other line is kept when a block is open and ignored otherwise. */
  lemma ScanOther(lines: seq<string>, i: nat, inBlock: bool, open: int, content: seq<string>, blocks: seq<string>, fo: int, fc: int)
    requires i < |lines| && Scanned(lines, i, inBlock, open, content, blocks, fo, fc)
    requires !Opens(lines[i]) && !(Fence(lines[i]) && inBlock)
    ensures Scanned(lines, i + 1, inBlock, open, if inBlock then content + [lines[i]] else content, blocks, fo, fc)
  {
    ClosedBeforeNext(lines, i);
    if inBlock {
      assert lines[open + 1..i + 1] == lines[open + 1..i] + [lines[i]];
    }
  }

  /** After the last line, the first block found is what is extracted. */
  lemma ScanDone(lines: seq<string>, inBlock: bool, open: int, content: seq<string>, blocks: seq<string>, fo: int, fc: int)
    requires Scanned(lines, |lines|, inBlock, open, content, blocks, fo, fc)
    ensures Extracted(lines, if |blocks| > 0 then Some(blocks[0]) else None)
  {
  }

  /** `extract_reproduction_steps`: the description is split at newlines and scanned line by line. */
  method ExtractReproductionSteps(issueBody: string) returns (r: Option<string>)
    ensures Extracted(Split(issueBody, '\n'), r)
  {
    r := ScanLines(Split(issueBody, '\n'));
  }

  /** The loop of `extract_reproduction_steps` over the lines. */
  method ScanLines(lines: seq<string>) returns (r: Option<string>)
    ensures Extracted(lines, r)
  {
    var codeBlocks: seq<string> := [];
    var inBlock := false;
    var blockContent: seq<string> := [];
    ghost var open := 0;
    ghost var fo, fc := 0, 0;
    var i := 0;
    while i < |lines|
      invariant Scanned(lines, i, inBlock, open, blockContent, codeBlocks, fo, fc)
      decreases |lines| - i
    {
      var line := lines[i];
      if Opens(line) {
        ScanOpens(lines, i, inBlock, open, blockContent, codeBlocks, fo, fc);
        inBlock := true;
        blockContent := [];
        open := i;
      } else if Fence(line) && inBlock {
        ScanCloses(lines, i, open, blockContent, codeBlocks, fo, fc);
        inBlock := false;
        if codeBlocks == [] {
          fo, fc := open, i;
        }
        codeBlocks := codeBlocks + [Join(blockContent, "\n")];
      } else {
        ScanOther(lines, i, inBlock, open, blockContent, codeBlocks, fo, fc);
        if inBlock {
          blockContent := blockContent + [line];
        }
      }
      i := i + 1;
    }
    ScanDone(lines, inBlock, open, blockContent, codeBlocks, fo, fc);
    r := if |codeBlocks| > 0 then Some(codeBlocks[0]) else None;
  }

  /** With no opening line before it, a TypeScript block closed by a fence is what is extracted. */
  lemma BlockFound(lines: seq<string>, o: nat, c: nat)
    requires o < c < |lines| && Opens(lines[o]) && Closes(lines[c])
    requires forall k :: 0 <= k < o ==> !Opens(lines[k])
    requires forall k :: o < k < c ==> !Fence(lines[k])
    ensures Extracted(lines, Some(Join(lines[o + 1..c], "\n")))
  {
    assert FirstBlockAt(lines, o, c);
  }

  /** A description without an opening line yields nothing. */
  lemma NoOpeningNoSteps(lines: seq<string>)
    requires forall k :: 0 <= k < |lines| ==> !Opens(lines[k])
    ensures Extracted(lines, None)
  {
  }

  // ---------------------------------------------------------------- handler

  /** What the handler reads from the event before extracting anything. */
  datatype Request = Request(number: Json, text: Json, isBug: bool)

  /** `json.loads(event["body"])`, then its `issue` (default `{}`). */
  function IssueOf(eventBody: Option<string>, decode: string -> Result<Json>): Result<Json> {
    if eventBody.None? then Err("KeyError: 'body'")
    else match decode(eventBody.value)
      case Err(e) => Err(e)
      case Ok(body) => GetOr(body, "issue", JObj([]))
  }

  /** The number, the description (default "") and whether some label is named "bug". */
  function ReadIssue(issue: Json): (r: Result<Request>)
    ensures r.Ok? ==> issue.JObj?
    ensures r.Ok? ==> r.value.number == OrNull(Field(issue.fields, "number"))
    ensures r.Ok? && Field(issue.fields, "body").None? ==> r.value.text == JStr("")
    ensures issue.JObj? && Field(issue.fields, "labels").None? ==> r.Ok? && !r.value.isBug
    ensures issue.JObj? && Field(issue.fields, "labels").Some? && Field(issue.fields, "labels").value.JArr? ==>
      var items := Field(issue.fields, "labels").value.items;
      (r.Ok? <==> forall i :: 0 <= i < |items| ==> Index(items[i], "name").Ok?)
      && (r.Ok? ==> (r.value.isBug <==> exists i :: 0 <= i < |items| && Index(items[i], "name") == Ok(JStr("bug"))))
  {
    match GetOr(issue, "number", JNull)
    case Err(e) => Err(e)
    case Ok(number) =>
      var text := GetOr(issue, "body", JStr("")).value;
      match IterNames(GetOr(issue, "labels", JArr([])).value)
      case Err(e) => Err(e)
      case Ok(names) => Ok(Request(number, text, JStr("bug") in names))
  }

  /** The three effects of a processed issue, in order. */
  datatype Effect = CreateApp(number: Json, code: string) | Upload(number: Json) | PostComment(number: Json, text: string)

  datatype Outcome = Outcome(statusCode: int, body: string, effects: seq<Effect>)

  /** Where `upload_to_s3` puts the app. */
  function UploadUrl(bucket: string, number: Json): string {
    "https://" + bucket + ".s3.amazonaws.com/cdk-issues/" + PyStr(number) + "/"
  }

  function Processed(number: Json, code: string, bucket: string): seq<Effect> {
    [CreateApp(number, code), Upload(number),
     PostComment(number, "CDK app and synthesized template uploaded: " + UploadUrl(bucket, number))]
  }

  /**
   * `lambda_handler`. `eventBody` is the event's "body" entry, `decode`
   * stands for `json.loads`, `bucket` for the S3_BUCKET setting.
   */
  method Handle(eventBody: Option<string>, decode: string -> Result<Json>, bucket: string) returns (r: Result<Outcome>)
    ensures IssueOf(eventBody, decode).Err? ==> r == Err(IssueOf(eventBody, decode).error)
    ensures IssueOf(eventBody, decode).Ok? && ReadIssue(IssueOf(eventBody, decode).value).Err? ==>
      r == Err(ReadIssue(IssueOf(eventBody, decode).value).error)
    ensures IssueOf(eventBody, decode).Ok? && ReadIssue(IssueOf(eventBody, decode).value).Ok? ==>
      var req := ReadIssue(IssueOf(eventBody, decode).value).value;
      (!req.isBug ==> r == Ok(Outcome(200, "Not a bug issue.", [])))
      && (req.isBug && !req.text.JStr? ==> r == Err(NoAttribute(req.text, "split")))
      && (req.isBug && req.text.JStr? ==>
            forall steps :: Extracted(Split(req.text.s, '\n'), steps) ==>
              r == if steps.None? || steps.value == "" then Ok(Outcome(200, "No reproduction steps found.", []))
                   else Ok(Outcome(200, "Processed successfully.", Processed(req.number, steps.value, bucket))))
  {
    var issue := IssueOf(eventBody, decode);
    if issue.Err? {
      return Err(issue.error);
    }
    var req := ReadIssue(issue.value);
    if req.Err? {
      return Err(req.error);
    }
    if !req.value.isBug {
      return Ok(Outcome(200, "Not a bug issue.", []));
    }
    if !req.value.text.JStr? {
      return Err(NoAttribute(req.value.text, "split"));
    }
    var code := ExtractReproductionSteps(req.value.text.s);
    forall steps | Extracted(Split(req.value.text.s, '\n'), steps)
      ensures steps == code
    {
      ExtractedUnique(Split(req.value.text.s, '\n'), steps, code);
    }
    if code.None? || code.value == "" {
      return Ok(Outcome(200, "No reproduction steps found.", []));
    }
    return Ok(Outcome(200, "Processed successfully.", Processed(req.value.number, code.value, bucket)));
  }
}
