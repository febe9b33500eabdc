/**
 * The issue processor's bookkeeping: the `Memory` object that tracks the
 * current step directory and which helper resources belong to which main
 * resource, and the GitHub issue as the processor reads it (its type from
 * its labels, its comments, and the prompt it becomes).
 *
 * The memory tool calls, the file-system queries and the GitHub reads are
 * inputs; what the methods ask of them is returned as a list of effects.
 */
module Processor {
  import opened Wrappers
  import opened Strings
  import opened JsonValue

  // ---------------------------------------------------------------- directories and effects

  const RootDir := "/app"

  function StepName(n: int): string { "step" + IntToString(n) }

  function StepDir(n: int): string { RootDir + "/" + StepName(n) }

  /** Different step numbers name different directories. */
  lemma StepNameInjective(a: nat, b: nat)
    requires a != b
    ensures StepName(a) != StepName(b)
  {
    if StepName(a) == StepName(b) {
      assert StepName(a)[4..] == NatToString(a);
      assert StepName(b)[4..] == NatToString(b);
      NatToStringInjective(a, b);
    }
  }

  /** What a method asks of the memory tool and the file system. */
  datatype Effect =
    | UpdateEntry(key: string, value: Json)
    | ReadEntry(key: string)
    | MakeDir(path: string)
    | CopyFile(source: string, target: string)

  // ---------------------------------------------------------------- main-to-helpers mapping

  /** A `defaultdict(list)`: its lists, and its keys in the order they were first used. */
  datatype Grouping = Grouping(keys: seq<string>, lists: map<string, seq<string>>)

  ghost predicate WellFormed(g: Grouping) {
    (forall i, j :: 0 <= i < j < |g.keys| ==> g.keys[i] != g.keys[j])
    && (forall k :: k in g.lists <==> k in g.keys)
  }

  /** The list under `key`, empty when the key was never used. */
  function Lookup(g: Grouping, key: string): seq<string> {
    if key in g.lists then g.lists[key] else []
  }

  /** `mapping[key].append(item)`. */
  function Append(g: Grouping, key: string, item: string): (r: Grouping)
    ensures WellFormed(g) ==> WellFormed(r)
    ensures key in r.lists && Lookup(r, key) == Lookup(g, key) + [item]
    ensures forall k :: k != key ==> Lookup(r, k) == Lookup(g, k)
    ensures |g.keys| <= |r.keys| && r.keys[..|g.keys|] == g.keys
    ensures WellFormed(g) && key in g.lists ==> r.keys == g.keys
  {
    if key in g.lists then Grouping(g.keys, g.lists[key := g.lists[key] + [item]])
    else Grouping(g.keys + [key], g.lists[key := [item]])
  }

  /** `mapping[key]` on a `defaultdict`: a missing key is inserted with an empty list. */
  function Touch(g: Grouping, key: string): (r: Grouping)
    ensures WellFormed(g) ==> WellFormed(r)
    ensures key in r.lists
    ensures forall k :: Lookup(r, k) == Lookup(g, k)
    ensures key in g.lists ==> r == g
  {
    if key in g.lists then g else Grouping(g.keys + [key], g.lists[key := []])
  }

  /** The (key, item) pairs appended one after another. */
  function AppendAll(g: Grouping, links: seq<(string, string)>): (r: Grouping)
    ensures WellFormed(g) ==> WellFormed(r)
    decreases |links|
  {
    if |links| == 0 then g
    else
      var last := links[|links| - 1];
      Append(AppendAll(g, links[..|links| - 1]), last.0, last.1)
  }

  /** The items linked to `key`, in order. */
  function ItemsFor(links: seq<(string, string)>, key: string): (r: seq<string>)
    ensures |r| <= |links|
    decreases |links|
  {
    if |links| == 0 then []
    else
      var rest := ItemsFor(links[..|links| - 1], key);
      if links[|links| - 1].0 == key then rest + [links[|links| - 1].1] else rest
  }

  /** After appending the links, each key's list is its old list followed by the items linked to it, in order. */
  lemma {:induction false} AppendAllContents(g: Grouping, links: seq<(string, string)>, key: string)
    ensures Lookup(AppendAll(g, links), key) == Lookup(g, key) + ItemsFor(links, key)
    decreases |links|
  {
    if |links| > 0 {
      AppendAllContents(g, links[..|links| - 1], key);
    }
  }

  /** Appending two runs of links is appending their concatenation. */
  lemma {:induction false} AppendAllConcat(g: Grouping, a: seq<(string, string)>, b: seq<(string, string)>)
    ensures AppendAll(g, a + b) == AppendAll(AppendAll(g, a), b)
    decreases |b|
  {
    if |b| == 0 {
      assert a + b == a;
    } else {
      assert (a + b)[..|a + b| - 1] == a + b[..|b| - 1];
      AppendAllConcat(g, a, b[..|b| - 1]);
    }
  }

  // ---------------------------------------------------------------- ordering

  ghost predicate SortedBy(s: seq<string>, score: string -> int) {
    forall i, j :: 0 <= i < j < |s| ==> score(s[i]) <= score(s[j])
  }

  /** Places `x` after every element whose score is not above its own. */
  function Insert(s: seq<string>, x: string, score: string -> int): (r: seq<string>)
    ensures multiset(r) == multiset(s) + multiset{x}
    decreases |s|
  {
    if |s| == 0 then [x]
    else if score(s[|s| - 1]) <= score(x) then s + [x]
    else
      assert s == s[..|s| - 1] + [s[|s| - 1]];
      Insert(s[..|s| - 1], x, score) + [s[|s| - 1]]
  }

  /** An element scoring at least as much as the last one goes at the end. */
  lemma InsertLast(s: seq<string>, x: string, score: string -> int)
    requires |s| == 0 || score(s[|s| - 1]) <= score(x)
    ensures Insert(s, x, score) == s + [x]
  {
  }

  /** Inserting into a sorted sequence keeps it sorted. */
  lemma {:induction false} InsertSorted(s: seq<string>, x: string, score: string -> int)
    requires SortedBy(s, score)
    ensures SortedBy(Insert(s, x, score), score)
    decreases |s|
  {
    if |s| > 0 && score(s[|s| - 1]) > score(x) {
      var prefix, last := s[..|s| - 1], s[|s| - 1];
      InsertSorted(prefix, x, score);
      var q := Insert(prefix, x, score);
      forall k | 0 <= k < |q|
        ensures score(q[k]) <= score(last)
      {
        assert q[k] in multiset(q);
        if q[k] != x {
          assert q[k] in multiset(prefix);
          var m :| 0 <= m < |prefix| && prefix[m] == q[k];
          assert s[m] == q[k];
        }
      }
      assert Insert(s, x, score) == q + [last];
    }
  }

  /** Python's stable `sorted(keys, key=score)`. */
  function SortByScore(s: seq<string>, score: string -> int): (r: seq<string>)
    ensures multiset(r) == multiset(s)
    ensures SortedBy(r, score)
    decreases |s|
  {
    if |s| == 0 then []
    else
      assert s == s[..|s| - 1] + [s[|s| - 1]];
      var sorted := SortByScore(s[..|s| - 1], score);
      InsertSorted(sorted, s[|s| - 1], score);
      Insert(sorted, s[|s| - 1], score)
  }

  /** When every score is zero the sort keeps the original order. */
  lemma {:induction false} SortZeroScores(s: seq<string>, score: string -> int)
    requires forall i :: 0 <= i < |s| ==> score(s[i]) == 0
    ensures SortByScore(s, score) == s
    decreases |s|
  {
    if |s| > 0 {
      var prefix, last := s[..|s| - 1], s[|s| - 1];
      assert forall i :: 0 <= i < |prefix| ==> prefix[i] == s[i];
      SortZeroScores(prefix, score);
      InsertLast(prefix, last, score);
      assert s == prefix + [last];
    }
  }

  /** `len(helpers_to_parent_mapping.get(k, []))`. */
  function Score(helpersToParent: map<string, seq<string>>): string -> int {
    k => if k in helpersToParent then |helpersToParent[k]| else 0
  }

  // ---------------------------------------------------------------- resource files

  predicate IsJson(name: string) { EndsWith(name, ".json") }

  /** `f"AWS::VPCLATTICE::{filename[:-5]}".upper()`. */
  function ResourceName(name: string): string
    requires IsJson(name)
  {
    Upper("AWS::VPCLATTICE::" + name[..|name| - 5])
  }

  /** A resource name keeps the upper-case prefix. */
  lemma ResourceNamePrefix(name: string)
    requires IsJson(name)
    ensures StartsWith(ResourceName(name), "AWS::VPCLATTICE::")
  {
    var p := "AWS::VPCLATTICE::";
    var s := p + name[..|name| - 5];
    assert forall i :: 0 <= i < |p| ==> s[i] == p[i] && UpperChar(p[i]) == p[i];
    assert ResourceName(name)[..|p|] == p;
  }

  /** The resource names of the ".json" files, in listing order. */
  function ResourceNames(names: seq<string>): (r: seq<string>)
    ensures |r| <= |names|
    decreases |names|
  {
    if |names| == 0 then []
    else
      var rest := ResourceNames(names[..|names| - 1]);
      var last := names[|names| - 1];
      if IsJson(last) then rest + [ResourceName(last)] else rest
  }

  /** Each ".json" file gives one resource name, and nothing else does. */
  lemma {:induction false} ResourceNamesMembers(names: seq<string>)
    ensures forall x :: x in ResourceNames(names) <==> exists i :: 0 <= i < |names| && IsJson(names[i]) && x == ResourceName(names[i])
    decreases |names|
  {
    if |names| > 0 {
      var prefix := names[..|names| - 1];
      ResourceNamesMembers(prefix);
      assert forall i :: 0 <= i < |prefix| ==> names[i] == prefix[i];
    }
  }

  /** The files `move_unprocessed_resources` copies: ".json" files not yet in the next step's directory. */
  function Unprocessed(names: seq<string>, step: int, onDisk: string -> bool): (r: seq<Effect>)
    ensures |r| <= |names|
    decreases |names|
  {
    if |names| == 0 then []
    else
      var last := names[|names| - 1];
      var rest := Unprocessed(names[..|names| - 1], step, onDisk);
      var target := StepDir(step + 1) + "/" + last;
      if IsJson(last) && !onDisk(target) then rest + [CopyFile(StepDir(step) + "/" + last, target)] else rest
  }

  /** Exactly the ".json" files missing from the next step's directory are copied there. */
  lemma {:induction false} UnprocessedMembers(names: seq<string>, step: int, onDisk: string -> bool)
    ensures forall e :: e in Unprocessed(names, step, onDisk) <==> (
      exists i :: 0 <= i < |names| && IsJson(names[i]) && !onDisk(StepDir(step + 1) + "/" + names[i])
        && e == CopyFile(StepDir(step) + "/" + names[i], StepDir(step + 1) + "/" + names[i]))
    decreases |names|
  {
    if |names| > 0 {
      var prefix := names[..|names| - 1];
      UnprocessedMembers(prefix, step, onDisk);
      assert forall i :: 0 <= i < |prefix| ==> names[i] == prefix[i];
    }
  }

  // ---------------------------------------------------------------- helper discovery

  function IsHelperKey(name: string): string { name + "_is_helper_resource" }

  function ParentsKey(name: string): string { name + "_helper_parent_resources" }

  /** The file a parent resource is described in: `resource.lower().replace('aws::vpclattice::', '') + ".json"`. */
  function ParentFile(resource: string): string {
    ReplaceAll(Lower(resource), "aws::vpclattice::", "") + ".json"
  }

  /** The (main file, helper) links one helper contributes: its parents whose files exist in `dir`. */
  function ParentLinks(parents: seq<string>, helper: string, dir: string, onDisk: string -> bool): (r: seq<(string, string)>)
    ensures |r| <= |parents|
    ensures forall x :: x in r ==> x.1 == helper && onDisk(dir + "/" + x.0)
    decreases |parents|
  {
    if |parents| == 0 then []
    else
      var rest := ParentLinks(parents[..|parents| - 1], helper, dir, onDisk);
      var key := ParentFile(parents[|parents| - 1]);
      if onDisk(dir + "/" + key) then rest + [(key, helper)] else rest
  }

  /** A helper is linked to exactly the parents whose files exist. */
  lemma {:induction false} ParentLinksMembers(parents: seq<string>, helper: string, dir: string, onDisk: string -> bool)
    ensures forall x :: x in ParentLinks(parents, helper, dir, onDisk) <==> (x.1 == helper && onDisk(dir + "/" + x.0)
      && exists j :: 0 <= j < |parents| && x.0 == ParentFile(parents[j]))
    decreases |parents|
  {
    if |parents| > 0 {
      var prefix := parents[..|parents| - 1];
      ParentLinksMembers(prefix, helper, dir, onDisk);
      assert forall j :: 0 <= j < |prefix| ==> parents[j] == prefix[j];
    }
  }

  /** One more parent: its link is added when its file exists. */
  lemma ParentLinksNext(parents: seq<string>, j: nat, helper: string, dir: string, onDisk: string -> bool)
    requires j < |parents|
    ensures ParentLinks(parents[..j + 1], helper, dir, onDisk)
      == ParentLinks(parents[..j], helper, dir, onDisk)
         + (if onDisk(dir + "/" + ParentFile(parents[j])) then [(ParentFile(parents[j]), helper)] else [])
  {
    assert parents[..j + 1][..j] == parents[..j];
  }

  /** One more link: one more append. */
  lemma AppendAllSnoc(g: Grouping, links: seq<(string, string)>, x: (string, string))
    ensures AppendAll(g, links + [x]) == Append(AppendAll(g, links), x.0, x.1)
  {
    assert (links + [x])[..|links|] == links;
  }

  /** The mapping after the first `j` parents of one helper. */
  ghost predicate LinkedUpTo(g: Grouping, parents: seq<string>, j: nat, helper: string, dir: string, onDisk: string -> bool, linked: Grouping)
    requires j <= |parents|
  {
    linked == AppendAll(g, ParentLinks(parents[..j], helper, dir, onDisk))
  }

  lemma LinkedStep(g: Grouping, parents: seq<string>, j: nat, helper: string, dir: string, onDisk: string -> bool, linked: Grouping)
    requires j < |parents| && LinkedUpTo(g, parents, j, helper, dir, onDisk, linked)
    ensures var key := ParentFile(parents[j]);
      LinkedUpTo(g, parents, j + 1, helper, dir, onDisk, if onDisk(dir + "/" + key) then Append(linked, key, helper) else linked)
  {
    var key := ParentFile(parents[j]);
    var rest := ParentLinks(parents[..j], helper, dir, onDisk);
    ParentLinksNext(parents, j, helper, dir, onDisk);
    if onDisk(dir + "/" + key) {
      AppendAllSnoc(g, rest, (key, helper));
    } else {
      assert rest + [] == rest;
    }
  }

  /** The inner loop of `get_helpers_data`, on the mapping: each existing parent file gets the helper appended. */
  method LinkAll(g: Grouping, parents: seq<string>, helper: string, dir: string, onDisk: string -> bool) returns (linked: Grouping)
    ensures linked == AppendAll(g, ParentLinks(parents, helper, dir, onDisk))
  {
    linked := g;
    var j := 0;
    while j < |parents|
      invariant j <= |parents| && LinkedUpTo(g, parents, j, helper, dir, onDisk, linked)
    {
      LinkedStep(g, parents, j, helper, dir, onDisk, linked);
      var key := ParentFile(parents[j]);
      if onDisk(dir + "/" + key) {
        linked := Append(linked, key, helper);
      }
      j := j + 1;
    }
    assert parents[..|parents|] == parents;
  }

  /** What `get_helpers_data` has gathered: helper files, links, the memory entries it read, and the error that stopped it. */
  datatype Gathered = Gathered(helpers: seq<string>, links: seq<(string, string)>, memoryReads: seq<Effect>, error: Option<string>)

  /** One file: a helper (its flag reads "true" in any case) contributes itself and its parents' links. */
  function GatherFile(g: Gathered, name: string, read: string -> Option<string>, dir: string, onDisk: string -> bool): Gathered {
    var afterFlag := g.memoryReads + [ReadEntry(IsHelperKey(name))];
    match read(IsHelperKey(name))
    case None => Gathered(g.helpers, g.links, afterFlag, Some("'NoneType' object has no attribute 'lower'"))
    case Some(flag) =>
      if Lower(flag) != "true" then Gathered(g.helpers, g.links, afterFlag, None)
      else
        var afterParents := afterFlag + [ReadEntry(ParentsKey(name))];
        match read(ParentsKey(name))
        case None => Gathered(g.helpers + [name], g.links, afterParents, Some("'NoneType' object has no attribute 'split'"))
        case Some(parents) =>
          Gathered(g.helpers + [name], g.links + ParentLinks(Split(parents, '\n'), name, dir, onDisk), afterParents, None)
  }

  /** The files in listing order, until a memory entry reads as nothing. */
  function Gather(names: seq<string>, read: string -> Option<string>, dir: string, onDisk: string -> bool): (r: Gathered)
    ensures forall x :: x in r.helpers ==> x in names && read(IsHelperKey(x)).Some? && Lower(read(IsHelperKey(x)).value) == "true"
    ensures forall l :: l in r.links ==> l.1 in r.helpers && onDisk(dir + "/" + l.0)
    decreases |names|
  {
    if |names| == 0 then Gathered([], [], [], None)
    else
      var g := Gather(names[..|names| - 1], read, dir, onDisk);
      if g.error.Some? then g else GatherFile(g, names[|names| - 1], read, dir, onDisk)
  }

  /**
   * One file of `get_helpers_data`, on the helper list and the mapping it
   * builds: its flag is read, and for a helper its parents are read and linked.
   */
  method ScanFile(name: string, read: string -> Option<string>, dir: string, onDisk: string -> bool,
                  helpers: seq<string>, grouping: Grouping, ghost start: Grouping, ghost g: Gathered)
    returns (newHelpers: seq<string>, newGrouping: Grouping, memoryReads: seq<Effect>, error: Option<string>)
    requires g.error.None? && helpers == g.helpers && grouping == AppendAll(start, g.links)
    ensures var h := GatherFile(g, name, read, dir, onDisk);
      g.memoryReads + memoryReads == h.memoryReads && error == h.error && newHelpers == h.helpers
      && newGrouping == AppendAll(start, h.links)
  {
    newHelpers, newGrouping := helpers, grouping;
    memoryReads := [ReadEntry(IsHelperKey(name))];
    var flag := read(IsHelperKey(name));
    if flag.None? {
      return newHelpers, newGrouping, memoryReads, Some("'NoneType' object has no attribute 'lower'");
    }
    if Lower(flag.value) != "true" {
      return newHelpers, newGrouping, memoryReads, None;
    }
    newHelpers := helpers + [name];
    memoryReads := memoryReads + [ReadEntry(ParentsKey(name))];
    var parentsText := read(ParentsKey(name));
    if parentsText.None? {
      return newHelpers, newGrouping, memoryReads, Some("'NoneType' object has no attribute 'split'");
    }
    var parents := Split(parentsText.value, '\n');
    newGrouping := LinkAll(grouping, parents, name, dir, onDisk);
    AppendAllConcat(start, g.links, ParentLinks(parents, name, dir, onDisk));
    error := None;
  }

  /** The file loop of `get_helpers_data`: every file is scanned until a memory entry reads as nothing. */
  method GatherAll(names: seq<string>, read: string -> Option<string>, dir: string, onDisk: string -> bool, start: Grouping)
    returns (helpers: seq<string>, grouping: Grouping, effects: seq<Effect>, error: Option<string>)
    ensures var g := Gather(names, read, dir, onDisk);
      helpers == g.helpers && grouping == AppendAll(start, g.links) && effects == g.memoryReads && error == g.error
  {
    helpers, grouping, effects := [], start, [];
    var i := 0;
    while i < |names|
      invariant 0 <= i <= |names|
      invariant var g := Gather(names[..i], read, dir, onDisk);
        g.error.None? && effects == g.memoryReads && helpers == g.helpers && grouping == AppendAll(start, g.links)
    {
      assert names[..i + 1][..i] == names[..i];
      var fileReads, fileError;
      helpers, grouping, fileReads, fileError :=
        ScanFile(names[i], read, dir, onDisk, helpers, grouping, start, Gather(names[..i], read, dir, onDisk));
      effects := effects + fileReads;
      if fileError.Some? {
        GatherStops(names, read, dir, onDisk, i + 1);
        return helpers, grouping, effects, fileError;
      }
      i := i + 1;
    }
    assert names[..|names|] == names;
    error := None;
  }

  /** A file of step `step` is copied into the next step's directory unless it is already there. */
  function CopyIfMissing(step: int, name: string, onDisk: string -> bool): (r: seq<Effect>)
    ensures r != [] <==> !onDisk(StepDir(step + 1) + "/" + name)
    ensures forall e :: e in r ==> e == CopyFile(StepDir(step) + "/" + name, StepDir(step + 1) + "/" + name)
  {
    var target := StepDir(step + 1) + "/" + name;
    if onDisk(target) then [] else [CopyFile(StepDir(step) + "/" + name, target)]
  }

  /** The parent file of the current step: the override when there is one, else the memory entry. */
  function ParentFileName(overrides: map<string, string>, read: string -> Option<string>): Option<string> {
    if "parent_file" in overrides then Some(overrides["parent_file"]) else read("parent_file")
  }

  // ---------------------------------------------------------------- memory

  /** The files the processor keeps track of between steps. */
  class Memory {
    var currentStep: nat
    var helperResources: seq<string>
    /** Never filled, so every main resource scores zero. */
    var helpersToParent: map<string, seq<string>>
    var mainToHelpers: Grouping
    var orderedMain: seq<string>

    ghost predicate Valid()
      reads this
    {
      helpersToParent == map[] && WellFormed(mainToHelpers)
    }

    constructor()
      ensures Valid()
      ensures currentStep == 0 && helperResources == [] && orderedMain == []
      ensures mainToHelpers == Grouping([], map[])
    {
      currentStep := 0;
      helperResources := [];
      helpersToParent := map[];
      mainToHelpers := Grouping([], map[]);
      orderedMain := [];
    }

    /** `move_to_next_step`: one step further, both step entries written, and the next step's directory made when missing. */
    method MoveToNextStep(onDisk: string -> bool) returns (effects: seq<Effect>)
      requires Valid()
      modifies this
      ensures Valid()
      ensures currentStep == old(currentStep) + 1
      ensures |effects| >= 2 && effects[..2] == [UpdateEntry("current_step", JStr(StepName(currentStep))),
                               UpdateEntry("next_step", JStr(StepName(currentStep + 1)))]
      ensures effects[2..] == if onDisk(StepDir(currentStep + 1)) then [] else [MakeDir(StepDir(currentStep + 1))]
      ensures helperResources == old(helperResources) && mainToHelpers == old(mainToHelpers)
      ensures orderedMain == old(orderedMain) && helpersToParent == old(helpersToParent)
    {
      currentStep := currentStep + 1;
      effects := [UpdateEntry("current_step", JStr(StepName(currentStep))),
                  UpdateEntry("next_step", JStr(StepName(currentStep + 1)))];
      if !onDisk(StepDir(currentStep + 1)) {
        effects := effects + [MakeDir(StepDir(currentStep + 1))];
      }
    }

    /** `get_list_of_resources`: the resource names of the ".json" files in the current step's directory. */
    method ListOfResources(names: seq<string>) returns (effect: Effect)
      ensures effect == UpdateEntry("list_of_aws_resources_to_analyze_for_helpers", StrList(ResourceNames(names)))
    {
      var resources: seq<string> := [];
      var i := 0;
      while i < |names|
        invariant 0 <= i <= |names|
        invariant resources == ResourceNames(names[..i])
      {
        assert names[..i + 1][..i] == names[..i];
        if EndsWith(names[i], ".json") {
          resources := resources + [Upper("AWS::VPCLATTICE::" + names[i][..|names[i]| - 5])];
        }
        i := i + 1;
      }
      assert names[..|names|] == names;
      return UpdateEntry("list_of_aws_resources_to_analyze_for_helpers", StrList(resources));
    }

    /**
     * `get_helpers_data`: the helper list is rebuilt, every link is appended
     * to the mapping, and the main resources are ordered by their score.
     */
    method GetHelpersData(names: seq<string>, read: string -> Option<string>, onDisk: string -> bool)
      returns (effects: seq<Effect>, error: Option<string>)
      requires Valid()
      modifies this
      ensures Valid()
      ensures var g := Gather(names, read, StepDir(currentStep), onDisk);
        effects == g.memoryReads && error == g.error && helperResources == g.helpers
        && mainToHelpers == AppendAll(old(mainToHelpers), g.links)
      ensures error.None? ==> orderedMain == SortByScore(mainToHelpers.keys, Score(helpersToParent))
      ensures error.None? ==> orderedMain == mainToHelpers.keys
      ensures error.Some? ==> orderedMain == old(orderedMain)
      ensures currentStep == old(currentStep) && helpersToParent == old(helpersToParent)
    {
      var dir := StepDir(currentStep);
      var helpers, grouping;
      helpers, grouping, effects, error := GatherAll(names, read, dir, onDisk, mainToHelpers);
      helperResources, mainToHelpers := helpers, grouping;
      if error.Some? {
        return;
      }
      var keys := mainToHelpers.keys;
      orderedMain := SortByScore(keys, Score(helpersToParent));
      SortZeroScores(keys, Score(helpersToParent));
    }

    /**
     * `get_current_main_resource_helpers_resources`: the parent file comes
     * from the overrides when they hold one, else from memory; it is copied
     * into the next step's directory when missing there, and its helpers
     * are looked up (inserting an empty list for an unknown file).
     */
    method CurrentMainResourceHelpers(overrides: map<string, string>, read: string -> Option<string>, onDisk: string -> bool)
      returns (r: Result<seq<string>>, effects: seq<Effect>)
      requires Valid()
      modifies this
      ensures Valid()
      ensures var p := ParentFileName(overrides, read);
        effects == (if "parent_file" in overrides then [] else [ReadEntry("parent_file")])
          + (if p.Some? then CopyIfMissing(currentStep, p.value, onDisk) else [])
      ensures r.Err? <==> ParentFileName(overrides, read).None?
      ensures r.Err? ==> mainToHelpers == old(mainToHelpers)
      ensures r.Ok? ==> var parent := ParentFileName(overrides, read).value;
        r.value == Lookup(old(mainToHelpers), parent) && mainToHelpers == Touch(old(mainToHelpers), parent)
      ensures currentStep == old(currentStep) && helperResources == old(helperResources)
      ensures orderedMain == old(orderedMain) && helpersToParent == old(helpersToParent)
    {
      var parent: string;
      effects := [];
      if "parent_file" in overrides {
        parent := overrides["parent_file"];
      } else {
        effects := [ReadEntry("parent_file")];
        var response := read("parent_file");
        if response.None? {
          return Err("expected str, bytes or os.PathLike object, not NoneType"), effects;
        }
        parent := response.value;
      }
      effects := effects + CopyIfMissing(currentStep, parent, onDisk);
      var grouping := Touch(mainToHelpers, parent);
      mainToHelpers := grouping;
      r := Ok(grouping.lists[parent]);
    }

    /** `move_unprocessed_resources`: every ".json" file of the current step missing from the next one is copied there. */
    method MoveUnprocessedResources(names: seq<string>, onDisk: string -> bool) returns (effects: seq<Effect>)
      ensures effects == Unprocessed(names, currentStep, onDisk)
    {
      effects := [];
      var i := 0;
      while i < |names|
        invariant 0 <= i <= |names|
        invariant effects == Unprocessed(names[..i], currentStep, onDisk)
      {
        assert names[..i + 1][..i] == names[..i];
        if EndsWith(names[i], ".json") && !onDisk(StepDir(currentStep + 1) + "/" + names[i]) {
          effects := effects + [CopyFile(StepDir(currentStep) + "/" + names[i], StepDir(currentStep + 1) + "/" + names[i])];
        }
        i := i + 1;
      }
      assert names[..|names|] == names;
    }
  }

  /** A memory entry that reads as nothing stops the scan for good. */
  lemma {:induction false} GatherStops(names: seq<string>, read: string -> Option<string>, dir: string, onDisk: string -> bool, k: nat)
    requires 0 < k <= |names| && Gather(names[..k], read, dir, onDisk).error.Some?
    ensures Gather(names, read, dir, onDisk) == Gather(names[..k], read, dir, onDisk)
    decreases |names| - k
  {
    if k < |names| {
      assert names[..|names| - 1][..k] == names[..k];
      GatherStops(names[..|names| - 1], read, dir, onDisk, k);
    } else {
      assert names[..k] == names;
    }
  }

  // ---------------------------------------------------------------- the GitHub issue

  datatype IssueType = Bug | FeatureRequest | BothBugAndFeatureRequest

  const BugLabel := "bug"
  const FeatureRequestLabel := "feature-request"

  /** A comment's body and its author's login, as the decoded reply holds them. */
  datatype IssueComment = IssueComment(body: Json, author: Json)

  datatype GithubIssue = GithubIssue(number: Json, title: Json, body: Json, comments: seq<IssueComment>, issueType: IssueType)

  /** A GitHub API reply: its status code and its decoded body. */
  datatype Reply = Reply(status: int, body: Json)

  const CommentRule := "#################################################"

  /** One comment as `generate_issue_prompt` shows it. */
  function CommentBlock(c: IssueComment): string {
    "\nComment:\nComment Author: " + PyStr(c.author) + "\nComment Body:\n" + PyStr(c.body) + "\n" + CommentRule + "\n"
  }

  function CommentBlocks(comments: seq<IssueComment>): (r: seq<string>)
    ensures |r| == |comments| && forall i :: 0 <= i < |comments| ==> r[i] == CommentBlock(comments[i])
  {
    seq(|comments|, i requires 0 <= i < |comments| => CommentBlock(comments[i]))
  }

  const PromptOpen := "\n<github_issue>\n"
  const PromptClose := "\n</github_issue>\n"

  /** The part of the prompt before the comments: the title, then the body. */
  function PromptHead(issue: GithubIssue): string {
    PromptOpen + "\nissue Title: " + PyStr(issue.title) + "\n\nissue Body:\n" + PyStr(issue.body) + "\n\nIssue Comments:\n"
  }

  /** `GithubIssue.generate_issue_prompt`. */
  function IssuePrompt(issue: GithubIssue): string {
    PromptHead(issue) + Join(CommentBlocks(issue.comments), "\n") + PromptClose
  }

  /** The prompt is wrapped in the `<github_issue>` tags. */
  lemma PromptTags(issue: GithubIssue)
    ensures StartsWith(IssuePrompt(issue), PromptOpen) && EndsWith(IssuePrompt(issue), PromptClose)
  {
    var p := IssuePrompt(issue);
    var rest := p[|PromptOpen|..];
    assert p == PromptOpen + rest;
    assert p[..|PromptOpen|] == PromptOpen;
    var body := PromptHead(issue) + Join(CommentBlocks(issue.comments), "\n");
    assert p == body + PromptClose;
    assert p[|p| - |PromptClose|..] == PromptClose;
  }

  /** Every comment, author and body, appears in the comments section: after the title and the body, before the closing tag. */
  lemma PromptHoldsComment(issue: GithubIssue, j: nat) returns (a: string, c: string)
    requires j < |issue.comments|
    ensures IssuePrompt(issue) == PromptHead(issue) + (a + CommentBlock(issue.comments[j]) + c) + PromptClose
  {
    var blocks := CommentBlocks(issue.comments);
    a, c := JoinSplitsAt(blocks, "\n", j);
  }

  /** The comments appear in their order. */
  lemma PromptKeepsCommentOrder(issue: GithubIssue, i: nat, j: nat) returns (a: string, b: string, c: string)
    requires i < j < |issue.comments|
    ensures IssuePrompt(issue)
      == PromptHead(issue) + (a + CommentBlock(issue.comments[i]) + b + CommentBlock(issue.comments[j]) + c) + PromptClose
  {
    var blocks := CommentBlocks(issue.comments);
    a, b, c := JoinKeepsOrder(blocks, "\n", i, j);
  }

  /** Python's `v <= 0` for a decoded value: numbers and booleans compare, anything else raises. */
  function NotPositive(v: Json): (r: Result<bool>)
    ensures r.Ok? <==> v.JInt? || v.JBool?
    ensures v.JInt? ==> r == Ok(v.i <= 0)
    ensures v.JBool? ==> r == Ok(!v.b)
  {
    match v
    case JInt(n) => Ok(n <= 0)
    case JBool(b) => Ok(!b)
    case _ => Err("'<=' not supported between instances of '" + TypeName(v) + "' and 'int'")
  }

  /** `IssueComment(comment["body"], comment["user"]["login"])`: the body is read first. */
  function ReadComment(comment: Json): (r: Result<IssueComment>)
    ensures r.Ok? <==> Index(comment, "body").Ok? && Index(comment, "user").Ok? && Index(Index(comment, "user").value, "login").Ok?
    ensures r.Ok? ==> r == Ok(IssueComment(Index(comment, "body").value, Index(Index(comment, "user").value, "login").value))
  {
    match Index(comment, "body")
    case Err(e) => Err(e)
    case Ok(body) =>
      match Index(comment, "user")
      case Err(e) => Err(e)
      case Ok(user) =>
        match Index(user, "login")
        case Err(e) => Err(e)
        case Ok(login) => Ok(IssueComment(body, login))
  }

  /** The comments of a reply, in order; the first one that cannot be read raises. */
  function ReadComments(items: seq<Json>): (r: Result<seq<IssueComment>>)
    decreases |items|
  {
    if |items| == 0 then Ok([])
    else
      match ReadComments(items[..|items| - 1])
      case Err(e) => Err(e)
      case Ok(read) =>
        match ReadComment(items[|items| - 1])
        case Err(e) => Err(e)
        case Ok(c) => Ok(read + [c])
  }

  /** All comments are read exactly when each one can be, and each is read as itself. */
  lemma {:induction false} ReadCommentsMeaning(items: seq<Json>)
    ensures ReadComments(items).Ok? <==> forall i :: 0 <= i < |items| ==> ReadComment(items[i]).Ok?
    ensures ReadComments(items).Ok? ==>
      |ReadComments(items).value| == |items| && forall i :: 0 <= i < |items| ==> ReadComments(items).value[i] == ReadComment(items[i]).value
    decreases |items|
  {
    if |items| > 0 {
      var prefix := items[..|items| - 1];
      ReadCommentsMeaning(prefix);
      assert forall i :: 0 <= i < |prefix| ==> items[i] == prefix[i];
    }
  }

  /**
   * `_retrieve_issue_comments`: no comments are fetched when the count is
   * not positive; otherwise a reply other than 200 gives no comments, and a
   * 200 reply is read comment by comment. `fetch` is the GET of a URL.
   */
  function IssueComments(issueData: Json, fetch: Json -> Reply): (r: Result<seq<IssueComment>>)
    ensures Index(issueData, "comments").Err? ==> r.Err?
    ensures r.Ok? && r.value != [] ==>
      Index(issueData, "comments_url").Ok? && fetch(Index(issueData, "comments_url").value).status == 200
  {
    match Index(issueData, "comments")
    case Err(e) => Err(e)
    case Ok(count) =>
      match NotPositive(count)
      case Err(e) => Err(e)
      case Ok(none) =>
        if none then Ok([])
        else
          match Index(issueData, "comments_url")
          case Err(e) => Err(e)
          case Ok(url) =>
            var reply := fetch(url);
            if reply.status != 200 then Ok([])
            else
              match Iterate(reply.body)
              case Err(e) => Err(e)
              case Ok(items) => ReadComments(items)
  }

  /** A count that is not positive gives no comments, whatever the network would answer. */
  lemma NoCountNoFetch(issueData: Json, fetch1: Json -> Reply, fetch2: Json -> Reply)
    requires Index(issueData, "comments").Ok? && NotPositive(Index(issueData, "comments").value) == Ok(true)
    ensures IssueComments(issueData, fetch1) == IssueComments(issueData, fetch2) == Ok([])
  {
  }

  /** A 200 reply holding a list gives its comments one for one. */
  lemma CommentsOfList(issueData: Json, fetch: Json -> Reply, items: seq<Json>)
    requires Index(issueData, "comments").Ok? && NotPositive(Index(issueData, "comments").value) == Ok(false)
    requires Index(issueData, "comments_url").Ok?
    requires fetch(Index(issueData, "comments_url").value) == Reply(200, JArr(items))
    requires forall i :: 0 <= i < |items| ==> ReadComment(items[i]).Ok?
    ensures IssueComments(issueData, fetch).Ok?
    ensures |IssueComments(issueData, fetch).value| == |items|
    ensures forall i :: 0 <= i < |items| ==> IssueComments(issueData, fetch).value[i] == ReadComment(items[i]).value
  {
    ReadCommentsMeaning(items);
  }

  /** Once a comment cannot be read, the later ones do not matter. */
  lemma {:induction false} ReadCommentsStops(items: seq<Json>, k: nat)
    requires k <= |items| && ReadComments(items[..k]).Err?
    ensures ReadComments(items) == ReadComments(items[..k])
    decreases |items| - k
  {
    if k < |items| {
      assert items[..|items| - 1][..k] == items[..k];
      ReadCommentsStops(items[..|items| - 1], k);
    } else {
      assert items[..k] == items;
    }
  }

  /** The comment loop of `_retrieve_issue_comments`: each comment is appended in turn. */
  method ReadAllComments(items: seq<Json>) returns (r: Result<seq<IssueComment>>)
    ensures r == ReadComments(items)
  {
    var comments: seq<IssueComment> := [];
    var i := 0;
    while i < |items|
      invariant 0 <= i <= |items|
      invariant ReadComments(items[..i]) == Ok(comments)
    {
      assert items[..i + 1][..i] == items[..i];
      var comment := ReadComment(items[i]);
      if comment.Err? {
        ReadCommentsStops(items, i + 1);
        return Err(comment.error);
      }
      comments := comments + [comment.value];
      i := i + 1;
    }
    assert items[..|items|] == items;
    return Ok(comments);
  }

  /** `_retrieve_issue_comments`, step by step. */
  method RetrieveIssueComments(issueData: Json, fetch: Json -> Reply) returns (r: Result<seq<IssueComment>>)
    ensures r == IssueComments(issueData, fetch)
  {
    var count := Index(issueData, "comments");
    if count.Err? {
      return Err(count.error);
    }
    var none := NotPositive(count.value);
    if none.Err? {
      return Err(none.error);
    }
    if none.value {
      return Ok([]);
    }
    var url := Index(issueData, "comments_url");
    if url.Err? {
      return Err(url.error);
    }
    var reply := fetch(url.value);
    if reply.status != 200 {
      return Ok([]);
    }
    var items := Iterate(reply.body);
    if items.Err? {
      return Err(items.error);
    }
    r := ReadAllComments(items.value);
  }

  /** `_retrieve_issue_type`: the names of the labels decide. */
  function IssueTypeOf(issueData: Json): (r: Result<IssueType>)
    ensures r.Ok? <==> Index(issueData, "labels").Ok? && IterNames(Index(issueData, "labels").value).Ok?
  {
    match Index(issueData, "labels")
    case Err(e) => Err(e)
    case Ok(labels) =>
      match IterNames(labels)
      case Err(e) => Err(e)
      case Ok(names) =>
        var isBug := JStr(BugLabel) in names;
        var isFeature := JStr(FeatureRequestLabel) in names;
        if isBug && isFeature then Ok(BothBugAndFeatureRequest)
        else if isBug then Ok(Bug) else Ok(FeatureRequest)
  }

  ghost predicate HasLabel(items: seq<Json>, tag: string) {
    exists i :: 0 <= i < |items| && Index(items[i], "name") == Ok(JStr(tag))
  }

  /** Both labels: both; only "bug": a bug; otherwise, no labels included, a feature request. */
  lemma IssueTypeOfLabels(issueData: Json, items: seq<Json>)
    requires Index(issueData, "labels") == Ok(JArr(items))
    requires forall i :: 0 <= i < |items| ==> Index(items[i], "name").Ok?
    ensures IssueTypeOf(issueData).Ok?
    ensures IssueTypeOf(issueData).value == BothBugAndFeatureRequest <==> HasLabel(items, BugLabel) && HasLabel(items, FeatureRequestLabel)
    ensures IssueTypeOf(issueData).value == Bug <==> HasLabel(items, BugLabel) && !HasLabel(items, FeatureRequestLabel)
    ensures IssueTypeOf(issueData).value == FeatureRequest <==> !HasLabel(items, BugLabel)
  {
    var names := SubscriptNames(items).value;
    assert forall tag :: JStr(tag) in names <==> HasLabel(items, tag) by {
      forall tag
        ensures JStr(tag) in names <==> HasLabel(items, tag)
      {
        if JStr(tag) in names {
          var i :| 0 <= i < |names| && names[i] == JStr(tag);
          assert Index(items[i], "name") == Ok(JStr(tag));
        }
      }
    }
  }

  /**
   * `retrieve_github_issue`: `reply` is GitHub's answer for the issue. A
   * status other than 200 raises; otherwise the number, title, body,
   * comments and type are read in that order.
   */
  function RetrieveGithubIssue(issueNumber: string, reply: Reply, fetch: Json -> Reply): (r: Result<GithubIssue>)
    ensures reply.status != 200 ==> r == Err("Failed to fetch issue " + issueNumber + ": " + IntToString(reply.status))
    ensures r.Ok? <==> (reply.status == 200 && Index(reply.body, "number").Ok? && Index(reply.body, "title").Ok?
      && Index(reply.body, "body").Ok? && IssueComments(reply.body, fetch).Ok? && IssueTypeOf(reply.body).Ok?)
    ensures r.Ok? ==> r.value == GithubIssue(Index(reply.body, "number").value, Index(reply.body, "title").value,
      Index(reply.body, "body").value, IssueComments(reply.body, fetch).value, IssueTypeOf(reply.body).value)
  {
    if reply.status != 200 then Err("Failed to fetch issue " + issueNumber + ": " + IntToString(reply.status))
    else
      var data := reply.body;
      match Index(data, "number")
      case Err(e) => Err(e)
      case Ok(number) =>
        match Index(data, "title")
        case Err(e) => Err(e)
        case Ok(title) =>
          match Index(data, "body")
          case Err(e) => Err(e)
          case Ok(body) =>
            match IssueComments(data, fetch)
            case Err(e) => Err(e)
            case Ok(comments) =>
              match IssueTypeOf(data)
              case Err(e) => Err(e)
              case Ok(issueType) => Ok(GithubIssue(number, title, body, comments, issueType))
  }

  /** How `process` ends before its steps run: an error, an exit, or the process it starts with its inputs and agent profiles. */
  datatype Launch =
    | Raised(error: string)
    | Exit(code: int)
    | Start(processId: string, inputs: seq<(string, string)>, profiles: seq<string>)

  const IssuesRoot := "/app/gh_issues"

  /**
   * `process`: only an issue of type bug starts the reproducing process,
   * whose only agent profile is the acquired account's role; any other
   * type, both included, exits with 0.
   */
  function Process(issueId: string, roleArn: string, reply: Reply, fetch: Json -> Reply): (r: Launch)
    ensures r.Start? <==> RetrieveGithubIssue(issueId, reply, fetch).Ok? && RetrieveGithubIssue(issueId, reply, fetch).value.issueType == Bug
    ensures r.Exit? <==> RetrieveGithubIssue(issueId, reply, fetch).Ok? && RetrieveGithubIssue(issueId, reply, fetch).value.issueType != Bug
    ensures r.Exit? ==> r.code == 0
    ensures r.Raised? ==> RetrieveGithubIssue(issueId, reply, fetch) == Err(r.error)
    ensures r.Start? ==> (r.processId == "Create Bug Reproducing CDK App for issue " + issueId
      && r.inputs == [("cdk_app_root_path", IssuesRoot),
                      ("github_issue_details", IssuePrompt(RetrieveGithubIssue(issueId, reply, fetch).value)),
                      ("issue_id", issueId)]
      && r.profiles == [roleArn])
  {
    match RetrieveGithubIssue(issueId, reply, fetch)
    case Err(e) => Raised(e)
    case Ok(issue) =>
      if issue.issueType != Bug then Exit(0)
      else
        Start("Create Bug Reproducing CDK App for issue " + issueId,
              [("cdk_app_root_path", IssuesRoot), ("github_issue_details", IssuePrompt(issue)), ("issue_id", issueId)],
              [roleArn])
  }
}
