/**
 * The two free helpers of the step interpreter: reading a context-memory
 * answer as text, and substituting `${name}` placeholders in a prompt with
 * override values or memory entries.
 */
module ProcessHelpers {
  import opened Wrappers
  import opened Strings
  import opened JsonValue
  import opened ContextMemory

  /** The text of each content item of a tool result; `None` for an item without text. */
  type ToolContent = seq<Option<string>>

  /** The content of the answer to reading `key` from the memory entries `m`. */
  function ReadContent(m: Memory, key: string): ToolContent {
    var texts := Render(Lookup(m, key));
    seq(|texts|, i requires 0 <= i < |texts| => Some(texts[i]))
  }

  /** The texts of the items that have one, in order. */
  function SomeTexts(c: ToolContent): seq<string>
    decreases |c|
  {
    if |c| == 0 then []
    else (if c[0].Some? then [c[0].value] else []) + SomeTexts(c[1..])
  }

  /**
   * `process_context_memory_return_value`: no text when the answer is empty,
   * its first item has no text or is the not-found sentinel; otherwise the
   * texts of all items, one per line.
   */
  function ReturnValue(c: ToolContent): (r: Option<string>)
    ensures r.None? <==> (|c| == 0 || c[0].None? || c[0].value == Sentinel)
  {
    if |c| == 0 || c[0].None? || c[0].value == Sentinel then None
    else Some(Join(SomeTexts(c), "\n"))
  }

  lemma {:induction false} SomeTextsOfReadContent(texts: seq<string>)
    ensures SomeTexts(seq(|texts|, i requires 0 <= i < |texts| => Some(texts[i]))) == texts
    decreases |texts|
  {
    var c := seq(|texts|, i requires 0 <= i < |texts| => Some(texts[i]));
    if |texts| > 0 {
      SomeTextsOfReadContent(texts[1..]);
      assert c[1..] == seq(|texts[1..]|, i requires 0 <= i < |texts[1..]| => Some(texts[1..][i]));
      assert texts == [texts[0]] + texts[1..];
    }
  }

  /** A string stored under a key (other than the sentinel) is read back as that text. */
  lemma ReturnValueOfStoredString(m: Memory, key: string, s: string)
    requires s != Sentinel
    ensures ReturnValue(ReadContent(m[key := JStr(s)], key)) == Some(s)
  {
    SomeTextsOfReadContent([s]);
  }

  /** A list of strings stored under a key is read back as its items, one per line. */
  lemma ReturnValueOfStoredList(m: Memory, key: string, ss: seq<string>)
    requires |ss| > 0 && ss[0] != Sentinel
    ensures ReturnValue(ReadContent(m[key := StrList(ss)], key)) == Some(Join(ss, "\n"))
  {
    RenderStrList(ss);
    SomeTextsOfReadContent(ss);
  }

  /** A missing key, or an entry holding `null`, reads as no text. */
  lemma ReturnValueOfMissing(m: Memory, key: string)
    requires key !in m || m[key] == JNull
    ensures ReturnValue(ReadContent(m, key)) == None
  {
  }

  // ---------------------------------------------------------------- ${name} placeholders

  /** The placeholder text for a context variable. */
  function Placeholder(name: string): string {
    "${" + name + "}"
  }

  /**
   * `re.findall(r'\${([^}]+)}', s)`: the names of the placeholders, scanning
   * left to right; a name is one or more characters other than `}`.
   */
  function FindVars(s: string): (names: seq<string>)
    ensures forall i :: 0 <= i < |names| ==> |names[i]| > 0 && '}' !in names[i]
    decreases |s|
  {
    if |s| < 2 then []
    else if s[0] == '$' && s[1] == '{' then
      match FindChar(s, '}', 2)
      case Some(j) =>
        if j > 2 then
          assert forall k :: 0 <= k < j - 2 ==> s[2..j][k] == s[k + 2];
          [s[2..j]] + FindVars(s[j + 1..])
        else FindVars(s[1..])
      case None => FindVars(s[1..])
    else FindVars(s[1..])
  }

  lemma {:induction false} FindVarsWithoutDollar(s: string)
    requires '$' !in s
    ensures FindVars(s) == []
    decreases |s|
  {
    if |s| >= 2 {
      FindVarsWithoutDollar(s[1..]);
    }
  }

  /** Text without a `$` followed by a placeholder: the placeholder's name comes first. */
  lemma {:induction false} FindVarsAfterPlain(a: string, name: string, b: string)
    requires '$' !in a && |name| > 0 && '}' !in name
    ensures FindVars(a + Placeholder(name) + b) == [name] + FindVars(b)
    decreases |a|
  {
    var s := a + Placeholder(name) + b;
    if |a| == 0 {
      assert s == "${" + name + "}" + b;
      assert s[2 + |name|] == '}';
      assert forall k :: 2 <= k < 2 + |name| ==> s[k] == name[k - 2];
      assert FindChar(s, '}', 2) == Some(2 + |name|) by {
        FindCharFirst(s, '}', 2, 2 + |name|);
      }
      assert s[2..2 + |name|] == name;
      assert s[2 + |name| + 1..] == b;
    } else {
      assert s[0] == a[0] != '$';
      assert s[1..] == a[1..] + Placeholder(name) + b;
      FindVarsAfterPlain(a[1..], name, b);
    }
  }

  lemma {:induction false} FindCharFirst(s: string, c: char, from: nat, j: nat)
    requires from <= j < |s| && s[j] == c
    requires forall k :: from <= k < j ==> s[k] != c
    ensures FindChar(s, c, from) == Some(j)
    decreases j - from
  {
    if from < j {
      FindCharFirst(s, c, from + 1, j);
    }
  }

  function Repeat<T>(x: T, n: nat): (r: seq<T>)
    ensures |r| == n && forall i :: 0 <= i < n ==> r[i] == x
  {
    seq(n, _ => x)
  }

  /** A text made of `$`-free parts joined by one placeholder names it once per joint. */
  lemma {:induction false} FindVarsOfJoin(parts: seq<string>, name: string)
    requires |parts| >= 1 && |name| > 0 && '}' !in name
    requires forall i :: 0 <= i < |parts| ==> '$' !in parts[i]
    ensures FindVars(Join(parts, Placeholder(name))) == Repeat(name, |parts| - 1)
    decreases |parts|
  {
    if |parts| == 1 {
      FindVarsWithoutDollar(parts[0]);
    } else {
      FindVarsAfterPlain(parts[0], name, Join(parts[1..], Placeholder(name)));
      FindVarsOfJoin(parts[1..], name);
      assert Join(parts, Placeholder(name)) == parts[0] + Placeholder(name) + Join(parts[1..], Placeholder(name));
    }
  }

  /** How one variable resolves, and the memory keys read to resolve it. */
  datatype Resolution = Resolution(value: Option<string>, keysRead: seq<string>)

  /**
   * An override names the value outright and memory is not read; otherwise
   * the entry's first text item is used unless the answer is empty or the
   * not-found sentinel.
   */
  function Resolve(name: string, mem: Memory, overrides: map<string, string>): (r: Resolution)
    ensures name in overrides ==> r == Resolution(Some(overrides[name]), [])
    ensures name !in overrides ==> r.keysRead == [name]
    ensures name !in overrides ==>
      (r.value.Some? <==> |Render(Lookup(mem, name))| > 0 && Render(Lookup(mem, name))[0] != Sentinel)
    ensures name !in overrides && r.value.Some? ==> r.value.value == Render(Lookup(mem, name))[0]
  {
    if name in overrides then Resolution(Some(overrides[name]), [])
    else
      var texts := Render(Lookup(mem, name));
      if |texts| > 0 && texts[0] != Sentinel then Resolution(Some(texts[0]), [name])
      else Resolution(None, [name])
  }

  /** A prompt after substitution, and the memory keys read on the way. */
  datatype Interp = Interp(prompt: string, keysRead: seq<string>)

  /** Substituting the variables `names` one after another, as the loop over `findall`'s result does. */
  function Interpolate(prompt: string, names: seq<string>, mem: Memory, overrides: map<string, string>): Interp
    requires forall i :: 0 <= i < |names| ==> |names[i]| > 0
    decreases |names|
  {
    if |names| == 0 then Interp(prompt, [])
    else
      var r := Resolve(names[0], mem, overrides);
      var next := if r.value.Some? then ReplaceAll(prompt, Placeholder(names[0]), r.value.value) else prompt;
      var rest := Interpolate(next, names[1..], mem, overrides);
      Interp(rest.prompt, r.keysRead + rest.keysRead)
  }

  /** After the first `i` variables: what is left to substitute leads to the full substitution. */
  ghost predicate Substituted(prompt: string, names: seq<string>, i: nat, mem: Memory, overrides: map<string, string>,
                              result: string, keysRead: seq<string>)
    requires i <= |names| && forall k :: 0 <= k < |names| ==> |names[k]| > 0
  {
    var rest := Interpolate(result, names[i..], mem, overrides);
    Interp(rest.prompt, keysRead + rest.keysRead) == Interpolate(prompt, names, mem, overrides)
  }

  /** One more variable substituted. */
  lemma SubstitutedStep(prompt: string, names: seq<string>, i: nat, mem: Memory, overrides: map<string, string>,
                        result: string, keysRead: seq<string>)
    requires i < |names| && forall k :: 0 <= k < |names| ==> |names[k]| > 0
    requires Substituted(prompt, names, i, mem, overrides, result, keysRead)
    ensures var r := Resolve(names[i], mem, overrides);
      Substituted(prompt, names, i + 1, mem, overrides,
                  if r.value.Some? then ReplaceAll(result, Placeholder(names[i]), r.value.value) else result,
                  keysRead + r.keysRead)
  {
    assert names[i..][1..] == names[i + 1..];
    var r := Resolve(names[i], mem, overrides);
    var next := if r.value.Some? then ReplaceAll(result, Placeholder(names[i]), r.value.value) else result;
    var rest := Interpolate(next, names[i + 1..], mem, overrides);
    assert keysRead + (r.keysRead + rest.keysRead) == keysRead + r.keysRead + rest.keysRead;
  }

  /** `replace_context_variables`. */
  method ReplaceContextVariables(prompt: string, mem: Memory, overrides: map<string, string>)
    returns (result: string, keysRead: seq<string>)
    ensures Interp(result, keysRead) == Interpolate(prompt, FindVars(prompt), mem, overrides)
  {
    var names := FindVars(prompt);
    result, keysRead := prompt, [];
    var i := 0;
    while i < |names|
      invariant 0 <= i <= |names|
      invariant Substituted(prompt, names, i, mem, overrides, result, keysRead)
    {
      var name := names[i];
      SubstitutedStep(prompt, names, i, mem, overrides, result, keysRead);
      if name in overrides {
        result := ReplaceAll(result, Placeholder(name), overrides[name]);
        assert keysRead + [] == keysRead;
      } else {
        keysRead := keysRead + [name];
        var texts := Render(Lookup(mem, name));
        if |texts| > 0 && texts[0] != Sentinel {
          result := ReplaceAll(result, Placeholder(name), texts[0]);
        }
      }
      i := i + 1;
    }
    assert names[|names|..] == [];
    assert keysRead + [] == keysRead;
  }

  function RepeatKeys(keysRead: seq<string>, n: nat): seq<string>
    decreases n
  {
    if n == 0 then [] else keysRead + RepeatKeys(keysRead, n - 1)
  }

  lemma {:induction false} CharsOfJoin(parts: seq<string>, sep: string, c: char)
    requires forall i :: 0 <= i < |parts| ==> c !in parts[i]
    requires c !in sep
    ensures c !in Join(parts, sep)
    decreases |parts|
  {
    if |parts| > 1 {
      CharsOfJoin(parts[1..], sep, c);
    }
  }

  lemma {:induction false} InterpolateRepeatAbsent(p: string, name: string, n: nat, mem: Memory, overrides: map<string, string>)
    requires |name| > 0 && '$' !in p
    ensures Interpolate(p, Repeat(name, n), mem, overrides)
      == Interp(p, RepeatKeys(Resolve(name, mem, overrides).keysRead, n))
    decreases n
  {
    if n > 0 {
      assert Repeat(name, n)[1..] == Repeat(name, n - 1);
      var r := Resolve(name, mem, overrides);
      if r.value.Some? {
        NotContainsWithoutFirstChar(p, Placeholder(name));
        ReplaceAllAbsent(p, Placeholder(name), r.value.value);
      }
      InterpolateRepeatAbsent(p, name, n - 1, mem, overrides);
    }
  }

  /**
   * A prompt whose only placeholders are `${name}` (its literal parts are
   * free of `$`) has every occurrence replaced by the resolved value, or is
   * left untouched when the variable does not resolve; the memory keys read
   * are those of one resolution per occurrence.
   */
  lemma {:induction false} InterpolateSinglePlaceholder(parts: seq<string>, name: string, mem: Memory, overrides: map<string, string>)
    requires |parts| >= 2 && |name| > 0 && '}' !in name
    requires forall i :: 0 <= i < |parts| ==> '$' !in parts[i]
    requires Resolve(name, mem, overrides).value.Some? ==> '$' !in Resolve(name, mem, overrides).value.value
    ensures var text := Join(parts, Placeholder(name));
      var r := Resolve(name, mem, overrides);
      Interpolate(text, FindVars(text), mem, overrides)
      == Interp(if r.value.Some? then Join(parts, r.value.value) else text, RepeatKeys(r.keysRead, |parts| - 1))
  {
    var text := Join(parts, Placeholder(name));
    var r := Resolve(name, mem, overrides);
    var n := |parts| - 1;
    FindVarsOfJoin(parts, name);
    var names := Repeat(name, n);
    assert names[1..] == Repeat(name, n - 1);
    if r.value.Some? {
      var v := r.value.value;
      ReplaceAllJoin(parts, Placeholder(name), v);
      CharsOfJoin(parts, v, '$');
      InterpolateRepeatAbsent(Join(parts, v), name, n - 1, mem, overrides);
    } else {
      InterpolateNoneRepeat(text, name, n - 1, mem, overrides);
    }
  }

  lemma {:induction false} InterpolateNoneRepeat(p: string, name: string, n: nat, mem: Memory, overrides: map<string, string>)
    requires |name| > 0 && Resolve(name, mem, overrides).value.None?
    ensures Interpolate(p, Repeat(name, n), mem, overrides)
      == Interp(p, RepeatKeys(Resolve(name, mem, overrides).keysRead, n))
    decreases n
  {
    if n > 0 {
      assert Repeat(name, n)[1..] == Repeat(name, n - 1);
      InterpolateNoneRepeat(p, name, n - 1, mem, overrides);
    }
  }

  /** An override is substituted at every occurrence and memory is never read. */
  lemma InterpolateOverride(parts: seq<string>, name: string, mem: Memory, overrides: map<string, string>)
    requires |parts| >= 2 && |name| > 0 && '}' !in name && name in overrides
    requires forall i :: 0 <= i < |parts| ==> '$' !in parts[i]
    requires '$' !in overrides[name]
    ensures var text := Join(parts, Placeholder(name));
      Interpolate(text, FindVars(text), mem, overrides) == Interp(Join(parts, overrides[name]), [])
  {
    InterpolateSinglePlaceholder(parts, name, mem, overrides);
    RepeatKeysEmpty(|parts| - 1);
  }

  lemma {:induction false} RepeatKeysEmpty(n: nat)
    ensures RepeatKeys([], n) == []
    decreases n
  {
    if n > 0 {
      RepeatKeysEmpty(n - 1);
    }
  }

  // ---------------------------------------------------------------- step ids

  /** `Step.get_id`: the step id, qualified by the parent id when there is one. */
  function QualifiedId(parentId: string, stepId: string): (q: string)
    ensures parentId == "" ==> q == stepId
    ensures parentId != "" ==> StartsWith(q, parentId + "__") && EndsWith(q, stepId)
  {
    (if parentId != "" then parentId + "__" else "") + stepId
  }

  /** `ForEach._get_iteration_id`. */
  function IterationId(parentId: string, stepId: string, n: nat): string {
    QualifiedId(parentId, stepId) + "__" + NatToString(n)
  }

  /**
   * Steps of the body of a loop get different ids in different iterations,
   * so their completion markers never collide.
   */
  lemma IterationScopedIdsDiffer(parentId: string, loopId: string, stepId: string, n1: nat, n2: nat)
    requires n1 != n2
    ensures QualifiedId(IterationId(parentId, loopId, n1), stepId) != QualifiedId(IterationId(parentId, loopId, n2), stepId)
  {
    var q := QualifiedId(parentId, loopId) + "__";
    var s1, s2 := NatToString(n1), NatToString(n2);
    var t := "__" + stepId;
    if q + s1 + t == q + s2 + t {
      assert |s1| == |s2|;
      assert s1 == (q + s1 + t)[|q|..|q| + |s1|];
      assert s2 == (q + s2 + t)[|q|..|q| + |s2|];
      NatToStringInjective(n1, n2);
    }
    assert IterationId(parentId, loopId, n1) == q + s1;
    assert IterationId(parentId, loopId, n2) == q + s2;
    assert QualifiedId(q + s1, stepId) == q + s1 + t;
    assert QualifiedId(q + s2, stepId) == q + s2 + t;
  }
}
