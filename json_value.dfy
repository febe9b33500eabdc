/**
 * The JSON values that memory entries and tool results carry, `json.dumps`
 * on them, and the conversion FastMCP applies to a tool's return value
 * before the client sees it as a list of text content items.
 */
module JsonValue {
  import opened Wrappers
  import opened Strings

  datatype Json =
    | JNull
    | JBool(b: bool)
    | JInt(i: int)
    | JStr(s: string)
    | JArr(items: seq<Json>)
    | JObj(fields: seq<(string, Json)>)

  function IntToString(i: int): string {
    if i < 0 then "-" + NatToString(-i) else NatToString(i)
  }

  function EscapeChar(c: char): string {
    if c == '"' then "\\\""
    else if c == '\\' then "\\\\"
    else if c == '\n' then "\\n"
    else if c == '\r' then "\\r"
    else if c == '\t' then "\\t"
    else [c]
  }

  function Escape(s: string): string
    decreases |s|
  {
    if |s| == 0 then "" else EscapeChar(s[0]) + Escape(s[1..])
  }

  /** `json.dumps(v)` with its default separators `", "` and `": "`. */
  function Dumps(v: Json): string
    decreases v, 1
  {
    match v
    case JNull => "null"
    case JBool(b) => if b then "true" else "false"
    case JInt(i) => IntToString(i)
    case JStr(s) => "\"" + Escape(s) + "\""
    case JArr(items) => "[" + DumpsItems(v, 0) + "]"
    case JObj(fields) => "{" + DumpsFields(v, 0) + "}"
  }

  function DumpsItems(v: Json, i: nat): string
    requires v.JArr? && i <= |v.items|
    decreases v, 0, |v.items| - i
  {
    if i == |v.items| then ""
    else
      assert v.items[i] in v.items;
      (if i == 0 then "" else ", ") + Dumps(v.items[i]) + DumpsItems(v, i + 1)
  }

  function DumpsFields(v: Json, i: nat): string
    requires v.JObj? && i <= |v.fields|
    decreases v, 0, |v.fields| - i
  {
    if i == |v.fields| then ""
    else
      assert v.fields[i] in v.fields;
      (if i == 0 then "" else ", ") + "\"" + Escape(v.fields[i].0) + "\": " + Dumps(v.fields[i].1)
      + DumpsFields(v, i + 1)
  }

  /** The value of a key in a JSON object's fields (the first one, which is the only one in a dictionary). */
  function Field(fields: seq<(string, Json)>, key: string): Option<Json>
    decreases |fields|
  {
    if |fields| == 0 then None
    else if fields[0].0 == key then Some(fields[0].1)
    else Field(fields[1..], key)
  }

  lemma {:induction false} FieldConcat(a: seq<(string, Json)>, b: seq<(string, Json)>, key: string)
    ensures Field(a + b, key) == if Field(a, key).Some? then Field(a, key) else Field(b, key)
    decreases |a|
  {
    if |a| == 0 {
      assert a + b == b;
    } else {
      assert (a + b)[1..] == a[1..] + b;
      FieldConcat(a[1..], b, key);
    }
  }

  /** A key that no earlier field carries is found at its own position. */
  lemma {:induction false} FieldAt(fields: seq<(string, Json)>, k: nat)
    requires k < |fields|
    requires forall j :: 0 <= j < k ==> fields[j].0 != fields[k].0
    ensures Field(fields, fields[k].0) == Some(fields[k].1)
    decreases k
  {
    if k > 0 {
      FieldAt(fields[1..], k - 1);
    }
  }

  /** A key no field carries is not found. */
  lemma {:induction false} FieldMissing(fields: seq<(string, Json)>, key: string)
    requires forall j :: 0 <= j < |fields| ==> fields[j].0 != key
    ensures Field(fields, key) == None
    decreases |fields|
  {
    if |fields| > 0 {
      FieldMissing(fields[1..], key);
    }
  }

  // ---------------------------------------------------------------- Python access to decoded values

  /** Python's name for the type of a decoded JSON value. */
  function TypeName(v: Json): string {
    match v
    case JNull => "NoneType"
    case JBool(_) => "bool"
    case JInt(_) => "int"
    case JStr(_) => "str"
    case JArr(_) => "list"
    case JObj(_) => "dict"
  }

  function NoAttribute(v: Json, attr: string): string {
    "'" + TypeName(v) + "' object has no attribute '" + attr + "'"
  }

  /** `v.get(key)`: only a dictionary has it; a missing key gives `None`. */
  function Get(v: Json, key: string): (r: Result<Option<Json>>)
    ensures r.Ok? <==> v.JObj?
    ensures r.Ok? ==> r.value == Field(v.fields, key)
  {
    match v
    case JObj(fields) => Ok(Field(fields, key))
    case _ => Err(NoAttribute(v, "get"))
  }

  /** `v.get(key, default)`. */
  function GetOr(v: Json, key: string, default: Json): (r: Result<Json>)
    ensures r.Ok? <==> v.JObj?
  {
    match Get(v, key)
    case Ok(x) => Ok(if x.Some? then x.value else default)
    case Err(e) => Err(e)
  }

  /** A missing value is serialised as `null`. */
  function OrNull(x: Option<Json>): Json {
    if x.Some? then x.value else JNull
  }

  /** `label.get('name')` for an element already known to be a dictionary. */
  function NameOf(entry: Json): Json {
    if entry.JObj? then OrNull(Field(entry.fields, "name")) else JNull
  }

  /** The names of a list of labels; the first non-dictionary element raises. */
  function LabelNames(items: seq<Json>): (r: Result<seq<Json>>)
    ensures r.Ok? <==> forall i :: 0 <= i < |items| ==> items[i].JObj?
    ensures r.Ok? ==> |r.value| == |items| && forall i :: 0 <= i < |items| ==> r.value[i] == NameOf(items[i])
    decreases |items|
  {
    if |items| == 0 then Ok([])
    else if !items[0].JObj? then Err(NoAttribute(items[0], "get"))
    else match LabelNames(items[1..])
      case Ok(rest) => Ok([NameOf(items[0])] + rest)
      case Err(e) => Err(e)
  }

  /**
   * `[label.get('name') for label in labels]`: iterating a string or a
   * dictionary yields strings, which have no `get`, so only an empty one
   * passes; a scalar is not iterable.
   */
  function Labels(labels: Json): (r: Result<seq<Json>>)
    ensures labels.JArr? ==> r == LabelNames(labels.items)
    ensures r.Ok? ==> labels.JArr? || labels == JStr("") || labels == JObj([])
  {
    match labels
    case JArr(items) => LabelNames(items)
    case JStr(s) => if s == "" then Ok([]) else Err(NoAttribute(JStr(""), "get"))
    case JObj(fs) => if |fs| == 0 then Ok([]) else Err(NoAttribute(JStr(""), "get"))
    case _ => Err("'" + TypeName(labels) + "' object is not iterable")
  }

  /** `v[key]` on a decoded value: only a dictionary holding the key answers. */
  function Index(v: Json, key: string): (r: Result<Json>)
    ensures r.Ok? <==> v.JObj? && Field(v.fields, key).Some?
    ensures r.Ok? ==> r.value == Field(v.fields, key).value
  {
    match v
    case JObj(fields) => if Field(fields, key).Some? then Ok(Field(fields, key).value) else Err("KeyError: '" + key + "'")
    case JArr(_) => Err("list indices must be integers or slices, not str")
    case JStr(_) => Err("string indices must be integers")
    case _ => Err("'" + TypeName(v) + "' object is not subscriptable")
  }

  /** What a `for` loop over `v` visits: a list's items, a string's characters, a dictionary's keys. */
  function Iterate(v: Json): (r: Result<seq<Json>>)
    ensures r.Ok? <==> v.JArr? || v.JStr? || v.JObj?
    ensures v.JArr? ==> r == Ok(v.items)
    ensures v.JStr? ==> r.Ok? && |r.value| == |v.s| && forall i :: 0 <= i < |v.s| ==> r.value[i] == JStr([v.s[i]])
    ensures v.JObj? ==> r.Ok? && |r.value| == |v.fields| && forall i :: 0 <= i < |v.fields| ==> r.value[i] == JStr(v.fields[i].0)
  {
    match v
    case JArr(items) => Ok(items)
    case JStr(s) => Ok(seq(|s|, i requires 0 <= i < |s| => JStr([s[i]])))
    case JObj(fields) => Ok(seq(|fields|, i requires 0 <= i < |fields| => JStr(fields[i].0)))
    case _ => Err("'" + TypeName(v) + "' object is not iterable")
  }

  /** `[x["name"] for x in items]`: the first element without a name raises. */
  function SubscriptNames(items: seq<Json>): (r: Result<seq<Json>>)
    ensures r.Ok? <==> forall i :: 0 <= i < |items| ==> Index(items[i], "name").Ok?
    ensures r.Ok? ==> |r.value| == |items| && forall i :: 0 <= i < |items| ==> r.value[i] == Index(items[i], "name").value
    decreases |items|
  {
    if |items| == 0 then Ok([])
    else
      var head := Index(items[0], "name");
      var rest := SubscriptNames(items[1..]);
      assert forall i :: 1 <= i < |items| ==> items[i] == items[1..][i - 1];
      if head.Err? then Err(head.error)
      else if rest.Err? then Err(rest.error)
      else Ok([head.value] + rest.value)
  }

  /** `[x["name"] for x in v]`: only a list of named dictionaries, an empty string or an empty dictionary passes. */
  function IterNames(v: Json): (r: Result<seq<Json>>)
    ensures v.JArr? ==> r == SubscriptNames(v.items)
    ensures r.Ok? ==> v.JArr? || v == JStr("") || v == JObj([])
  {
    match Iterate(v)
    case Err(e) => Err(e)
    case Ok(items) =>
      var r := SubscriptNames(items);
      assert r.Ok? && |items| > 0 ==> Index(items[0], "name").Ok?;
      r
  }

  /** `str(v)` as an f-string shows a decoded scalar. */
  function PyStr(v: Json): string {
    match v
    case JNull => "None"
    case JBool(b) => if b then "True" else "False"
    case JInt(i) => IntToString(i)
    case JStr(s) => s
    case _ => Dumps(v)
  }

  // ---------------------------------------------------------------- content items

  function Flatten(xss: seq<seq<string>>): seq<string>
    decreases |xss|
  {
    if |xss| == 0 then [] else xss[0] + Flatten(xss[1..])
  }

  /**
   * The text content items FastMCP produces for a tool's return value:
   * nothing for `None`, the string itself for a string, the items of a list
   * one after another (nested lists flattened), and `json.dumps` of anything
   * else.
   */
  function Render(v: Json): seq<string>
    decreases v
  {
    match v
    case JNull => []
    case JStr(s) => [s]
    case JArr(items) => Flatten(seq(|items|, i requires 0 <= i < |items| => Render(items[i])))
    case _ => [Dumps(v)]
  }

  /** `JArr` of the given strings. */
  function StrList(ss: seq<string>): (v: Json)
    ensures v.JArr? && |v.items| == |ss|
    ensures forall i :: 0 <= i < |ss| ==> v.items[i] == JStr(ss[i])
  {
    JArr(seq(|ss|, i requires 0 <= i < |ss| => JStr(ss[i])))
  }

  /** A list of strings is seen by the client as one content item per string, in order. */
  lemma {:induction false} RenderStrList(ss: seq<string>)
    ensures Render(StrList(ss)) == ss
    decreases |ss|
  {
    var xs := StrList(ss).items;
    var parts := seq(|xs|, i requires 0 <= i < |xs| => Render(xs[i]));
    if |ss| > 0 {
      RenderStrList(ss[1..]);
      var ys := StrList(ss[1..]).items;
      var tail := seq(|ys|, i requires 0 <= i < |ys| => Render(ys[i]));
      assert parts[1..] == tail;
      assert parts[0] == [ss[0]];
      assert ss == [ss[0]] + ss[1..];
    } else {
      assert parts == [];
    }
  }
}
