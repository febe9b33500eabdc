/**
 * The context memory MCP server: a process-wide dictionary of entries,
 * mirrored one JSON file per key into a memory directory so that entries
 * survive a restart of the server.
 */
module ContextMemory {
  import opened Wrappers
  import opened JsonValue

  type Memory = map<string, Json>

  /** What a read of a missing key answers. */
  const Sentinel: string := "No entry found for the given key."

  /** The value `read_memory_entry` answers for `key` over the entries `m`. */
  function Lookup(m: Memory, key: string): Json {
    if key in m then m[key] else JStr(Sentinel)
  }

  /** Writing each entry of a dictionary in its iteration order. */
  function WriteAll(m: Memory, entries: seq<(string, Json)>): Memory
    decreases |entries|
  {
    if |entries| == 0 then m else WriteAll(m[entries[0].0 := entries[0].1], entries[1..])
  }

  /** The value the last entry for `key` carries, if any. */
  function LastValue(entries: seq<(string, Json)>, key: string): Option<Json>
    decreases |entries|
  {
    if |entries| == 0 then None
    else if entries[|entries| - 1].0 == key then Some(entries[|entries| - 1].1)
    else LastValue(entries[..|entries| - 1], key)
  }

  lemma {:induction false} WriteAllSnoc(m: Memory, entries: seq<(string, Json)>, e: (string, Json))
    ensures WriteAll(m, entries + [e]) == WriteAll(m, entries)[e.0 := e.1]
    decreases |entries|
  {
    if |entries| > 0 {
      assert (entries + [e])[1..] == entries[1..] + [e];
      WriteAllSnoc(m[entries[0].0 := entries[0].1], entries[1..], e);
    }
  }

  /**
   * After a batch write, a key written in the batch reads back the last value
   * the batch gave it, and any other key reads what it read before.
   */
  lemma {:induction false} WriteAllLookup(m: Memory, entries: seq<(string, Json)>, key: string)
    ensures LastValue(entries, key).Some? ==> Lookup(WriteAll(m, entries), key) == LastValue(entries, key).value
    ensures LastValue(entries, key).None? ==> Lookup(WriteAll(m, entries), key) == Lookup(m, key)
    decreases |entries|
  {
    if |entries| > 0 {
      var init := entries[..|entries| - 1];
      var e := entries[|entries| - 1];
      assert entries == init + [e];
      WriteAllSnoc(m, init, e);
      WriteAllLookup(m, init, key);
    }
  }

  /** A stored sentinel text reads exactly like a missing entry. */
  lemma SentinelIndistinguishable(m: Memory, key: string)
    ensures Lookup(m[key := JStr(Sentinel)], key) == Lookup(m - {key}, key)
  {
  }

  /** The dictionary after a read of `key`: a key found only on disk is loaded. */
  function Load(cache: Memory, files: Memory, key: string): Memory {
    if key !in cache && key in files then cache[key := files[key]] else cache
  }

  /** The dictionary after reading each of `keys` in order. */
  function LoadAll(cache: Memory, files: Memory, keys: seq<string>): Memory
    decreases |keys|
  {
    if |keys| == 0 then cache else Load(LoadAll(cache, files, keys[..|keys| - 1]), files, keys[|keys| - 1])
  }

  /** Files whose name starts with a dot are not loaded at start-up. */
  predicate Hidden(name: string) {
    |name| > 0 && name[0] == '.'
  }

  /** The elements of a set, each once, in some order: the iteration over a dictionary's keys. */
  method ListSet(s: set<string>) returns (keys: seq<string>)
    ensures forall x :: x in keys <==> x in s
    ensures forall i, j :: 0 <= i < j < |keys| ==> keys[i] != keys[j]
  {
    keys := [];
    var rest := s;
    while rest != {}
      invariant rest <= s
      invariant forall x :: x in s <==> x in keys || x in rest
      invariant forall i :: 0 <= i < |keys| ==> keys[i] !in rest
      invariant forall i, j :: 0 <= i < j < |keys| ==> keys[i] != keys[j]
      decreases |rest|
    {
      var k :| k in rest;
      keys := keys + [k];
      rest := rest - {k};
    }
  }

  /** What a write to a file the file system refuses raises. */
  function WriteError(key: string): string {
    "OSError: cannot open the memory file " + key + " for writing"
  }

  /** The position of the first entry whose file the file system refuses, or the number of entries. */
  function FirstRefused(accepts: string -> bool, entries: seq<(string, Json)>): (n: nat)
    ensures n <= |entries|
    ensures forall i :: 0 <= i < n ==> accepts(entries[i].0)
    ensures n < |entries| ==> !accepts(entries[n].0)
    decreases |entries|
  {
    if |entries| == 0 || !accepts(entries[0].0) then 0 else 1 + FirstRefused(accepts, entries[1..])
  }

  /** What a read answers: the dictionary first, then the disk, then the sentinel. */
  function Answer(cache: Memory, files: Memory, key: string): Json {
    if key in cache then cache[key] else Lookup(files, key)
  }

  class MemoryServer {
    /** Whether the file system accepts a file for that key in the memory directory. */
    const accepts: string -> bool
    /** The in-process dictionary. */
    var cache: Memory
    /** The memory directory: file name to the JSON value the file holds. */
    var files: Memory

    /**
     * Only keys the file system accepts are on disk, and every cached entry
     * with such a key is also on disk with the same value.
     */
    ghost predicate Valid()
      reads this
    {
      (forall k :: k in files ==> accepts(k))
      && forall k :: k in cache && accepts(k) ==> k in files && cache[k] == files[k]
    }

    /**
     * Server start-up: an existing memory directory is loaded into the
     * dictionary, skipping hidden files; a missing one is created empty.
     */
    constructor Startup(accepts: string -> bool, dir: Option<Memory>)
      requires dir.Some? ==> forall k :: k in dir.value ==> accepts(k)
      ensures Valid() && this.accepts == accepts
      ensures files == if dir.Some? then dir.value else map[]
      ensures cache == map k | k in files && !Hidden(k) :: files[k]
    {
      this.accepts := accepts;
      files := if dir.Some? then dir.value else map[];
      new;
      cache := map k | k in files && !Hidden(k) :: files[k];
    }

    /**
     * `add_or_update_memory_entry`: the dictionary is updated first; the
     * file is then written, or the write raises and the entry stays cached only.
     */
    method AddOrUpdate(key: string, value: Json) returns (r: Result<bool>)
      requires Valid()
      modifies this
      ensures Valid()
      ensures cache == old(cache)[key := value]
      ensures accepts(key) ==> r == Ok(true) && files == old(files)[key := value]
      ensures !accepts(key) ==> r == Err(WriteError(key)) && files == old(files)
    {
      cache := cache[key := value];
      if !accepts(key) {
        return Err(WriteError(key));
      }
      files := files[key := value];
      r := Ok(true);
    }

    /**
     * `add_or_update_memory_entries`: the entries are written in order; the
     * first refused file raises, after its entry was cached and the earlier
     * entries were written.
     */
    method AddOrUpdateMany(entries: seq<(string, Json)>) returns (r: Result<bool>)
      requires Valid()
      modifies this
      ensures Valid()
      ensures var n := FirstRefused(accepts, entries);
        files == WriteAll(old(files), entries[..n])
        && (n == |entries| ==> r == Ok(true) && cache == WriteAll(old(cache), entries))
        && (n < |entries| ==> r == Err(WriteError(entries[n].0)) && cache == WriteAll(old(cache), entries[..n + 1]))
    {
      ghost var n := FirstRefused(accepts, entries);
      var i := 0;
      while i < |entries|
        invariant 0 <= i <= n && Valid()
        invariant cache == WriteAll(old(cache), entries[..i])
        invariant files == WriteAll(old(files), entries[..i])
      {
        WriteAllSnoc(old(cache), entries[..i], entries[i]);
        WriteAllSnoc(old(files), entries[..i], entries[i]);
        assert entries[..i + 1] == entries[..i] + [entries[i]];
        cache := cache[entries[i].0 := entries[i].1];
        if !accepts(entries[i].0) {
          return Err(WriteError(entries[i].0));
        }
        files := files[entries[i].0 := entries[i].1];
        i := i + 1;
      }
      assert entries[..i] == entries;
      r := Ok(true);
    }

    /**
     * `read_memory_entry`: the cached value, else the value on disk (or the
     * sentinel); an entry found only on disk is loaded into the dictionary.
     * For a key the file system accepts, that is the value on disk.
     */
    method Read(key: string) returns (v: Json)
      requires Valid()
      modifies this
      ensures Valid() && files == old(files)
      ensures v == Answer(old(cache), files, key)
      ensures accepts(key) ==> v == Lookup(files, key)
      ensures cache == Load(old(cache), files, key)
    {
      if key in cache {
        v := cache[key];
      } else if key in files {
        cache := cache[key := files[key]];
        v := cache[key];
      } else {
        v := JStr(Sentinel);
      }
    }

    /** `read_memory_entries`: one answer per requested key, each what a single read answers. */
    method ReadMany(keys: seq<string>) returns (result: map<string, Json>)
      requires Valid()
      modifies this
      ensures Valid() && files == old(files)
      ensures forall k :: k in result <==> k in keys
      ensures forall k :: k in result ==> result[k] == Answer(old(cache), files, k)
      ensures forall k :: k in result && accepts(k) ==> result[k] == Lookup(files, k)
      ensures cache == LoadAll(old(cache), files, keys)
    {
      result := map[];
      var i := 0;
      while i < |keys|
        invariant 0 <= i <= |keys| && Valid() && files == old(files)
        invariant forall k :: k in result <==> k in keys[..i]
        invariant forall k :: k in result ==> result[k] == Answer(old(cache), files, k)
        invariant forall k :: k in old(cache) ==> k in cache && cache[k] == old(cache)[k]
        invariant forall k :: k in cache && k !in old(cache) ==> k in files && cache[k] == files[k]
        invariant cache == LoadAll(old(cache), files, keys[..i])
      {
        var key := keys[i];
        assert keys[..i + 1][..i] == keys[..i];
        assert keys[..i + 1] == keys[..i] + [key];
        if key in cache {
          result := result[key := cache[key]];
        } else if key in files {
          cache := cache[key := files[key]];
          result := result[key := cache[key]];
        } else {
          result := result[key := JStr(Sentinel)];
        }
        i := i + 1;
      }
      assert keys[..i] == keys;
    }

    /** `list_memory_entries`: each key of the dictionary, once. */
    method List() returns (keys: seq<string>)
      ensures forall k :: k in keys <==> k in cache
      ensures forall i, j :: 0 <= i < j < |keys| ==> keys[i] != keys[j]
    {
      keys := ListSet(cache.Keys);
    }

    /** `delete_memory_entry`: removed from the dictionary and from disk. */
    method Delete(key: string) returns (ok: bool)
      requires Valid()
      modifies this
      ensures Valid() && ok
      ensures cache == old(cache) - {key} && files == old(files) - {key}
    {
      cache := cache - {key};
      files := files - {key};
      ok := true;
    }
  }

  /** An entry written under a key the file system accepts is read back after a restart of the server. */
  method RestartRoundTrip(server: MemoryServer, key: string, value: Json) returns (r: Json)
    requires server.Valid() && server.accepts(key)
    modifies server
    ensures r == value
  {
    var _ := server.AddOrUpdate(key, value);
    var restarted := new MemoryServer.Startup(server.accepts, Some(server.files));
    r := restarted.Read(key);
  }
}
