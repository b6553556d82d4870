/** The `api` console command (piker/cli.py): parsing `key=value` arguments
    into keyword arguments, and restricting the broker call's result to the
    keys requested with `--keys`. */
module Cli {
  import opened Results

  // ---------------------------------------------------------------------
  // Keyword-argument parsing

  /** Position of the first `c` in `s`, or `|s|` when there is none. */
  function FirstIndex(s: string, c: char): (r: nat)
    ensures r <= |s|
    ensures r < |s| ==> s[r] == c
    ensures forall i :: 0 <= i < r ==> s[i] != c
    decreases |s|
  {
    if s == [] then 0
    else if s[0] == c then 0
    else 1 + FirstIndex(s[1..], c)
  }

  /** `s.partition(sep)`: split at the FIRST occurrence of `sep`. */
  function Partition(s: string, sep: char): (r: (string, string, string))
    ensures sep in s ==> r.0 + r.1 + r.2 == s && r.1 == [sep] && sep !in r.0
    ensures sep !in s ==> r == (s, "", "")
  {
    var i := FirstIndex(s, sep);
    if i == |s| then (s, "", "")
    else
      assert s == s[..i] + [sep] + s[i + 1..];
      (s[..i], [sep], s[i + 1..])
  }

  /** Splitting undoes joining, whatever the value holds: only the key is
      required to be free of the separator. */
  lemma PartitionJoined(key: string, value: string, sep: char)
    requires sep !in key
    ensures Partition(key + [sep] + value, sep) == (key, [sep], value)
  {
    var s := key + [sep] + value;
    var i := FirstIndex(s, sep);
    assert s[|key|] == sep;
    assert forall j :: 0 <= j < |key| ==> s[j] == key[j];
    assert i == |key|;
    assert s[..i] == key;
    assert s[i + 1..] == value;
  }

  function KeyOf(kwarg: string): string
  {
    Partition(kwarg, '=').0
  }

  function ValueOf(kwarg: string): string
  {
    Partition(kwarg, '=').2
  }

  /** No well-formed argument after position `i` (and before `n`) repeats its key. */
  predicate LastForKey(kwargs: seq<string>, n: nat, i: nat)
    requires i < n <= |kwargs|
  {
    forall j :: i < j < n && '=' in kwargs[j] ==> KeyOf(kwargs[j]) != KeyOf(kwargs[i])
  }

  /** The loop that builds `_kwargs`: arguments without `=` are reported and
      skipped, the others split at their first `=`; a later argument with
      the same key wins. */
  method ParseKwargs(kwargs: seq<string>) returns (parsed: map<string, string>)
    ensures parsed.Keys == set i | 0 <= i < |kwargs| && '=' in kwargs[i] :: KeyOf(kwargs[i])
    ensures forall i :: 0 <= i < |kwargs| && '=' in kwargs[i] && LastForKey(kwargs, |kwargs|, i) ==>
      parsed[KeyOf(kwargs[i])] == ValueOf(kwargs[i])
  {
    parsed := map[];
    var n := 0;
    while n < |kwargs|
      invariant 0 <= n <= |kwargs|
      invariant parsed.Keys == set i | 0 <= i < n && '=' in kwargs[i] :: KeyOf(kwargs[i])
      invariant forall i :: 0 <= i < n && '=' in kwargs[i] && LastForKey(kwargs, n, i) ==>
        parsed[KeyOf(kwargs[i])] == ValueOf(kwargs[i])
    {
      var kwarg := kwargs[n];
      if '=' in kwarg {
        var (key, _, value) := Partition(kwarg, '=');
        parsed := parsed[key := value];
      }
      n := n + 1;
    }
  }

  // ---------------------------------------------------------------------
  // Result filtering with --keys

  /** A value returned by a broker API call. */
  datatype Json =
    | JNull
    | JBool(b: bool)
    | JNum(n: real)
    | JStr(s: string)
    | JList(items: seq<Json>)
    | JDict(fields: map<string, Json>)

  /** The exceptions Python raises while filtering: `item[key]` on a dict
      without that key, and `in`/indexing/iteration on a value that does not
      support it. */
  datatype CliError = KeyError(key: string) | TypeError

  /** `{key: item[key] for key in keys}`, which raises at the first key that
      is missing. */
  function Pick(item: Json, keys: seq<string>): (r: Result<map<string, Json>, CliError>)
    ensures r.Ok? <==> keys == [] || (item.JDict? && forall k :: k in keys ==> k in item.fields)
    ensures r.Ok? ==>
      && r.value.Keys == set k | k in keys
      && forall k :: k in keys ==> item.JDict? && k in item.fields && k in r.value && r.value[k] == item.fields[k]
    ensures r.Err? && !item.JDict? ==> r.error == TypeError
    ensures r.Err? && item.JDict? ==>
      && r.error.KeyError?
      && r.error.key in keys
      && r.error.key !in item.fields
      && forall j :: 0 <= j < |keys| && keys[j] !in item.fields ==> r.error.key in keys[..j + 1]
    decreases |keys|
  {
    if keys == [] then Ok(map[])
    else if !item.JDict? then Err(TypeError)
    else if keys[0] !in item.fields then Err(KeyError(keys[0]))
    else
      match Pick(item, keys[1..])
      case Ok(m) => Ok(m[keys[0] := item.fields[keys[0]]])
      case Err(e) => Err(e)
  }

  /** The `--keys` filtering of `api`. Without keys the data passes through.
      With keys, a dict holding `meth` is taken to hold a list of dicts, each
      restricted to the keys; any other dict is restricted itself and
      wrapped in a one-element list. */
  method FilterKeys(data: Json, meth: string, keys: seq<string>) returns (r: Result<Json, CliError>)
    ensures keys == [] ==> r == Ok(data)
    ensures keys != [] && !data.JDict? ==> r == Err(TypeError)
    ensures keys != [] && data.JDict? && meth !in data.fields ==>
      && (r.Ok? <==> Pick(data, keys).Ok?)
      && (r.Ok? ==> r.value == JList([JDict(Pick(data, keys).value)]))
      && (r.Err? ==> r.error == Pick(data, keys).error)
    ensures keys != [] && data.JDict? && meth in data.fields && data.fields[meth].JList? ==>
      var items := data.fields[meth].items;
      && (r.Ok? <==> forall i :: 0 <= i < |items| ==> Pick(items[i], keys).Ok?)
      && (r.Ok? ==> r.value.JList? && |r.value.items| == |items|
                    && forall i :: 0 <= i < |items| ==> r.value.items[i] == JDict(Pick(items[i], keys).value))
      && (r.Err? ==> exists i :: 0 <= i < |items| && Pick(items[i], keys) == Err(r.error)
                                 && forall j :: 0 <= j < i ==> Pick(items[j], keys).Ok?)
    ensures keys != [] && data.JDict? && meth in data.fields && !data.fields[meth].JList? ==>
      r == if data.fields[meth] == JDict(map[]) || data.fields[meth] == JStr("") then Ok(JList([]))
           else Err(TypeError)
  {
    if keys == [] {
      return Ok(data);
    }
    if !data.JDict? {
      return Err(TypeError);
    }
    if meth !in data.fields {
      var picked := Pick(data, keys);
      if picked.Err? {
        return Err(picked.error);
      }
      return Ok(JList([JDict(picked.value)]));
    }
    var listed := data.fields[meth];
    if !listed.JList? {
      // iterating a dict or a string yields strings, and indexing a string
      // with a key raises; only an empty one is iterated without error
      if listed == JDict(map[]) || listed == JStr("") {
        return Ok(JList([]));
      }
      return Err(TypeError);
    }
    var items := listed.items;
    var filtered: seq<Json> := [];
    var i := 0;
    while i < |items|
      invariant 0 <= i <= |items|
      invariant |filtered| == i
      invariant forall j :: 0 <= j < i ==>
        Pick(items[j], keys).Ok? && filtered[j] == JDict(Pick(items[j], keys).value)
    {
      var picked := Pick(items[i], keys);
      if picked.Err? {
        return Err(picked.error);
      }
      filtered := filtered + [JDict(picked.value)];
      i := i + 1;
    }
    r := Ok(JList(filtered));
  }
}
