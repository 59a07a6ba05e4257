/** The `diskcache` decorator: how a call's cache key is built from its
    keyword arguments, and the lookup rule around the wrapped coroutine.
    The on-disk store is a map; the wrapped function's outcomes, the store's
    failures and `orjson.loads` are parameters. */
module DiskCache {
  import opened Wrappers
  import opened Text

  /** The Python values a keyword argument may hold. A dict keeps its
      insertion order; an object has attributes and the text `str` shows
      for it. */
  datatype Value =
    | VNone
    | VBool(b: bool)
    | VInt(i: int)
    | VStr(s: string)
    | VList(items: seq<Value>)
    | VDict(entries: seq<(string, Value)>)
    | VObj(attrs: map<string, Value>, text: string)

  /** Python truthiness; an object without `__bool__` or `__len__` is
      truthy. */
  predicate Truthy(v: Value) {
    match v
    case VNone => false
    case VBool(b) => b
    case VInt(i) => i != 0
    case VStr(s) => s != ""
    case VList(items) => items != []
    case VDict(entries) => entries != []
    case VObj(_, _) => true
  }

  // ---------------------------------------------------------------------
  // resolve_path

  /** `d.get(part)` on an insertion-ordered dict. */
  function DictGet(entries: seq<(string, Value)>, part: string): (r: Value)
    ensures r != VNone ==> exists k :: 0 <= k < |entries| && entries[k] == (part, r)
  {
    if entries == [] then VNone
    else if entries[0].0 == part then entries[0].1
    else
      var r := DictGet(entries[1..], part);
      assert r != VNone ==> exists k :: 0 <= k < |entries[1..]| && entries[1..][k] == (part, r);
      r
  }

  /** One step of `resolve_path`: `.get` on a dict, `getattr(obj, part,
      None)` otherwise. */
  function Step(obj: Value, part: string): Value {
    match obj
    case VDict(entries) => DictGet(entries, part)
    case VObj(attrs, _) => if part in attrs then attrs[part] else VNone
    case _ => VNone
  }

  /** What `resolve_path` returns. */
  function Resolve(obj: Value, path: seq<string>): Value
    decreases |path|
  {
    if path == [] || obj == VNone then obj
    else Resolve(Step(obj, path[0]), path[1..])
  }

  /** `resolve_path`: the loop reassigns `obj` and stops at the first None. */
  method ResolvePath(obj: Value, path: seq<string>) returns (r: Value)
    ensures r == Resolve(obj, path)
  {
    r := obj;
    var i := 0;
    while i < |path|
      invariant 0 <= i <= |path|
      invariant Resolve(r, path[i..]) == Resolve(obj, path)
    {
      if r == VNone {
        break;
      }
      assert path[i..][1..] == path[i + 1..];
      r := Step(r, path[i]);
      i := i + 1;
    }
    assert i == |path| ==> path[i..] == [];
  }

  // ---------------------------------------------------------------------
  // Configuration of the decorator

  /** One element of a `cache_owner_path` list: a dotted string or an
      already split path. */
  datatype OwnerItem = Dotted(s: string) | Parts(parts: seq<string>)

  /** The `cache_owner_path` argument; any other type is `Unsupported`. */
  datatype OwnerSpec = NoOwner | OwnerString(s: string) | OwnerList(items: seq<OwnerItem>) | Unsupported

  function ItemPath(item: OwnerItem): seq<string> {
    match item
    case Dotted(s) => Split(s, '.')
    case Parts(parts) => parts
  }

  /** `owner_paths`. */
  function OwnerPaths(spec: OwnerSpec): (r: seq<seq<string>>)
    ensures spec.OwnerString? ==> r == [Split(spec.s, '.')]
    ensures spec.OwnerList? ==> |r| == |spec.items| && forall k :: 0 <= k < |r| ==> r[k] == ItemPath(spec.items[k])
    ensures spec.NoOwner? || spec.Unsupported? ==> r == []
  {
    match spec
    case OwnerString(s) => [Split(s, '.')]
    case OwnerList(items) => seq(|items|, k requires 0 <= k < |items| => ItemPath(items[k]))
    case _ => []
  }

  /** What the decorator captures: the owner paths and the parameter
      names (`cache_params or []`). */
  datatype Config = Config(ownerPaths: seq<seq<string>>, cacheParams: seq<string>)

  function Configure(owner: OwnerSpec, cacheParams: Option<seq<string>>): (c: Config)
    ensures c.ownerPaths == OwnerPaths(owner)
    ensures cacheParams.Some? ==> c.cacheParams == cacheParams.value
    ensures cacheParams.None? ==> c.cacheParams == []
  {
    Config(OwnerPaths(owner), if cacheParams.Some? then cacheParams.value else [])
  }

  // ---------------------------------------------------------------------
  // str and orjson.dumps

  /** `repr` of a value inside a container. */
  function Repr(v: Value): string
    decreases v, 1
  {
    match v
    case VStr(s) => StrRepr(s)
    case _ => Str(v)
  }

  /** `str(v)`. */
  function Str(v: Value): string
    decreases v, 0
  {
    match v
    case VNone => "None"
    case VBool(b) => if b then "True" else "False"
    case VInt(i) => IntToString(i)
    case VStr(s) => s
    case VList(items) =>
      "[" + Join(seq(|items|, k requires 0 <= k < |items| => Repr(items[k])), ", ") + "]"
    case VDict(entries) =>
      "{" + Join(seq(|entries|, k requires 0 <= k < |entries| => StrRepr(entries[k].0) + ": " + Repr(entries[k].1)), ", ") + "}"
    case VObj(_, text) => text
  }

  /** The JSON escape of one character: quote, backslash and the control
      characters; everything else, non-ASCII included, is kept. */
  function EscapeChar(c: char): string {
    if c == '"' then "\\\""
    else if c == '\\' then "\\\\"
    else if c == '\n' then "\\n"
    else if c == '\r' then "\\r"
    else if c == '\t' then "\\t"
    else if c as int == 8 then "\\b"
    else if c as int == 12 then "\\f"
    else if (c as int) < 0x20 then "\\u00" + [HexDigit(c as int / 16), HexDigit(c as int % 16)]
    else [c]
  }

  function Escape(s: string): string {
    if s == [] then "" else EscapeChar(s[0]) + Escape(s[1..])
  }

  function JsonString(s: string): string {
    "\"" + Escape(s) + "\""
  }

  /** The first error among the parts, or all their texts. */
  function AllOk(parts: seq<Result<string>>): (r: Result<seq<string>>)
    ensures r.Ok? <==> forall k :: 0 <= k < |parts| ==> parts[k].Ok?
    ensures r.Ok? ==> |r.value| == |parts| && forall k :: 0 <= k < |parts| ==> r.value[k] == parts[k].value
  {
    if parts == [] then Ok([])
    else if parts[0].Err? then Err(parts[0].error)
    else
      var rest := AllOk(parts[1..]);
      if rest.Err? then
        assert exists k :: 0 <= k < |parts[1..]| && parts[1..][k].Err?;
        Err(rest.error)
      else Ok([parts[0].value] + rest.value)
  }

  const MinI64: int := -0x8000_0000_0000_0000
  const MaxU64: int := 0xFFFF_FFFF_FFFF_FFFF

  /** `orjson.dumps(v).decode()`: compact JSON. Integers outside the 64-bit
      range and arbitrary objects raise `JSONEncodeError`, a `TypeError`. */
  function Json(v: Value): (r: Result<string>)
    ensures v.VObj? ==> r == Err(TypeError)
    ensures v.VInt? ==> (r.Ok? <==> MinI64 <= v.i <= MaxU64)
  {
    match v
    case VNone => Ok("null")
    case VBool(b) => Ok(if b then "true" else "false")
    case VInt(i) => if MinI64 <= i <= MaxU64 then Ok(IntToString(i)) else Err(TypeError)
    case VStr(s) => Ok(JsonString(s))
    case VList(items) =>
      var texts :- AllOk(seq(|items|, k requires 0 <= k < |items| => Json(items[k])));
      Ok("[" + Join(texts, ",") + "]")
    case VDict(entries) =>
      var texts :- AllOk(seq(|entries|, k requires 0 <= k < |entries| => Member(entries[k].0, Json(entries[k].1))));
      Ok("{" + Join(texts, ",") + "}")
    case VObj(_, _) => Err(TypeError)
  }

  function Member(name: string, value: Result<string>): Result<string> {
    if value.Err? then Err(value.error) else Ok(JsonString(name) + ":" + value.value)
  }

  // ---------------------------------------------------------------------
  // The cache key

  /** `kwargs.get(name)`. */
  function Arg(kwargs: map<string, Value>, name: string): Value {
    if name in kwargs then kwargs[name] else VNone
  }

  /** The key part one owner path contributes: the resolved value as
      `str`, when the path is non-empty and the value truthy. */
  function OwnerPart(path: seq<string>, kwargs: map<string, Value>): (r: seq<string>)
    ensures |r| <= 1
  {
    if path == [] then []
    else
      var prop := Resolve(Arg(kwargs, path[0]), path[1..]);
      if Truthy(prop) then [Str(prop)] else []
  }

  /** The owner parts, in path order. */
  function OwnerParts(paths: seq<seq<string>>, kwargs: map<string, Value>): (r: seq<string>)
    ensures |r| <= |paths|
  {
    if paths == [] then []
    else
      var n := |paths| - 1;
      OwnerParts(paths[..n], kwargs) + OwnerPart(paths[n], kwargs)
  }

  function Names(entries: seq<(string, Value)>): set<string> {
    set e | e in entries :: e.0
  }

  /** `{param: kwargs.get(param) for param in cache_params if param in
      kwargs}`: a repeated name keeps its first position. */
  function ParamEntries(cacheParams: seq<string>, kwargs: map<string, Value>): (r: seq<(string, Value)>)
    ensures forall k :: 0 <= k < |r| ==> r[k].0 in cacheParams && r[k].0 in kwargs && r[k].1 == kwargs[r[k].0]
    ensures forall p :: p in cacheParams && p in kwargs <==> p in Names(r)
    ensures forall j, k :: 0 <= j < k < |r| ==> r[j].0 != r[k].0
  {
    if cacheParams == [] then []
    else
      var n := |cacheParams| - 1;
      var pre := ParamEntries(cacheParams[..n], kwargs);
      var p := cacheParams[n];
      assert forall q :: q in cacheParams <==> q in cacheParams[..n] || q == p;
      if p in kwargs && p !in Names(pre) then
        var r := pre + [(p, kwargs[p])];
        assert r[|pre|].0 == p;
        assert forall e :: e in r <==> e in pre || e == (p, kwargs[p]);
        r
      else pre
  }

  /** The parts joined into the key: module and name, the owner parts, and
      the JSON of the present parameters when there are any. */
  function CacheKey(moduleName: string, name: string, cfg: Config, kwargs: map<string, Value>): (r: Result<string>)
  {
    var owners := [moduleName, name] + OwnerParts(cfg.ownerPaths, kwargs);
    var params := ParamEntries(cfg.cacheParams, kwargs);
    if params == [] then Ok(Join(owners, ":"))
    else
      var json :- Json(VDict(params));
      Ok(Join(owners + [json], ":"))
  }

  /** The key-building part of `wrapper`: `key_parts` grows path by path. */
  method BuildKey(moduleName: string, name: string, cfg: Config, kwargs: map<string, Value>) returns (key: Result<string>)
    ensures key == CacheKey(moduleName, name, cfg, kwargs)
  {
    var keyParts := [moduleName, name];
    var paths := cfg.ownerPaths;
    for j := 0 to |paths|
      invariant keyParts == [moduleName, name] + OwnerParts(paths[..j], kwargs)
    {
      var path := paths[j];
      assert paths[..j + 1][..j] == paths[..j];
      if |path| > 0 {
        var prop := ResolvePath(Arg(kwargs, path[0]), path[1..]);
        if Truthy(prop) {
          keyParts := keyParts + [Str(prop)];
        }
      }
    }
    assert paths[..|paths|] == paths;
    var params := ParamEntries(cfg.cacheParams, kwargs);
    if params != [] {
      var result := Json(VDict(params));
      if result.Err? {
        return Err(result.error);
      }
      keyParts := keyParts + [result.value];
    }
    key := Ok(Join(keyParts, ":"));
  }

  // ---------------------------------------------------------------------
  // The store and the wrapper

  /** The on-disk cache, as a map from key to stored value. Expiry is not
      modelled. */
  class Store {
    var entries: map<string, Value>

    constructor()
      ensures entries == map[]
    {
      entries := map[];
    }

    /** `Cache.get(key)`: None for a missing key. */
    function Get(key: string): (v: Value)
      reads this
      ensures key !in entries ==> v == VNone
      ensures key in entries ==> v == entries[key]
    {
      if key in entries then entries[key] else VNone
    }

    /** `Cache.set(key, value)`. */
    method Set(key: string, v: Value)
      modifies this
      ensures entries == old(entries)[key := v]
    {
      entries := entries[key := v];
    }
  }

  /** What can happen around the wrapped call: `openError` is what
      `get_disk_cache()` raises, if anything; `getFails` and `setFails` say
      whether the store raises on lookup or on storing; `first` and
      `second` are the outcomes of the first and second call of the
      wrapped function. */
  datatype Env = Env(openError: Option<Exception>, getFails: bool, setFails: bool,
                     first: Result<Value>, second: Result<Value>)

  /** A call's result, how often the wrapped function ran, and the store
      afterwards. */
  datatype Outcome = Outcome(result: Result<Value>, calls: nat, store: map<string, Value>)

  /** The value a hit returns: a string is JSON-parsed when `loads`
      accepts it; `orjson.loads` raises for a dict, which is then returned
      as is; anything else is returned as is. */
  function OnHit(cached: Value, loads: string -> Option<Value>): Value {
    if cached.VStr? && loads(cached.s).Some? then loads(cached.s).value else cached
  }

  /** The wrapper's behaviour. */
  function Invoke(store: map<string, Value>, key: Result<string>, env: Env, loads: string -> Option<Value>): (o: Outcome)
  {
    if env.openError.Some? then Outcome(Err(env.openError.value), 0, store)
    else if key.Err? then Outcome(Err(key.error), 0, store)
    else if env.getFails then Outcome(env.first, 1, store)
    else
      var cached := if key.value in store then store[key.value] else VNone;
      if cached != VNone then Outcome(Ok(OnHit(cached, loads)), 0, store)
      else if env.first.Err? then Outcome(env.second, 2, store)
      else if env.setFails then Outcome(env.second, 2, store)
      else Outcome(env.first, 1, store[key.value := env.first.value])
  }

  /** `wrapper(*args, **kwargs)`. */
  method Wrapper(cache: Store, moduleName: string, name: string, cfg: Config, kwargs: map<string, Value>,
                 env: Env, loads: string -> Option<Value>)
    returns (r: Result<Value>, calls: nat)
    modifies cache
    ensures var o := Invoke(old(cache.entries), CacheKey(moduleName, name, cfg, kwargs), env, loads);
            r == o.result && calls == o.calls && cache.entries == o.store
  {
    if env.openError.Some? {
      return Err(env.openError.value), 0;
    }
    var key := BuildKey(moduleName, name, cfg, kwargs);
    if key.Err? {
      return Err(key.error), 0;
    }
    if env.getFails {
      return env.first, 1;
    }
    var cachedValue := cache.Get(key.value);
    if cachedValue != VNone {
      return Ok(OnHit(cachedValue, loads)), 0;
    }
    var response := env.first;
    calls := 1;
    if response.Err? {
      return env.second, 2;
    }
    if env.setFails {
      return env.second, 2;
    }
    cache.Set(key.value, response.value);
    r := response;
  }

  // ---------------------------------------------------------------------
  // Properties of resolve_path and of the owner paths.

  /** Following `p` then `q` is following `p + q`; once a step yields None
      the rest of the path is skipped. */
  lemma {:induction false} ResolveCompose(obj: Value, p: seq<string>, q: seq<string>)
    ensures Resolve(obj, p + q) == Resolve(Resolve(obj, p), q)
    ensures Resolve(VNone, q) == VNone
    decreases |p|
  {
    if p != [] && obj != VNone {
      assert (p + q)[1..] == p[1..] + q;
      ResolveCompose(Step(obj, p[0]), p[1..], q);
    } else if p == [] {
      assert p + q == q;
    }
  }

  lemma JoinCons(a: string, rest: seq<string>, sep: string)
    requires rest != []
    ensures Join([a] + rest, sep) == a + sep + Join(rest, sep)
  {
    assert ([a] + rest)[1..] == rest;
  }

  lemma JoinHead(a: string, x: string, rest: seq<string>, sep: string)
    ensures Join([a + x] + rest, sep) == a + Join([x] + rest, sep)
  {
    if rest != [] {
      JoinCons(a + x, rest, sep);
      JoinCons(x, rest, sep);
    }
  }

  /** Joining the pieces of a split with the separator restores the
      text. */
  lemma {:induction false} JoinSplit(s: string, c: char)
    ensures Join(Split(s, c), [c]) == s
  {
    if s != [] {
      var rest := Split(s[1..], c);
      JoinSplit(s[1..], c);
      if s[0] == c {
        JoinCons("", rest, [c]);
        assert s == [c] + s[1..];
      } else {
        assert Split(s, c) == [[s[0]] + rest[0]] + rest[1..];
        JoinHead([s[0]], rest[0], rest[1..], [c]);
        assert [rest[0]] + rest[1..] == rest;
        assert s == [s[0]] + s[1..];
      }
    }
  }

  /** No piece of a split holds the separator. */
  lemma {:induction false} SplitPiecesLackSeparator(s: string, c: char)
    ensures forall k :: 0 <= k < |Split(s, c)| ==> c !in Split(s, c)[k]
  {
    if s != [] {
      var rest := Split(s[1..], c);
      SplitPiecesLackSeparator(s[1..], c);
      if s[0] != c {
        assert Split(s, c) == [[s[0]] + rest[0]] + rest[1..];
        assert forall k :: 1 <= k < |Split(s, c)| ==> Split(s, c)[k] == rest[k];
      }
    }
  }

  /** A dotted owner string becomes one path whose parts, joined with ".",
      give the string back; a list keeps one path per element. */
  lemma OwnerStringRoundTrip(s: string)
    ensures |OwnerPaths(OwnerString(s))| == 1
    ensures Join(OwnerPaths(OwnerString(s))[0], ".") == s
    ensures forall part :: part in OwnerPaths(OwnerString(s))[0] ==> '.' !in part
  {
    JoinSplit(s, '.');
    SplitPiecesLackSeparator(s, '.');
  }

  // ---------------------------------------------------------------------
  // Properties of the key.

  /** Owner parts depend only on the arguments the paths start from. */
  lemma {:induction false} OwnerPartsAgree(paths: seq<seq<string>>, k1: map<string, Value>, k2: map<string, Value>)
    requires forall path :: path in paths && path != [] ==> Arg(k1, path[0]) == Arg(k2, path[0])
    ensures OwnerParts(paths, k1) == OwnerParts(paths, k2)
    decreases |paths|
  {
    if paths != [] {
      var n := |paths| - 1;
      assert forall path :: path in paths[..n] ==> path in paths;
      OwnerPartsAgree(paths[..n], k1, k2);
      assert paths[n] in paths;
    }
  }

  /** Owner paths whose values are all falsy add nothing. */
  lemma {:induction false} FalsyOwnersAddNothing(paths: seq<seq<string>>, kwargs: map<string, Value>)
    requires forall path :: path in paths && path != [] ==> !Truthy(Resolve(Arg(kwargs, path[0]), path[1..]))
    ensures OwnerParts(paths, kwargs) == []
    decreases |paths|
  {
    if paths != [] {
      var n := |paths| - 1;
      assert forall path :: path in paths[..n] ==> path in paths;
      FalsyOwnersAddNothing(paths[..n], kwargs);
      assert paths[n] in paths;
    }
  }

  /** The present parameters depend only on the named arguments. */
  lemma {:induction false} ParamEntriesAgree(names: seq<string>, k1: map<string, Value>, k2: map<string, Value>)
    requires forall p :: p in names ==> (p in k1 <==> p in k2) && (p in k1 ==> k1[p] == k2[p])
    ensures ParamEntries(names, k1) == ParamEntries(names, k2)
    decreases |names|
  {
    if names != [] {
      var n := |names| - 1;
      assert forall p :: p in names[..n] ==> p in names;
      ParamEntriesAgree(names[..n], k1, k2);
      assert names[n] in names;
    }
  }

  /** The key depends only on the arguments the owner paths start from and
      on the cached parameters: two calls that agree on those share their
      cache entry, whatever their other arguments. */
  lemma KeyIgnoresOtherArguments(moduleName: string, name: string, cfg: Config, k1: map<string, Value>, k2: map<string, Value>)
    requires forall path :: path in cfg.ownerPaths && path != [] ==> Arg(k1, path[0]) == Arg(k2, path[0])
    requires forall p :: p in cfg.cacheParams ==> (p in k1 <==> p in k2) && (p in k1 ==> k1[p] == k2[p])
    ensures CacheKey(moduleName, name, cfg, k1) == CacheKey(moduleName, name, cfg, k2)
  {
    OwnerPartsAgree(cfg.ownerPaths, k1, k2);
    ParamEntriesAgree(cfg.cacheParams, k1, k2);
  }

  /** The joined key parts start with the module and the function name. */
  lemma JoinStartsWith(a: string, b: string, rest: seq<string>, sep: string)
    ensures StartsWith(Join([a, b] + rest, sep), a + sep + b)
    ensures rest == [] ==> Join([a, b] + rest, sep) == a + sep + b
  {
    JoinCons(a, [b] + rest, sep);
    assert [a, b] + rest == [a] + ([b] + rest);
    if rest != [] {
      JoinCons(b, rest, sep);
    } else {
      assert [b] + rest == [b];
    }
  }

  /** The key starts with the module and the function name. */
  lemma KeyStartsWithFunction(moduleName: string, name: string, cfg: Config, kwargs: map<string, Value>)
    requires CacheKey(moduleName, name, cfg, kwargs).Ok?
    ensures StartsWith(CacheKey(moduleName, name, cfg, kwargs).value, moduleName + ":" + name)
  {
    var owners := OwnerParts(cfg.ownerPaths, kwargs);
    var params := ParamEntries(cfg.cacheParams, kwargs);
    if params == [] {
      JoinStartsWith(moduleName, name, owners, ":");
    } else {
      JoinStartsWith(moduleName, name, owners + [Json(VDict(params)).value], ":");
      assert [moduleName, name] + owners + [Json(VDict(params)).value] == [moduleName, name] + (owners + [Json(VDict(params)).value]);
    }
  }

  /** Without parameters and with only falsy owners the key is exactly
      module:name. */
  lemma BareKey(moduleName: string, name: string, cfg: Config, kwargs: map<string, Value>)
    requires ParamEntries(cfg.cacheParams, kwargs) == []
    requires forall path :: path in cfg.ownerPaths && path != [] ==> !Truthy(Resolve(Arg(kwargs, path[0]), path[1..]))
    ensures CacheKey(moduleName, name, cfg, kwargs) == Ok(moduleName + ":" + name)
  {
    FalsyOwnersAddNothing(cfg.ownerPaths, kwargs);
    JoinStartsWith(moduleName, name, [], ":");
    assert [moduleName, name] + [] == [moduleName, name];
  }

  /** The owner paths of the decorator on `fetch_messages_from_last_x_hours`:
      the single path ["peer_id"], and no parameters. */
  lemma PeerIdConfig()
    ensures Configure(OwnerString("peer_id"), None) == Config([["peer_id"]], [])
  {
    SplitNoSeparator("peer_id", '.');
  }

  /** With a single one-part owner path and no parameters, the key is
      module:name:value for a truthy value and module:name otherwise. */
  lemma SingleOwnerKey(moduleName: string, name: string, owner: string, kwargs: map<string, Value>)
    ensures var v := Arg(kwargs, owner);
            CacheKey(moduleName, name, Config([[owner]], []), kwargs)
               == Ok(moduleName + ":" + name + (if Truthy(v) then ":" + Str(v) else ""))
  {
    var v := Arg(kwargs, owner);
    assert [owner][1..] == [];
    assert Resolve(v, []) == v;
    assert OwnerParts([[owner]], kwargs) == OwnerPart([owner], kwargs);
    assert ParamEntries([], kwargs) == [];
    if Truthy(v) {
      assert OwnerPart([owner], kwargs) == [Str(v)];
      JoinThree(moduleName, name, Str(v), ":");
      assert CacheKey(moduleName, name, Config([[owner]], []), kwargs) == Ok(Join([moduleName, name] + [Str(v)], ":"));
      assert Join([moduleName, name] + [Str(v)], ":") == moduleName + ":" + name + (":" + Str(v));
    } else {
      assert OwnerPart([owner], kwargs) == [];
      JoinStartsWith(moduleName, name, [], ":");
      assert [moduleName, name] + [] == [moduleName, name];
      assert CacheKey(moduleName, name, Config([[owner]], []), kwargs) == Ok(Join([moduleName, name], ":"));
      assert moduleName + ":" + name + "" == moduleName + ":" + name;
    }
  }

  lemma JoinThree(a: string, b: string, c: string, sep: string)
    ensures Join([a, b] + [c], sep) == a + sep + b + (sep + c)
  {
    assert [a, b] + [c] == [a] + ([b] + [c]);
    JoinCons(a, [b] + [c], sep);
    JoinCons(b, [c], sep);
    assert Join([c], sep) == c;
  }

  /** With the decorator on `fetch_messages_from_last_x_hours` the key is
      module:name:peer_id for a truthy peer id and module:name otherwise. */
  lemma PeerIdKey(moduleName: string, name: string, kwargs: map<string, Value>)
    ensures var peer := Arg(kwargs, "peer_id");
            CacheKey(moduleName, name, Configure(OwnerString("peer_id"), None), kwargs)
               == Ok(moduleName + ":" + name + (if Truthy(peer) then ":" + Str(peer) else ""))
  {
    PeerIdConfig();
    SingleOwnerKey(moduleName, name, "peer_id", kwargs);
  }

  /** So calls differing only in `hours` share one entry. */
  lemma HoursShareEntry(moduleName: string, name: string, kwargs: map<string, Value>, hours: Value)
    ensures var cfg := Configure(OwnerString("peer_id"), None);
            CacheKey(moduleName, name, cfg, kwargs["hours" := hours]) == CacheKey(moduleName, name, cfg, kwargs)
  {
    PeerIdConfig();
    KeyIgnoresOtherArguments(moduleName, name, Config([["peer_id"]], []), kwargs, kwargs["hours" := hours]);
  }

  // ---------------------------------------------------------------------
  // Properties of the lookup rule.

  /** The wrapped function runs at most twice, and the store changes only
      at the call's key, where it receives the function's first result. */
  lemma InvokeFrame(store: map<string, Value>, key: Result<string>, env: Env, loads: string -> Option<Value>)
    ensures var o := Invoke(store, key, env, loads);
            && o.calls <= 2
            && (o.store == store || (key.Ok? && env.first.Ok? && o.calls == 1
                                     && o.store == store[key.value := env.first.value]))
  {
  }

  /** A hit (a stored value other than None) never calls the function and
      leaves the store alone. */
  lemma HitSkipsCall(store: map<string, Value>, key: string, env: Env, loads: string -> Option<Value>)
    requires env.openError.None? && !env.getFails
    requires key in store && store[key] != VNone
    ensures Invoke(store, Ok(key), env, loads) == Outcome(Ok(OnHit(store[key], loads)), 0, store)
  {
  }

  /** A miss calls the function once and stores its result, unless the
      call or the store raises: then the function is called a second time
      and that result is returned uncached. */
  lemma MissCallsAndStores(store: map<string, Value>, key: string, env: Env, loads: string -> Option<Value>)
    requires env.openError.None? && !env.getFails
    requires key !in store || store[key] == VNone
    ensures env.first.Ok? && !env.setFails ==>
              Invoke(store, Ok(key), env, loads) == Outcome(env.first, 1, store[key := env.first.value])
    ensures env.first.Err? || env.setFails ==>
              Invoke(store, Ok(key), env, loads) == Outcome(env.second, 2, store)
  {
  }

  /** Two calls with the same key: a stored result that is neither None
      nor a string is returned the second time without calling the
      function again. */
  lemma SecondCallHits(store: map<string, Value>, key: string, env1: Env, env2: Env, loads: string -> Option<Value>)
    requires env1.openError.None? && !env1.getFails && !env1.setFails && env1.first.Ok?
    requires key !in store || store[key] == VNone
    requires env1.first.value != VNone && !env1.first.value.VStr?
    requires env2.openError.None? && !env2.getFails
    ensures var o1 := Invoke(store, Ok(key), env1, loads);
            var o2 := Invoke(o1.store, Ok(key), env2, loads);
            o1.result == o2.result && o1.calls == 1 && o2.calls == 0
  {
    MissCallsAndStores(store, key, env1, loads);
    var o1 := Invoke(store, Ok(key), env1, loads);
    HitSkipsCall(o1.store, key, env2, loads);
  }

  /** A stored string comes back parsed: when `loads` reads a different
      value from it, the first and the second call disagree. */
  lemma CachedStringComesBackParsed(store: map<string, Value>, key: string, env1: Env, env2: Env,
                                    loads: string -> Option<Value>, s: string)
    requires env1.openError.None? && !env1.getFails && !env1.setFails && env1.first == Ok(VStr(s))
    requires key !in store || store[key] == VNone
    requires env2.openError.None? && !env2.getFails
    requires s != ""
    ensures var o1 := Invoke(store, Ok(key), env1, loads);
            var o2 := Invoke(o1.store, Ok(key), env2, loads);
            && o1.result == Ok(VStr(s)) && o2.calls == 0
            && o2.result == Ok(if loads(s).Some? then loads(s).value else VStr(s))
  {
    MissCallsAndStores(store, key, env1, loads);
    var o1 := Invoke(store, Ok(key), env1, loads);
    HitSkipsCall(o1.store, key, env2, loads);
  }

  /** A None result is stored but reads as a miss, so the next call runs
      the function again. */
  lemma NoneIsRecomputed(store: map<string, Value>, key: string, env1: Env, env2: Env, loads: string -> Option<Value>)
    requires env1.openError.None? && !env1.getFails && !env1.setFails && env1.first == Ok(VNone)
    requires env2.openError.None? && !env2.getFails
    ensures var o1 := Invoke(store, Ok(key), env1, loads);
            var o2 := Invoke(o1.store, Ok(key), env2, loads);
            (key !in store || store[key] == VNone) ==> o1.calls == 1 && o2.calls >= 1
  {
  }

  /** A failing first call runs the function twice; the cache is not
      touched. */
  lemma FailingCallRunsTwice(store: map<string, Value>, key: string, env: Env, loads: string -> Option<Value>)
    requires env.openError.None? && !env.getFails && env.first.Err?
    requires key !in store || store[key] == VNone
    ensures Invoke(store, Ok(key), env, loads) == Outcome(env.second, 2, store)
  {
  }
}
