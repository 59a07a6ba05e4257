/** The provider registry: a service is chosen by name, or the first
    provider whose client can be constructed is used. Constructing a client
    reads credentials from the environment; that outcome is a parameter. */
module AiModels {
  import opened Wrappers
  import opened Text

  /** The `pydantic_ai` agent of a client, kept opaque. */
  datatype Agent = Agent(id: nat)

  /** A constructed client and its `agent` property. */
  datatype Service = Service(provider: string, agent: Agent)

  /** What calling one provider class's constructor does. */
  datatype Construction =
    | Built(service: Service)
    | MissingCredentials(provider: string)
    | Raised(error: Exception, text: string)

  /** The construction outcome of each registry key's class. */
  type Environment = string -> Construction

  /** `_SERVICE_REGISTRY`'s keys, in insertion order. */
  const Registry: seq<string> :=
    ["gemini", "claude", "deepseek", "groq", "mistral", "ollama", "openai", "openrouter", "xai"]

  /** `str(e)` of a failed construction; a `MissingCredentialsError` shows
      "Missing credentials for {provider}". */
  function FailureText(c: Construction): string
    requires !c.Built?
  {
    match c
    case MissingCredentials(p) => "Missing credentials for " + p
    case Raised(_, t) => t
  }

  /** `if service_name:` — None and "" are falsy. */
  predicate Truthy(name: Option<string>) {
    name.Some? && name.value != ""
  }

  function UnknownService(name: string): Exception {
    ValueError("Unknown service '" + name + "'. Available: " + Join(Registry, ", "))
  }

  /** `_get_specific_service`: the lower-cased name must be a registry key;
      missing credentials become a `ValueError`, any other exception
      propagates. */
  function SpecificService(name: string, env: Environment): Result<Service> {
    var key := Lower(name);
    if key !in Registry then Err(UnknownService(key))
    else
      match env(key)
      case Built(s) => Ok(s)
      case MissingCredentials(_) => Err(ValueError("Missing credentials for " + key))
      case Raised(e, _) => Err(e)
  }

  /** The index of the first name whose class constructs. */
  function FirstBuilt(env: Environment, names: seq<string>): (k: Option<nat>)
    ensures k.Some? ==> k.value < |names| && env(names[k.value]).Built?
    ensures k.Some? ==> forall j :: 0 <= j < k.value ==> !env(names[j]).Built?
    ensures k.None? ==> forall j :: 0 <= j < |names| ==> !env(names[j]).Built?
  {
    if names == [] then None
    else if env(names[0]).Built? then Some(0)
    else
      match FirstBuilt(env, names[1..])
      case None => None
      case Some(i) => Some(i + 1)
  }

  /** One line of the failure report. */
  function ErrorEntry(name: string, c: Construction): string
    requires !c.Built?
  {
    name + ": " + FailureText(c)
  }

  /** The failure report's lines, one per name, in order. */
  function ErrorEntries(env: Environment, names: seq<string>): (r: seq<string>)
    requires forall j :: 0 <= j < |names| ==> !env(names[j]).Built?
    ensures |r| == |names|
    ensures forall j :: 0 <= j < |names| ==> r[j] == ErrorEntry(names[j], env(names[j]))
  {
    seq(|names|, j requires 0 <= j < |names| => ErrorEntry(names[j], env(names[j])))
  }

  function NoProviders(entries: seq<string>): Exception {
    RuntimeError("No available AI providers:\n- " + Join(entries, "\n- "))
  }

  /** What `_find_first_available` returns or raises. */
  function FirstAvailable(env: Environment): Result<Service> {
    match FirstBuilt(env, Registry)
    case Some(k) => Ok(env(Registry[k]).service)
    case None => Err(NoProviders(ErrorEntries(env, Registry)))
  }

  /** `_find_first_available`: tries the classes in registry order and
      returns the first client that constructs. `tried` lists the classes
      whose constructor was called. */
  method FindFirstAvailable(env: Environment) returns (r: Result<Service>, tried: seq<string>)
    ensures r == FirstAvailable(env)
    ensures r.Ok? ==> tried == Registry[..FirstBuilt(env, Registry).value + 1]
    ensures r.Err? ==> tried == Registry
  {
    var errors: seq<string> := [];
    tried := [];
    for i := 0 to |Registry|
      invariant tried == Registry[..i]
      invariant forall j :: 0 <= j < i ==> !env(Registry[j]).Built?
      invariant errors == ErrorEntries(env, Registry[..i])
    {
      var name := Registry[i];
      tried := tried + [name];
      assert Registry[..i + 1] == Registry[..i] + [name];
      var outcome := env(name);
      if outcome.Built? {
        FirstBuiltIsFirst(env, Registry, i);
        return Ok(outcome.service), tried;
      }
      ErrorEntriesSnoc(env, Registry[..i], name);
      errors := errors + [name + ": " + FailureText(outcome)];
    }
    assert Registry[..|Registry|] == Registry;
    r := Err(RuntimeError("No available AI providers:\n- " + Join(errors, "\n- ")));
  }

  /** `get_ai_service`. */
  function GetAiService(serviceName: Option<string>, env: Environment): (r: Result<Service>)
    ensures r.Ok? ==> exists key :: key in Registry && env(key) == Built(r.value)
    ensures Truthy(serviceName) ==> r == SpecificService(serviceName.value, env)
    ensures !Truthy(serviceName) ==> r == FirstAvailable(env)
  {
    if Truthy(serviceName) then
      var r := SpecificService(serviceName.value, env);
      assert r.Ok? ==> Lower(serviceName.value) in Registry && env(Lower(serviceName.value)) == Built(r.value);
      r
    else
      FirstAvailableBuilt(env);
      FirstAvailable(env)
  }

  /** What `get_agent` returns: the client itself for a named service, the
      first available client's agent otherwise. */
  datatype Handle = ServiceObject(service: Service) | AgentObject(agent: Agent)

  /** `get_agent`. */
  function GetAgent(serviceName: Option<string>, env: Environment): (r: Result<Handle>)
    ensures r.Err? <==> GetAiService(serviceName, env).Err?
    ensures r.Err? ==> r.error == GetAiService(serviceName, env).error
    ensures r.Ok? && Truthy(serviceName) ==> r.value == ServiceObject(GetAiService(serviceName, env).value)
    ensures r.Ok? && !Truthy(serviceName) ==> r.value == AgentObject(GetAiService(serviceName, env).value.agent)
  {
    if Truthy(serviceName) then
      match SpecificService(serviceName.value, env)
      case Ok(s) => Ok(ServiceObject(s))
      case Err(e) => Err(e)
    else
      match FirstAvailable(env)
      case Ok(s) => Ok(AgentObject(s.agent))
      case Err(e) => Err(e)
  }

  // ---------------------------------------------------------------------
  // Properties.

  /** A constructed name preceded only by failures is the one `FirstBuilt`
      finds. */
  lemma FirstBuiltIsFirst(env: Environment, names: seq<string>, i: nat)
    requires i < |names| && env(names[i]).Built?
    requires forall j :: 0 <= j < i ==> !env(names[j]).Built?
    ensures FirstBuilt(env, names) == Some(i)
  {
  }

  /** The failure report grows by one line per failed class. */
  lemma ErrorEntriesSnoc(env: Environment, names: seq<string>, name: string)
    requires forall j :: 0 <= j < |names| ==> !env(names[j]).Built?
    requires !env(name).Built?
    ensures ErrorEntries(env, names + [name]) == ErrorEntries(env, names) + [ErrorEntry(name, env(name))]
  {
    var a := ErrorEntries(env, names + [name]);
    var b := ErrorEntries(env, names) + [ErrorEntry(name, env(name))];
    assert forall j :: 0 <= j < |a| ==> a[j] == b[j];
  }

  /** A client the search returns is the one some registry class built. */
  lemma FirstAvailableBuilt(env: Environment)
    ensures FirstAvailable(env).Ok? ==> exists key :: key in Registry && env(key) == Built(FirstAvailable(env).value)
  {
    if FirstAvailable(env).Ok? {
      var k := FirstBuilt(env, Registry).value;
      assert Registry[k] in Registry;
    }
  }

  /** The named lookup: a client exactly when the lower-cased name is a
      registry key whose class constructs; a `ValueError` naming the key for
      unknown names and for missing credentials; any other exception
      unchanged. */
  lemma SpecificServiceOutcome(name: string, env: Environment)
    ensures var key := Lower(name);
            var r := SpecificService(name, env);
            && (r.Ok? <==> key in Registry && env(key).Built?)
            && (r.Ok? ==> r.value == env(key).service)
            && (key !in Registry ==> r == Err(UnknownService(key)))
            && (key in Registry && env(key).MissingCredentials? ==> r == Err(ValueError("Missing credentials for " + key)))
            && (key in Registry && env(key).Raised? ==> r == Err(env(key).error))
  {
  }

  lemma LowerTwice(s: string)
    ensures Lower(Lower(s)) == Lower(s)
  {
    assert forall i :: 0 <= i < |s| ==> LowerChar(LowerChar(s[i])) == LowerChar(s[i]);
  }

  /** Names differing only in case select the same service. */
  lemma NamedLookupIgnoresCase(name: string, env: Environment)
    ensures SpecificService(name, env) == SpecificService(Lower(name), env)
  {
    LowerTwice(name);
  }

  /** The named lookup constructs only the class it names: the other
      classes' outcomes do not matter. */
  lemma NamedLookupIsLocal(name: string, env: Environment, other: Environment)
    requires env(Lower(name)) == other(Lower(name))
    ensures SpecificService(name, env) == SpecificService(name, other)
  {
  }

  /** The fallback returns the client of the first class that constructs,
      and reports when every one fails a `RuntimeError` with one
      "name: error" line per provider in registry order. */
  lemma FirstAvailableOutcome(env: Environment)
    ensures FirstAvailable(env).Ok? <==> exists k :: 0 <= k < |Registry| && env(Registry[k]).Built?
    ensures forall k :: 0 <= k < |Registry| && env(Registry[k]).Built?
                        && (forall j :: 0 <= j < k ==> !env(Registry[j]).Built?)
                        ==> FirstAvailable(env) == Ok(env(Registry[k]).service)
    ensures FirstAvailable(env).Err? ==>
              exists entries: seq<string> ::
                && |entries| == |Registry|
                && (forall j :: 0 <= j < |Registry| ==> !env(Registry[j]).Built? && entries[j] == ErrorEntry(Registry[j], env(Registry[j])))
                && FirstAvailable(env) == Err(NoProviders(entries))
  {
    forall k | 0 <= k < |Registry| && env(Registry[k]).Built? && (forall j :: 0 <= j < k ==> !env(Registry[j]).Built?)
      ensures FirstAvailable(env) == Ok(env(Registry[k]).service)
    {
      FirstBuiltIsFirst(env, Registry, k);
    }
    if FirstAvailable(env).Err? {
      var entries := ErrorEntries(env, Registry);
      assert forall j :: 0 <= j < |Registry| ==> entries[j] == ErrorEntry(Registry[j], env(Registry[j]));
    }
  }

  /** Classes after the first one that constructs are never consulted:
      changing their outcomes changes nothing. */
  lemma LaterProvidersIgnored(env: Environment, other: Environment, k: nat)
    requires FirstBuilt(env, Registry) == Some(k)
    requires forall j :: 0 <= j <= k ==> env(Registry[j]) == other(Registry[j])
    ensures FirstAvailable(env) == FirstAvailable(other)
  {
    FirstBuiltIsFirst(other, Registry, k);
  }

  /** An empty name is falsy: it falls back to the search, exactly like no
      name at all. */
  lemma EmptyNameFallsBack(env: Environment)
    ensures GetAiService(Some(""), env) == GetAiService(None, env) == FirstAvailable(env)
    ensures GetAgent(Some(""), env) == GetAgent(None, env)
  {
  }

  /** A mixed-case name of a class lacking credentials reports the
      lower-cased name. */
  lemma MissingCredentialsNamesKey(env: Environment)
    requires env("claude").MissingCredentials?
    ensures GetAiService(Some("Claude"), env) == Err(ValueError("Missing credentials for claude"))
  {
    assert Lower("Claude") == "claude";
    assert "claude" in Registry;
    assert SpecificService("Claude", env) == Err(ValueError("Missing credentials for " + "claude"));
    assert "Missing credentials for " + "claude" == "Missing credentials for claude";
  }
}
