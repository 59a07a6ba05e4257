/** The node classes of the graph: the platform enumeration, equality by
    uuid, and the `(query, params)` pairs a node produces for fetching,
    deleting and saving itself. */
module OrganonNodes {
  import opened Wrappers
  import opened Text
  import Op = OrganonNodeOp

  // ---------------------------------------------------------------------
  // PlatformType

  datatype Platform = Global | Telegram | Discord | Twitter {
    /** The integer stored in the database. */
    function Value(): int {
      match this
      case Global => 1
      case Telegram => 2
      case Discord => 3
      case Twitter => 4
    }

    /** The member name. */
    function Name(): string {
      match this
      case Global => "GLOBAL"
      case Telegram => "TELEGRAM"
      case Discord => "DISCORD"
      case Twitter => "TWITTER"
    }
  }

  /** The members in declaration order. */
  const Platforms: seq<Platform> := [Global, Telegram, Discord, Twitter]

  /** An argument whose Python type is not fixed. A `bool` is an `int` in
      Python, so it passes an `isinstance(x, int)` test. */
  datatype PyValue = PyInt(i: int) | PyBool(b: bool) | PyStr(s: string) | PyNone

  function BoolText(b: bool): string { if b then "True" else "False" }

  /** `PlatformType(v)`: lookup by value; `True` and `False` look up 1 and 0. */
  function ByValue(v: int): Option<Platform> {
    if v == 1 then Some(Global)
    else if v == 2 then Some(Telegram)
    else if v == 3 then Some(Discord)
    else if v == 4 then Some(Twitter)
    else None
  }

  /** `PlatformType.from_int`. */
  function FromInt(v: PyValue): (r: Result<Platform>)
    ensures r.Err? ==> r.error.ValueError?
  {
    match v
    case PyInt(i) =>
      if ByValue(i).Some? then Ok(ByValue(i).value)
      else Err(ValueError(IntToString(i) + " is not a valid PlatformType"))
    case PyBool(b) =>
      if b then Ok(Global) else Err(ValueError("False is not a valid PlatformType"))
    case _ => Err(ValueError("Platform integer must be an integer"))
  }

  /** The lower-cased member names `from_string` compares against. */
  const LowerNames: seq<string> := ["global", "telegram", "discord", "twitter"]

  /** `cls[name]`: lookup by member name, which is case-sensitive. */
  function ByName(name: string): Option<Platform> {
    if name == "GLOBAL" then Some(Global)
    else if name == "TELEGRAM" then Some(Telegram)
    else if name == "DISCORD" then Some(Discord)
    else if name == "TWITTER" then Some(Twitter)
    else None
  }

  /** `PlatformType.from_string` as written: the input is upper-cased but
      compared against lower-cased names. */
  function FromStringAsWritten(v: PyValue): Result<Platform> {
    match v
    case PyStr(s) =>
      var upper := Upper(s);
      if upper !in LowerNames then Err(ValueError("Unsupported platform: " + upper))
      else if ByName(upper).Some? then Ok(ByName(upper).value)
      else Err(KeyError)
    case _ => Err(ValueError("Platform string must be a string"))
  }

  /** `PlatformType.from_string` as intended: a case-insensitive lookup by
      member name. */
  function FromString(v: PyValue): Result<Platform> {
    match v
    case PyStr(s) =>
      var upper := Upper(s);
      if ByName(upper).None? then Err(ValueError("Unsupported platform: " + upper))
      else Ok(ByName(upper).value)
    case _ => Err(ValueError("Platform string must be a string"))
  }

  /** `from_int` accepts exactly the four values and inverts `.value`. */
  lemma FromIntInvertsValue(p: Platform, i: int)
    ensures FromInt(PyInt(p.Value())) == Ok(p)
    ensures FromInt(PyInt(i)).Ok? <==> 1 <= i <= 4
    ensures FromInt(PyInt(i)).Ok? ==> FromInt(PyInt(i)).value.Value() == i
    ensures FromInt(PyBool(true)) == Ok(Global) && FromInt(PyBool(false)).Err?
    ensures FromInt(PyStr("invalid")).Err? && FromInt(PyNone).Err?
  {
  }

  /** Upper-casing leaves no lower-case ASCII letter behind. */
  lemma UpperHasNoLowercase(s: string, k: int)
    requires 0 <= k < |s|
    ensures !('a' <= Upper(s)[k] <= 'z')
  {
  }

  /** `from_string` as written raises ValueError for every input: an
      upper-cased string never equals a lower-case name. */
  lemma FromStringAlwaysRaises(v: PyValue)
    ensures FromStringAsWritten(v).Err?
    ensures FromStringAsWritten(v).error.ValueError?
  {
    if v.PyStr? {
      var upper := Upper(v.s);
      forall n | n in LowerNames
        ensures upper != n
      {
        if upper == n {
          UpperHasNoLowercase(v.s, 0);
        }
      }
    }
  }

  lemma UpperCaseChar(c: char)
    requires 'A' <= c <= 'Z'
    ensures UpperChar(c) == c && UpperChar(LowerChar(c)) == c
  {
  }

  /** A name made of upper-case ASCII letters is its own upper-case form,
      and so is the upper-case form of its lower-case form. */
  lemma UpperCaseName(s: string)
    requires forall i :: 0 <= i < |s| ==> 'A' <= s[i] <= 'Z'
    ensures Upper(s) == s && Upper(Lower(s)) == s
  {
    var u, l := Upper(s), Lower(s);
    var ul := Upper(l);
    forall i | 0 <= i < |s|
      ensures u[i] == s[i] && ul[i] == s[i]
    {
      UpperCaseChar(s[i]);
    }
    assert u == s;
    assert ul == s;
  }

  /** Every member name is upper-case ASCII. */
  lemma MemberNamesUpperCase(p: Platform)
    ensures forall i :: 0 <= i < |p.Name()| ==> 'A' <= p.Name()[i] <= 'Z'
  {
  }

  /** The intended `from_string` finds every member by its name in any
      ASCII case; the code as written finds none. */
  lemma FromStringFindsMembers(p: Platform)
    ensures FromString(PyStr(p.Name())) == Ok(p)
    ensures FromString(PyStr(Lower(p.Name()))) == Ok(p)
    ensures FromStringAsWritten(PyStr(Lower(p.Name()))).Err?
  {
    var n := p.Name();
    MemberNamesUpperCase(p);
    UpperCaseName(n);
    assert ByName(n) == Some(p);
    FromStringAlwaysRaises(PyStr(Lower(n)));
  }

  // ---------------------------------------------------------------------
  // Node classes

  /** The class-level metadata of a node class. A registered class takes
      its queries from the generators for its label; a declared class
      carries whatever text it sets, and `""` (or false) where it sets
      nothing. */
  datatype NodeClass =
    | RegisteredClass(registeredLabel: string, embeds: bool, embeddingId: string)
    | DeclaredClass(name: string, declaredLabel: string, declaredFetch: string,
                    declaredFetchMulti: string, declaredCreate: string,
                    declaredEmbeds: bool, declaredEmbeddingId: string)
  {
    function ClassName(): string {
      match this
      case RegisteredClass(l, _, _) => l
      case DeclaredClass(c, _, _, _, _, _, _) => c
    }

    function NodeLabel(): string {
      match this
      case RegisteredClass(l, _, _) => l
      case DeclaredClass(_, l, _, _, _, _, _) => l
    }

    function FetchQuery(): string {
      match this
      case RegisteredClass(l, _, _) => QueryText(Op.FetchNodeQuery(l))
      case DeclaredClass(_, _, q, _, _, _, _) => q
    }

    function FetchMultiQuery(): string {
      match this
      case RegisteredClass(l, _, _) => QueryText(Op.FetchNodesQuery(l))
      case DeclaredClass(_, _, _, q, _, _, _) => q
    }

    function CreateQuery(): string {
      match this
      case RegisteredClass(l, _, _) => QueryText(Op.CreateQuery(l))
      case DeclaredClass(_, _, _, _, q, _, _) => q
    }

    function HasEmbedding(): bool {
      match this
      case RegisteredClass(_, e, _) => e
      case DeclaredClass(_, _, _, _, _, e, _) => e
    }

    function EmbeddingIdentifier(): string {
      match this
      case RegisteredClass(_, _, x) => x
      case DeclaredClass(_, _, _, _, _, _, x) => x
    }
  }

  /** The text of a generated query; a label outside the registry has none. */
  function QueryText(r: Result<string>): string {
    if r.Ok? then r.value else ""
  }

  /** An optional embedding; Python truthiness makes an empty list count as
      absent. */
  type Embedding = Option<seq<real>>

  predicate Present(e: Embedding) { e.Some? && |e.value| > 0 }

  /** The class of a node and the fields that class adds. `Custom` stands
      for any other subclass, with whatever metadata it declares and no
      fields of its own. */
  datatype Kind =
    | UserKind(userPlatformId: string, userEmbedding: Embedding)
    | RoomKind(roomPlatformId: string, roomDescription: Option<string>, roomEmbedding: Embedding)
    | MessageKind(messagePlatformId: string, content: string, messageEmbedding: Embedding)
    | ClusterKind(clusterDescription: string, clusterEmbedding: Embedding)
    | CommunityKind(communityPlatformId: string, communityDescription: string)
    | EntityKind(entityType: string, entityDescription: Option<string>, entityEmbedding: Embedding)
    | TopicKind(topicDescription: string, topicEmbedding: Embedding)
    | PreferenceKind(preferenceType: string, preferenceValue: string)
    | Custom(cls: NodeClass)

  /** A node: the common fields and its class. Timestamps are carried in
      their ISO form. */
  datatype Node = Node(uuid: string, name: string, platform: Platform,
                       createdAt: string, updatedAt: string, kind: Kind)

  function ClassOf(k: Kind): NodeClass {
    match k
    case UserKind(_, _) => RegisteredClass("User", true, "u")
    case RoomKind(_, _, _) => RegisteredClass("Room", true, "r")
    case MessageKind(_, _, _) => RegisteredClass("Message", true, "m")
    case ClusterKind(_, _) => RegisteredClass("Cluster", true, "c")
    case CommunityKind(_, _) => RegisteredClass("Community", false, "cm")
    case EntityKind(_, _, _) => RegisteredClass("Entity", true, "e")
    case TopicKind(_, _) => RegisteredClass("Topic", true, "t")
    case PreferenceKind(_, _) => RegisteredClass("Preference", false, "p")
    case Custom(c) => c
  }

  /** The `embedding` attribute, for the classes that have one. */
  function EmbeddingOf(k: Kind): Option<Embedding> {
    match k
    case UserKind(_, e) => Some(e)
    case RoomKind(_, _, e) => Some(e)
    case MessageKind(_, _, e) => Some(e)
    case ClusterKind(_, e) => Some(e)
    case EntityKind(_, _, e) => Some(e)
    case TopicKind(_, e) => Some(e)
    case _ => None
  }

  // ---------------------------------------------------------------------
  // Equality and hashing

  /** The other operand of `==`: a node or any other object. */
  datatype Operand = NodeOperand(node: Node) | OtherObject

  /** `OrganonNode.__eq__`. */
  predicate Equal(a: Node, other: Operand) {
    other.NodeOperand? && a.uuid == other.node.uuid
  }

  /** `OrganonNode.__ne__`. */
  predicate NotEqual(a: Node, other: Operand) {
    !Equal(a, other)
  }

  /** What `OrganonNode.__hash__` hashes. */
  function HashKey(a: Node): string { a.uuid }

  /** Equality is an equivalence on nodes that ignores everything but the
      uuid, class included; hashing agrees with it; no non-node is equal to
      a node; `!=` is its negation. */
  lemma EqualityByUuid(a: Node, b: Node, c: Node)
    ensures Equal(a, NodeOperand(a))
    ensures Equal(a, NodeOperand(b)) <==> Equal(b, NodeOperand(a))
    ensures Equal(a, NodeOperand(b)) && Equal(b, NodeOperand(c)) ==> Equal(a, NodeOperand(c))
    ensures Equal(a, NodeOperand(b)) ==> HashKey(a) == HashKey(b)
    ensures Equal(a, NodeOperand(b)) <==> a.uuid == b.uuid
    ensures !Equal(a, OtherObject)
    ensures NotEqual(a, NodeOperand(b)) <==> !Equal(a, NodeOperand(b))
  {
  }

  /** Two nodes of different classes with the same uuid are equal. */
  lemma EqualAcrossClasses(uuid: string, p: Platform)
    ensures var u := Node(uuid, "user", p, "", "", UserKind("1", None));
            var m := Node(uuid, "message", p, "", "", MessageKind("2", "hi", None));
            ClassOf(u.kind) != ClassOf(m.kind) && Equal(u, NodeOperand(m))
  {
  }

  // ---------------------------------------------------------------------
  // Queries

  /** A parameter value. */
  datatype ParamValue = PStr(s: string) | PInt(i: int) | PStrs(ss: seq<string>) | PFloats(fs: seq<real>) | PNone

  type Params = map<string, ParamValue>

  function NotDefined(constant: string, cls: NodeClass): Exception {
    NotImplementedError(constant + " not defined for " + cls.ClassName())
  }

  /** `get_by_uuid`. */
  function GetByUuid(n: Node, uuid: string): (r: Result<(string, Params)>)
    ensures r.Err? <==> ClassOf(n.kind).FetchQuery() == ""
    ensures r.Err? ==> r.error.NotImplementedError?
    ensures r.Ok? ==> r.value.0 == ClassOf(n.kind).FetchQuery() && r.value.1 == map["uuid" := PStr(uuid)]
  {
    var cls := ClassOf(n.kind);
    if cls.FetchQuery() == "" then Err(NotDefined("FETCH_QUERY", cls))
    else Ok((cls.FetchQuery(), map["uuid" := PStr(uuid)]))
  }

  /** `get_by_uuids`. */
  function GetByUuids(n: Node, uuids: seq<string>): (r: Result<(string, Params)>)
    ensures r.Err? <==> ClassOf(n.kind).FetchMultiQuery() == ""
    ensures r.Err? ==> r.error.NotImplementedError?
    ensures r.Ok? ==> r.value.0 == ClassOf(n.kind).FetchMultiQuery() && r.value.1 == map["uuids" := PStrs(uuids)]
  {
    var cls := ClassOf(n.kind);
    if cls.FetchMultiQuery() == "" then Err(NotDefined("FETCH_MULTI_QUERY", cls))
    else Ok((cls.FetchMultiQuery(), map["uuids" := PStrs(uuids)]))
  }

  /** `delete`: a DETACH DELETE on the node matched by uuid, named by the
      lower-cased first letter of its label. */
  function Delete(n: Node): (r: Result<(string, Params)>)
    ensures r.Err? <==> ClassOf(n.kind).NodeLabel() == ""
    ensures r.Err? ==> r.error.NotImplementedError?
    ensures r.Ok? ==> r.value.0 == DeleteText([LowerChar(ClassOf(n.kind).NodeLabel()[0])], ClassOf(n.kind).NodeLabel())
    ensures r.Ok? ==> r.value.1 == map["uuid" := PStr(n.uuid)]
  {
    var cls := ClassOf(n.kind);
    if cls.NodeLabel() == "" then Err(NotDefined("NODE_LABEL", cls))
    else
      var nodeLabel := cls.NodeLabel();
      Ok((DeleteText([LowerChar(nodeLabel[0])], nodeLabel), map["uuid" := PStr(n.uuid)]))
  }

  /** The DETACH DELETE query for a label and its identifier: it matches
      the node pattern the create and fetch queries use. */
  function DeleteText(x: string, t: string): (r: string)
    ensures r == "\n            MATCH " + Op.NodePattern(x, t) + "\n            DETACH DELETE " + x + "\n        "
  {
    "\n            MATCH (" + x + ":" + t + " {uuid: $uuid})\n            DETACH DELETE " + x + "\n        "
  }

  /** The five parameters every node saves. */
  function CommonParams(n: Node): Params {
    map["uuid" := PStr(n.uuid), "name" := PStr(n.name), "platform" := PInt(n.platform.Value()),
        "created_at" := PStr(n.createdAt), "updated_at" := PStr(n.updatedAt)]
  }

  function OptionalText(o: Option<string>): ParamValue {
    if o.Some? then PStr(o.value) else PNone
  }

  /** Adds the embedding when it is present. */
  function WithEmbedding(params: Params, e: Embedding): (r: Params)
    ensures forall key :: key in r ==> key in params || key == "embedding"
  {
    if Present(e) then params["embedding" := PFloats(e.value)] else params
  }

  /** The common keys, which no `get_save_params` override sets. */
  predicate CommonKey(key: string) {
    key == "uuid" || key == "name" || key == "platform" || key == "created_at" || key == "updated_at"
  }

  /** What each class's `get_save_params` adds to the common parameters. */
  function ClassParams(k: Kind): Params
  {
    match k
    case UserKind(platformId, e) => WithEmbedding(map["platform_id" := PStr(platformId)], e)
    case RoomKind(platformId, d, e) =>
      WithEmbedding(map["platform_id" := PStr(platformId), "description" := OptionalText(d)], e)
    case MessageKind(platformId, content, e) =>
      WithEmbedding(map["platform_id" := PStr(platformId), "content" := PStr(content)], e)
    case ClusterKind(d, e) => WithEmbedding(map["description" := PStr(d)], e)
    case CommunityKind(platformId, d) => map["platform_id" := PStr(platformId), "description" := PStr(d)]
    case EntityKind(entityType, d, e) =>
      WithEmbedding(map["entity_type" := PStr(entityType), "description" := OptionalText(d)], e)
    case TopicKind(d, e) => WithEmbedding(map["description" := PStr(d)], e)
    case PreferenceKind(preferenceType, value) =>
      map["preference_type" := PStr(preferenceType), "value" := PStr(value)]
    case Custom(_) => map[]
  }

  /** No class overrides a common key. */
  lemma ClassParamsSkipCommonKeys(k: Kind)
    ensures forall key :: key in ClassParams(k) ==> !CommonKey(key)
  {
  }

  /** `get_save_params`: the common parameters, updated by the class. */
  function SaveParams(n: Node): Params {
    CommonParams(n) + ClassParams(n.kind)
  }

  /** The CALL that stores the embedding, spliced before `RETURN x`. */
  function VectorCall(x: string): string {
    "WITH " + x + " CALL db.create.setNodeVectorProperty(" + x + ", 'embedding', $embedding) RETURN " + x
  }

  /** Whether `save` splices in the vector call. */
  predicate StoresEmbedding(n: Node) {
    ClassOf(n.kind).HasEmbedding() && EmbeddingOf(n.kind).Some? && Present(EmbeddingOf(n.kind).value)
  }

  /** `save`. */
  function Save(n: Node): (r: Result<(string, Params)>)
    ensures r.Err? <==> ClassOf(n.kind).CreateQuery() == ""
    ensures r.Err? ==> r.error.NotImplementedError?
    ensures r.Ok? ==> r.value.1 == SaveParams(n)
    ensures r.Ok? && !StoresEmbedding(n) ==> r.value.0 == ClassOf(n.kind).CreateQuery()
  {
    var cls := ClassOf(n.kind);
    if cls.CreateQuery() == "" then Err(NotDefined("CREATE_QUERY", cls))
    else
      var params := SaveParams(n);
      var x := cls.EmbeddingIdentifier();
      var query :=
        if StoresEmbedding(n) then ReplaceAll(cls.CreateQuery(), "RETURN " + x, VectorCall(x))
        else cls.CreateQuery();
      Ok((query, params))
  }

  /** `update`. */
  function Update(n: Node): (r: Result<(string, Params)>)
    ensures r == Save(n)
  {
    Save(n)
  }

  // ---------------------------------------------------------------------
  // Properties of the queries.

  /** The saved parameters always hold the five common keys with their
      common values, the platform as its integer value: no class overrides
      a common key. */
  lemma SaveParamsKeepCommon(n: Node)
    ensures forall k :: k in CommonParams(n) ==> k in SaveParams(n) && SaveParams(n)[k] == CommonParams(n)[k]
    ensures SaveParams(n)["platform"] == PInt(n.platform.Value())
  {
    var c := CommonParams(n);
    assert forall k :: k in c ==> CommonKey(k);
    ClassParamsSkipCommonKeys(n.kind);
  }

  /** The saved parameters carry an embedding exactly when the node has a
      non-empty one. */
  lemma SaveParamsEmbedding(n: Node)
    ensures "embedding" in SaveParams(n) <==> EmbeddingOf(n.kind).Some? && Present(EmbeddingOf(n.kind).value)
    ensures "embedding" in SaveParams(n) ==> SaveParams(n)["embedding"] == PFloats(EmbeddingOf(n.kind).value.value)
  {
  }

  /** The save parameters of a User lack `user_id` and `platform_handles`,
      which its create query reads, and carry `platform_id`, which it does
      not. */
  lemma {:induction false} UserParamsMissQueryParameters(n: Node)
    requires n.kind.UserKind?
    ensures "user_id" !in SaveParams(n) && "platform_handles" !in SaveParams(n)
    ensures Op.Req("user_id") in Op.NodeDefinitions["User"].properties
    ensures Op.Req("platform_handles") in Op.NodeDefinitions["User"].properties
    ensures forall q :: q in Op.NodeDefinitions["User"].properties ==> q.name != "platform_id"
  {
    UserSaveKeys(n);
    UserQueryProperties();
  }

  /** A User saves the common keys, its platform id and possibly its
      embedding, and nothing else. */
  lemma {:induction false} UserSaveKeys(n: Node)
    requires n.kind.UserKind?
    ensures forall key :: key in SaveParams(n) ==> CommonKey(key) || key == "platform_id" || key == "embedding"
    ensures "user_id" !in SaveParams(n) && "platform_handles" !in SaveParams(n)
  {
    assert forall key :: key in ClassParams(n.kind) ==> key == "platform_id" || key == "embedding";
  }

  /** The User create query's properties, as the registry lists them. */
  lemma UserQueryProperties()
    ensures "User" in Op.NodeDefinitions
    ensures Op.Req("user_id") in Op.NodeDefinitions["User"].properties
    ensures Op.Req("platform_handles") in Op.NodeDefinitions["User"].properties
    ensures forall q :: q in Op.NodeDefinitions["User"].properties ==> q.name != "platform_id"
  {
    var props := Op.NodeDefinitions["User"].properties;
    assert props[5] == Op.Req("user_id");
    assert props[6] == Op.Req("platform_handles");
  }

  /** Every registered class that stores embeddings names them with the
      identifier its create query uses. */
  lemma EmbeddingIdentifierMatches(k: Kind)
    requires !k.Custom?
    ensures ClassOf(k).RegisteredClass? && ClassOf(k).NodeLabel() in Op.NodeDefinitions
    ensures ClassOf(k).HasEmbedding() ==>
              ClassOf(k).EmbeddingIdentifier() == Op.NodeDefinitions[ClassOf(k).NodeLabel()].identifier
  {
    var t := ClassOf(k).NodeLabel();
    Op.RegistryWellFormed(t);
  }

  /** No upper-case N anywhere in `s`. */
  predicate NoN(s: string) {
    forall i :: 0 <= i < |s| ==> s[i] != 'N'
  }

  predicate NamesNoN(ps: seq<Op.NodeProperty>) {
    forall k :: 0 <= k < |ps| ==> NoN(ps[k].name)
  }

  lemma NoNConcat(a: string, b: string)
    requires NoN(a) && NoN(b)
    ensures NoN(a + b)
  {
    forall i | 0 <= i < |a + b| ensures (a + b)[i] != 'N' {
      if i >= |a| {
        assert (a + b)[i] == b[i - |a|];
      }
    }
  }

  lemma {:induction false} JoinNoN(parts: seq<string>, sep: string)
    requires NoN(sep)
    requires forall k :: 0 <= k < |parts| ==> NoN(parts[k])
    ensures NoN(Join(parts, sep))
    decreases |parts|
  {
    if |parts| > 1 {
      JoinNoN(parts[1..], sep);
      NoNConcat(parts[0], sep);
      NoNConcat(parts[0] + sep, Join(parts[1..], sep));
    }
  }

  lemma CommonNamesNoN()
    ensures NamesNoN(Op.CommonProperties)
  {
  }

  lemma UserNamesNoN()
    ensures NamesNoN(Op.UserProperties)
  {
    var ps := Op.UserProperties;
    assert NoN(ps[0].name) && NoN(ps[1].name) && NoN(ps[2].name);
    assert NoN(ps[3].name) && NoN(ps[4].name);
  }

  lemma RoomNamesNoN()
    ensures NamesNoN(Op.RoomProperties)
  {
  }

  lemma MessageNamesNoN()
    ensures NamesNoN(Op.MessageProperties)
  {
  }

  lemma ClusterNamesNoN()
    ensures NamesNoN(Op.ClusterProperties)
  {
  }

  lemma CommunityNamesNoN()
    ensures NamesNoN(Op.CommunityProperties)
  {
  }

  lemma EntityNamesNoN()
    ensures NamesNoN(Op.EntityProperties)
  {
  }

  lemma TopicNamesNoN()
    ensures NamesNoN(Op.TopicProperties)
  {
  }

  lemma PreferenceNamesNoN()
    ensures NamesNoN(Op.PreferenceProperties)
  {
  }

  lemma NamesNoNConcat(a: seq<Op.NodeProperty>, b: seq<Op.NodeProperty>)
    requires NamesNoN(a) && NamesNoN(b)
    ensures NamesNoN(a + b)
  {
    forall k | 0 <= k < |a + b| ensures NoN((a + b)[k].name) {
      if k >= |a| {
        assert (a + b)[k] == b[k - |a|];
      }
    }
  }

  /** No registered property name holds an upper-case N. */
  lemma PropertyNamesNoN(t: string)
    requires t in Op.NodeDefinitions
    ensures NamesNoN(Op.NodeDefinitions[t].properties)
  {
    CommonNamesNoN();
    UserNamesNoN();
    RoomNamesNoN();
    MessageNamesNoN();
    ClusterNamesNoN();
    CommunityNamesNoN();
    EntityNamesNoN();
    TopicNamesNoN();
    PreferenceNamesNoN();
    var extras := Op.NodeDefinitions[t].properties[|Op.CommonProperties|..];
    assert Op.NodeDefinitions[t].properties == Op.CommonProperties + extras;
    assert NamesNoN(extras);
    NamesNoNConcat(Op.CommonProperties, extras);
  }

  /** `a + b` gains no "RN" when `b` does not start with N. */
  lemma NoRNAppend(a: string, b: string)
    requires NoPair(a, 'R', 'N') && NoPair(b, 'R', 'N') && (|b| > 0 ==> b[0] != 'N')
    ensures NoPair(a + b, 'R', 'N')
  {
    NoPairConcat(a, b, 'R', 'N');
  }

  lemma NoNNoPair(s: string)
    requires NoN(s)
    ensures NoPair(s, 'R', 'N') && (|s| > 0 ==> s[0] != 'N')
  {
  }

  /** The labels and identifiers of the registry. */
  lemma RegistryNamesNoRN(t: string)
    requires t in Op.NodeDefinitions
    ensures NoPair(t, 'R', 'N') && t[0] != 'N'
    ensures NoN(Op.NodeDefinitions[t].identifier)
  {
  }

  /** The fixed pieces of the create query. */
  lemma MergeTextNoRN()
    ensures NoPair("\nMERGE (", 'R', 'N') && NoPair(":", 'R', 'N') && NoPair(" {uuid: $uuid})", 'R', 'N')
    ensures NoPair("\nON CREATE SET ", 'R', 'N') && NoPair(" = {\n    ", 'R', 'N')
    ensures NoPair("\n}\nON MATCH SET ", 'R', 'N') && NoPair(" += {\n    ", 'R', 'N') && NoPair("\n}\n", 'R', 'N')
  {
  }

  /** The create query of a registered type before its RETURN line has no
      "RN" in it. */
  lemma BodyNoRN(t: string)
    requires t in Op.NodeDefinitions
    ensures NoPair(Op.CreateQueryBody(t), 'R', 'N')
  {
    var d := Op.NodeDefinitions[t];
    var x := d.identifier;
    var assignments := Op.Assignments(d.properties);
    PropertyNamesNoN(t);
    forall k | 0 <= k < |assignments|
      ensures NoN(assignments[k])
    {
      var n := d.properties[k].name;
      NoNConcat(n, ": $");
      NoNConcat(n + ": $", n);
    }
    JoinNoN(assignments, ", ");
    var props := Join(assignments, ", ");
    RegistryNamesNoRN(t);
    MergeBodyNoRN(x, t, props);
  }

  /** The create query text before its RETURN line gains no "RN" from its
      fixed pieces. */
  lemma MergeBodyNoRN(x: string, t: string, props: string)
    requires NoN(x) && NoN(props)
    requires NoPair(t, 'R', 'N') && (|t| > 0 ==> t[0] != 'N')
    ensures NoPair("\nMERGE " + Op.NodePattern(x, t)
                   + "\nON CREATE SET " + x + " = {\n    " + props
                   + "\n}\nON MATCH SET " + x + " += {\n    " + props
                   + "\n}\n", 'R', 'N')
  {
    NoNNoPair(props);
    NoNNoPair(x);
    var c1, c2, c3 := "\nMERGE (", ":", " {uuid: $uuid})";
    var c4, c5, c6, c7, c8 := "\nON CREATE SET ", " = {\n    ", "\n}\nON MATCH SET ", " += {\n    ", "\n}\n";
    MergeTextNoRN();
    NoRNAppend(c1, x);
    NoRNAppend(c1 + x, c2);
    NoRNAppend(c1 + x + c2, t);
    NoRNAppend(c1 + x + c2 + t, c3);
    var s1 := c1 + x + c2 + t + c3;
    assert s1 == "\nMERGE " + Op.NodePattern(x, t);
    NoRNAppend(s1, c4);
    NoRNAppend(s1 + c4, x);
    NoRNAppend(s1 + c4 + x, c5);
    NoRNAppend(s1 + c4 + x + c5, props);
    var s2 := s1 + c4 + x + c5 + props;
    NoRNAppend(s2, c6);
    NoRNAppend(s2 + c6, x);
    NoRNAppend(s2 + c6 + x, c7);
    NoRNAppend(s2 + c6 + x + c7, props);
    NoRNAppend(s2 + c6 + x + c7 + props, c8);
  }

  /** `RETURN x` cannot start inside the body: it would need an "RN" there
      or a newline within "RETUR". */
  lemma {:induction false} ReturnOnlyAtEnd(body: string, x: string, i: int)
    requires NoPair(body, 'R', 'N') && |body| > 0 && body[|body| - 1] == '\n'
    requires 0 <= i < |body|
    ensures !OccursAt(body + "RETURN " + x + "\n", "RETURN " + x, i)
  {
    var s := body + "RETURN " + x + "\n";
    var t := "RETURN " + x;
    if i + |t| <= |s| {
      if i + 5 < |body| {
        assert !(body[i + 4] == 'R' && body[i + 5] == 'N');
        assert s[i..i + |t|][4] == body[i + 4] && s[i..i + |t|][5] == body[i + 5];
      } else {
        var j := |body| - 1 - i;
        assert s[i..i + |t|][j] == '\n';
      }
    }
  }

  /** Replacing `RETURN x` in a body without "RN" followed by its final
      `RETURN x` line rewrites that line only. */
  lemma SpliceAfterBody(body: string, x: string, call: string)
    requires NoPair(body, 'R', 'N') && |body| > 0 && body[|body| - 1] == '\n'
    ensures ReplaceAll(body + "RETURN " + x + "\n", "RETURN " + x, call) == body + call + "\n"
  {
    var tail := "RETURN " + x + "\n";
    var target := "RETURN " + x;
    assert body + "RETURN " + x + "\n" == body + tail;
    forall i | 0 <= i < |body|
      ensures !OccursAt(body + tail, target, i)
    {
      ReturnOnlyAtEnd(body, x, i);
    }
    ReplaceAfterPrefix(body, tail, target, call);
    assert tail[..|target|] == target;
    assert tail[|target|..] == "\n";
    assert ReplaceAll(tail, target, call) == call + ReplaceAll("\n", target, call);
  }

  /** Replacing `RETURN x` in the create query of a registered label
      rewrites its final line only. */
  lemma SpliceAtReturn(t: string)
    requires t in Op.NodeDefinitions
    ensures var x := Op.NodeDefinitions[t].identifier;
            ReplaceAll(Op.CreateQuery(t).value, "RETURN " + x, VectorCall(x))
              == Op.CreateQueryBody(t) + VectorCall(x) + "\n"
  {
    var x := Op.NodeDefinitions[t].identifier;
    Op.CreateQueryShape(t);
    BodyNoRN(t);
    SpliceAfterBody(Op.CreateQueryBody(t), x, VectorCall(x));
  }

  /** For a registered class that stores an embedding, `save` inserts the
      vector call right before the final `RETURN x` of the create query
      and changes nothing else. */
  lemma SaveSplicesVectorCall(n: Node)
    requires !n.kind.Custom? && StoresEmbedding(n)
    ensures var t := ClassOf(n.kind).NodeLabel();
            var x := ClassOf(n.kind).EmbeddingIdentifier();
            && t in Op.NodeDefinitions
            && Save(n) == Ok((Op.CreateQueryBody(t) + VectorCall(x) + "\n", SaveParams(n)))
  {
    EmbeddingIdentifierMatches(n.kind);
    var t := ClassOf(n.kind).NodeLabel();
    SpliceAtReturn(t);
  }

  /** The delete query of a registered class names the node by the
      identifier its create query uses. */
  lemma DeleteUsesCreateIdentifier(n: Node)
    requires !n.kind.Custom?
    ensures var t := ClassOf(n.kind).NodeLabel();
            && t in Op.NodeDefinitions
            && Delete(n) == Ok((DeleteText(Op.NodeDefinitions[t].identifier, t), map["uuid" := PStr(n.uuid)]))
  {
    EmbeddingIdentifierMatches(n.kind);
    var t := ClassOf(n.kind).NodeLabel();
    Op.RegistryWellFormed(t);
  }

  /** A class that declares no metadata cannot save, fetch or delete. */
  lemma UndeclaredClassRaises(n: Node, uuid: string, uuids: seq<string>)
    requires n.kind.Custom? && n.kind.cls == DeclaredClass("InvalidNode", "", "", "", "", false, "")
    ensures Save(n).Err? && Save(n).error.NotImplementedError?
    ensures GetByUuid(n, uuid).Err? && GetByUuids(n, uuids).Err? && Delete(n).Err?
  {
  }
}
