/** Graph edges as objects: the nine relationship classes and `connect`,
    which checks a (source class, target class, type) triple against the
    edge registry and returns the relationship query with its parameters.
    Timestamps are carried in their ISO form. */
module OrganonEdges {
  import opened Wrappers
  import opened Text
  import N = OrganonNodes
  import Op = OrganonEdgeOp

  /** The nine edge classes. */
  datatype EdgeClass =
    | PostedIn | BelongsTo | RelatedTo | Mentions | Includes
    | ParticipatesIn | HasPreference | For | Expresses
  {
    /** The class constant `RELATIONSHIP_TYPE`. */
    function RelationshipType(): (r: string)
      ensures r in Op.EdgeTypes
    {
      match this
      case PostedIn => "POSTED_IN"
      case BelongsTo => "BELONGS_TO"
      case RelatedTo => "RELATED_TO"
      case Mentions => "MENTIONS"
      case Includes => "INCLUDES"
      case ParticipatesIn => "PARTICIPATES_IN"
      case HasPreference => "HAS_PREFERENCE"
      case For => "FOR"
      case Expresses => "EXPRESSES"
    }
  }

  /** An edge: its class, the two timestamps and the optional validity
      period. A datetime is always truthy, so "set" means "not None". */
  datatype Edge = Edge(cls: EdgeClass, createdAt: string, updatedAt: string,
                       validFrom: Option<string>, validTo: Option<string>)

  /** The registry key `connect` looks up: the two node class names and
      the edge's type. */
  function KeyOf(e: Edge, source: N.Node, target: N.Node): Op.EdgeKey {
    Op.EdgeKey(N.ClassOf(source.kind).ClassName(), N.ClassOf(target.kind).ClassName(), e.cls.RelationshipType())
  }

  function InvalidNodes(key: Op.EdgeKey): Exception {
    ValueError("Invalid nodes for edge: " + key.fromLabel + " -> " + key.relType + " -> " + key.toLabel)
  }

  /** The parameter naming an endpoint's uuid: the lower-cased first letter
      of its class name, then "_uuid". */
  function UuidKey(className: string): (k: string)
    requires |className| > 0
    ensures |k| == 6 && k[0] == LowerChar(className[0]) && k[1..] == "_uuid"
  {
    Op.Initial(className) + "_uuid"
  }

  /** Adds an optional timestamp under `key` when it is set. */
  function WithOptional(params: N.Params, key: string, v: Option<string>): (r: N.Params)
    ensures v.None? ==> r == params
    ensures v.Some? ==> r == params[key := N.PStr(v.value)]
  {
    if v.Some? then params[key := N.PStr(v.value)] else params
  }

  /** `OrganonEdge.connect`. The query is what `get_edge_query` returns:
      the generator as written, so no extra property reaches it. */
  function Connect(e: Edge, source: N.Node, target: N.Node): (r: Result<(string, N.Params)>)
    ensures r.Err? <==> KeyOf(e, source, target) !in Op.EdgeDefinitions
    ensures r.Err? ==> r.error == InvalidNodes(KeyOf(e, source, target))
    ensures r.Ok? ==> Op.EdgeQueryAsWritten(KeyOf(e, source, target)) == Ok(r.value.0)
  {
    var key := KeyOf(e, source, target);
    if key !in Op.EdgeDefinitions then Err(InvalidNodes(key))
    else
      RegisteredLabels(key);
      Ok((Op.EdgeQueryAsWritten(key).value, EdgeParams(e, source, target, key)))
  }

  /** The parameters `connect` passes with the query: both uuids, both
      timestamps and the validity bounds that are set. */
  function EdgeParams(e: Edge, source: N.Node, target: N.Node, key: Op.EdgeKey): (r: N.Params)
    requires |key.fromLabel| > 0 && |key.toLabel| > 0
    ensures UuidKey(key.fromLabel) != UuidKey(key.toLabel) ==>
            && UuidKey(key.fromLabel) in r && r[UuidKey(key.fromLabel)] == N.PStr(source.uuid)
            && UuidKey(key.toLabel) in r && r[UuidKey(key.toLabel)] == N.PStr(target.uuid)
    ensures "created_at" in r && r["created_at"] == N.PStr(e.createdAt)
    ensures "updated_at" in r && r["updated_at"] == N.PStr(e.updatedAt)
  {
    var params := map[UuidKey(key.fromLabel) := N.PStr(source.uuid),
                      UuidKey(key.toLabel) := N.PStr(target.uuid),
                      "created_at" := N.PStr(e.createdAt),
                      "updated_at" := N.PStr(e.updatedAt)];
    WithOptional(WithOptional(params, "valid_from", e.validFrom), "valid_to", e.validTo)
  }

  /** A successful `connect` answers the registry's query and the edge's
      parameters. */
  lemma {:induction false} ConnectParts(e: Edge, source: N.Node, target: N.Node)
    requires Connect(e, source, target).Ok?
    ensures var key := KeyOf(e, source, target);
            && |key.fromLabel| > 0 && |key.toLabel| > 0
            && LowerChar(key.fromLabel[0]) != LowerChar(key.toLabel[0])
            && Connect(e, source, target).value.1 == EdgeParams(e, source, target, key)
  {
    RegisteredLabels(KeyOf(e, source, target));
  }

  // ---------------------------------------------------------------------
  // Properties.

  /** Every registered triple names two classes with distinct initials and
      one of the three relationship types that have entries. */
  lemma RegisteredLabels(key: Op.EdgeKey)
    requires key in Op.EdgeDefinitions
    ensures |key.fromLabel| > 0 && |key.toLabel| > 0
    ensures LowerChar(key.fromLabel[0]) != LowerChar(key.toLabel[0])
    ensures key.relType in {"POSTED_IN", "BELONGS_TO", "RELATED_TO"}
  {
  }

  /** MENTIONS, INCLUDES, PARTICIPATES_IN, HAS_PREFERENCE, FOR and EXPRESSES
      have no registry entry, so connecting with them always raises. */
  lemma {:induction false} UnregisteredTypesRaise(e: Edge, source: N.Node, target: N.Node)
    requires e.cls !in {PostedIn, BelongsTo, RelatedTo}
    ensures Connect(e, source, target).Err?
    ensures Connect(e, source, target).error.ValueError?
  {
    var key := KeyOf(e, source, target);
    if key in Op.EdgeDefinitions {
      RegisteredLabels(key);
      assert false;
    }
  }

  /** The parameters hold exactly the two uuids, the two timestamps and the
      validity bounds that are set. */
  lemma {:induction false} ConnectParamKeys(e: Edge, source: N.Node, target: N.Node)
    requires Connect(e, source, target).Ok?
    ensures var key := KeyOf(e, source, target);
            var params := Connect(e, source, target).value.1;
            && |key.fromLabel| > 0 && |key.toLabel| > 0
            && params.Keys == {UuidKey(key.fromLabel), UuidKey(key.toLabel), "created_at", "updated_at"}
                              + (if e.validFrom.Some? then {"valid_from"} else {})
                              + (if e.validTo.Some? then {"valid_to"} else {})
  {
    ConnectParts(e, source, target);
    EdgeParamsShape(e, source, target, KeyOf(e, source, target));
  }

  /** The keys of the edge parameters, and the validity bounds among them. */
  lemma {:induction false} EdgeParamsShape(e: Edge, source: N.Node, target: N.Node, key: Op.EdgeKey)
    requires |key.fromLabel| > 0 && |key.toLabel| > 0
    ensures var params := EdgeParams(e, source, target, key);
            && params.Keys == {UuidKey(key.fromLabel), UuidKey(key.toLabel), "created_at", "updated_at"}
                              + (if e.validFrom.Some? then {"valid_from"} else {})
                              + (if e.validTo.Some? then {"valid_to"} else {})
            && ("valid_from" in params <==> e.validFrom.Some?)
            && ("valid_to" in params <==> e.validTo.Some?)
            && (e.validFrom.Some? ==> params["valid_from"] == N.PStr(e.validFrom.value))
            && (e.validTo.Some? ==> params["valid_to"] == N.PStr(e.validTo.value))
  {
    assert |UuidKey(key.fromLabel)| == |UuidKey(key.toLabel)| == 6;
  }

  /** Each uuid sits under the name of its own endpoint, and the
      timestamps under their own names. */
  lemma {:induction false} ConnectParamValues(e: Edge, source: N.Node, target: N.Node)
    requires Connect(e, source, target).Ok?
    ensures var key := KeyOf(e, source, target);
            var params := Connect(e, source, target).value.1;
            && |key.fromLabel| > 0 && |key.toLabel| > 0
            && UuidKey(key.fromLabel) in params && params[UuidKey(key.fromLabel)] == N.PStr(source.uuid)
            && UuidKey(key.toLabel) in params && params[UuidKey(key.toLabel)] == N.PStr(target.uuid)
            && "created_at" in params && params["created_at"] == N.PStr(e.createdAt)
            && "updated_at" in params && params["updated_at"] == N.PStr(e.updatedAt)
  {
    var key := KeyOf(e, source, target);
    ConnectParts(e, source, target);
    assert UuidKey(key.fromLabel)[0] != UuidKey(key.toLabel)[0];
  }

  /** valid_from and valid_to are parameters exactly when they are set, and
      carry their ISO text. */
  lemma {:induction false} ValidityParams(e: Edge, source: N.Node, target: N.Node)
    requires Connect(e, source, target).Ok?
    ensures var params := Connect(e, source, target).value.1;
            && ("valid_from" in params <==> e.validFrom.Some?)
            && ("valid_to" in params <==> e.validTo.Some?)
            && (e.validFrom.Some? ==> params["valid_from"] == N.PStr(e.validFrom.value))
            && (e.validTo.Some? ==> params["valid_to"] == N.PStr(e.validTo.value))
  {
    ConnectParts(e, source, target);
    EdgeParamsShape(e, source, target, KeyOf(e, source, target));
  }

  /** The pattern matching an endpoint of the given class by its uuid
      parameter. */
  function Placeholder(className: string): (p: string)
    requires |className| > 0
  {
    "(" + Op.Initial(className) + ":" + className + " {uuid: $" + UuidKey(className) + "})"
  }

  lemma EndpointIsPlaceholder(className: string)
    requires |className| > 0
    ensures Op.EndpointPattern(Op.Initial(className), className) == Placeholder(className)
  {
  }

  /** The query matches each endpoint through a `$x_uuid` placeholder, and
      both placeholders are keys of the returned parameters. */
  lemma {:induction false} PlaceholdersBound(e: Edge, source: N.Node, target: N.Node)
    requires Connect(e, source, target).Ok?
    ensures var key := KeyOf(e, source, target);
            var r := Connect(e, source, target).value;
            && |key.fromLabel| > 0 && |key.toLabel| > 0
            && StartsWith(r.0, "\n    MATCH " + Placeholder(key.fromLabel) + ", " + Placeholder(key.toLabel))
            && UuidKey(key.fromLabel) in r.1 && UuidKey(key.toLabel) in r.1
  {
    var key := KeyOf(e, source, target);
    RegisteredLabels(key);
    Op.AsWrittenQueryShape(key);
    var f := Op.Initial(key.fromLabel);
    var t := Op.Initial(key.toLabel);
    EndpointIsPlaceholder(key.fromLabel);
    EndpointIsPlaceholder(key.toLabel);
    var m := Op.MatchClause(f, t, key.fromLabel, key.toLabel);
    var head := m + Op.MergeClause(f, t, Op.Initial(key.relType), key.relType);
    PrefixOfPrefix(Connect(e, source, target).value.0, head, m);
  }

  lemma PrefixOfPrefix(s: string, head: string, m: string)
    requires StartsWith(s, head) && |m| <= |head| && head[..|m|] == m
    ensures StartsWith(s, m)
  {
  }

  /** A message posted in a room gets `m_uuid` and `r_uuid`. */
  lemma {:induction false} PostedInMessageRoom(e: Edge, message: N.Node, room: N.Node)
    requires e.cls == PostedIn && message.kind.MessageKind? && room.kind.RoomKind?
    ensures Connect(e, message, room).Ok?
    ensures var params := Connect(e, message, room).value.1;
            && "m_uuid" in params && params["m_uuid"] == N.PStr(message.uuid)
            && "r_uuid" in params && params["r_uuid"] == N.PStr(room.uuid)
  {
    var key := KeyOf(e, message, room);
    assert key == Op.EdgeKey("Message", "Room", "POSTED_IN");
    MessageRoomRegistered();
    ConnectParamValues(e, message, room);
    assert UuidKey(key.fromLabel) == "m_uuid" && UuidKey(key.toLabel) == "r_uuid";
  }

  /** A user POSTED_IN a room gets the query as written, which differs from
      the intended one: the post count is never incremented. */
  lemma {:induction false} PostedInUserRoomLosesCount(e: Edge, user: N.Node, room: N.Node)
    requires e.cls == PostedIn && user.kind.UserKind? && room.kind.RoomKind?
    ensures Connect(e, user, room).Ok?
    ensures Op.EdgeQuery(Op.EdgeKey("User", "Room", "POSTED_IN")).Ok?
    ensures Connect(e, user, room).value.0 != Op.EdgeQuery(Op.EdgeKey("User", "Room", "POSTED_IN")).value
  {
    var key := KeyOf(e, user, room);
    assert key == Op.EdgeKey("User", "Room", "POSTED_IN");
    Op.PostedInCountLost();
  }

  lemma MessageRoomRegistered()
    ensures Op.EdgeKey("Message", "Room", "POSTED_IN") in Op.EdgeDefinitions
  {
  }

  /** A user cannot be POSTED_IN a message. */
  lemma {:induction false} PostedInUserMessageRejected(e: Edge, user: N.Node, message: N.Node)
    requires e.cls == PostedIn && user.kind.UserKind? && message.kind.MessageKind?
    ensures Connect(e, user, message) == Err(InvalidNodes(Op.EdgeKey("User", "Message", "POSTED_IN")))
  {
    var key := KeyOf(e, user, message);
    assert key == Op.EdgeKey("User", "Message", "POSTED_IN");
    if key in Op.EdgeDefinitions {
      UserEdgeTargets(key);
    }
  }

  /** Users are linked only to rooms and topics. */
  lemma UserEdgeTargets(key: Op.EdgeKey)
    requires key in Op.EdgeDefinitions && key.fromLabel == "User"
    ensures key.toLabel == "Room" || key.toLabel == "Topic"
  {
  }
}
