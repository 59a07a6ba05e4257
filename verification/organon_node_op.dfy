/** Cypher generation for graph nodes: the registry of node types, the
    MERGE query that creates or updates a node, and the two fetch queries. */
module OrganonNodeOp {
  import opened Wrappers
  import opened Text

  /** A property of a node type. The Cypher default expression is `None`
      for every registered property and is left out. */
  datatype NodeProperty = NodeProperty(name: string, required: bool)

  datatype NodeDefinition = NodeDefinition(nodeType: string, identifier: string, properties: seq<NodeProperty>)

  function Req(name: string): NodeProperty { NodeProperty(name, true) }
  function Opt(name: string): NodeProperty { NodeProperty(name, false) }

  /** The properties every node type starts with. */
  const CommonProperties: seq<NodeProperty> :=
    [Req("uuid"), Req("name"), Req("platform"), Req("created_at"), Req("updated_at")]

  // The properties each node type adds after the common ones.
  const UserProperties: seq<NodeProperty> :=
    [Req("user_id"), Req("platform_handles"), Opt("summary"), Opt("classification"), Opt("last_summary_update")]
  const RoomProperties: seq<NodeProperty> :=
    [Req("room_id"), Req("room_type"), Opt("community_id"), Opt("summary")]
  const MessageProperties: seq<NodeProperty> :=
    [Req("message_id"), Req("room_id"), Req("user_id"), Req("content"), Opt("engagement_score"), Opt("embedding")]
  const ClusterProperties: seq<NodeProperty> :=
    [Req("room_id"), Req("start_time"), Req("end_time"), Req("keywords"), Req("messages"), Opt("embeddings")]
  const CommunityProperties: seq<NodeProperty> := [Req("community_id"), Req("description")]
  const EntityProperties: seq<NodeProperty> := [Req("entity_type"), Opt("embedding")]
  const TopicProperties: seq<NodeProperty> := [Req("description"), Opt("embedding")]
  const PreferenceProperties: seq<NodeProperty> :=
    [Req("preference_id"), Req("preference_type"), Req("description"), Opt("embedding")]

  /** `NODE_DEFINITIONS`, keyed by node type. */
  const NodeDefinitions: map<string, NodeDefinition> := map[
    "User" := NodeDefinition("User", "u", CommonProperties + UserProperties),
    "Room" := NodeDefinition("Room", "r", CommonProperties + RoomProperties),
    "Message" := NodeDefinition("Message", "m", CommonProperties + MessageProperties),
    "Cluster" := NodeDefinition("Cluster", "c", CommonProperties + ClusterProperties),
    "Community" := NodeDefinition("Community", "c", CommonProperties + CommunityProperties),
    "Entity" := NodeDefinition("Entity", "e", CommonProperties + EntityProperties),
    "Topic" := NodeDefinition("Topic", "t", CommonProperties + TopicProperties),
    "Preference" := NodeDefinition("Preference", "p", CommonProperties + PreferenceProperties)
  ]

  /** The error every generator raises for a type outside the registry. */
  function Unsupported(nodeType: string): Exception {
    ValueError("Unsupported node type: " + nodeType)
  }

  /** One entry of the SET map: `name: $name`. */
  function Assignment(p: NodeProperty): string {
    p.name + ": $" + p.name
  }

  /** The entries for a property list, in definition order. */
  function Assignments(props: seq<NodeProperty>): (r: seq<string>)
    ensures |r| == |props|
    ensures forall k :: 0 <= k < |props| ==> r[k] == Assignment(props[k])
  {
    seq(|props|, k requires 0 <= k < |props| => Assignment(props[k]))
  }

  /** `(x:T {uuid: $uuid})`: the node pattern every query matches on. */
  function NodePattern(identifier: string, nodeType: string): string {
    "(" + identifier + ":" + nodeType + " {uuid: $uuid})"
  }

  /** The text of the create query for the given SET lists. */
  function MergeText(identifier: string, nodeType: string, createProps: string, matchProps: string): string {
    "\nMERGE " + NodePattern(identifier, nodeType)
    + "\nON CREATE SET " + identifier + " = {\n    " + createProps
    + "\n}\nON MATCH SET " + identifier + " += {\n    " + matchProps
    + "\n}\n" + "RETURN " + identifier + "\n"
  }

  /** What `generate_create_node_query` returns. */
  function CreateQuery(nodeType: string): Result<string> {
    if nodeType !in NodeDefinitions then Err(Unsupported(nodeType))
    else
      var d := NodeDefinitions[nodeType];
      var props := Join(Assignments(d.properties), ", ");
      Ok(MergeText(d.identifier, nodeType, props, props))
  }

  /** `generate_create_node_query`: both SET lists are built entry by entry;
      the required and optional branches append the same text. */
  method GenerateCreateNodeQuery(nodeType: string) returns (r: Result<string>)
    ensures r == CreateQuery(nodeType)
    ensures r.Err? <==> nodeType !in NodeDefinitions
  {
    if nodeType !in NodeDefinitions {
      return Err(Unsupported(nodeType));
    }
    var nodeDef := NodeDefinitions[nodeType];
    var identifier := nodeDef.identifier;
    var properties := nodeDef.properties;
    var createProps: seq<string> := [];
    var matchProps: seq<string> := [];
    for i := 0 to |properties|
      invariant createProps == matchProps
      invariant createProps == Assignments(properties[..i])
    {
      var prop := properties[i];
      assert properties[..i + 1] == properties[..i] + [prop];
      if prop.required {
        createProps := createProps + [prop.name + ": $" + prop.name];
        matchProps := matchProps + [prop.name + ": $" + prop.name];
      } else {
        createProps := createProps + [prop.name + ": $" + prop.name];
        matchProps := matchProps + [prop.name + ": $" + prop.name];
      }
    }
    assert properties[..|properties|] == properties;
    var createPropsStr := Join(createProps, ", ");
    var matchPropsStr := Join(matchProps, ", ");
    r := Ok(MergeText(identifier, nodeType, createPropsStr, matchPropsStr));
  }

  /** `generate_fetch_node_query`. */
  function FetchNodeQuery(nodeType: string): (r: Result<string>)
    ensures r.Err? <==> nodeType !in NodeDefinitions
    ensures r.Err? ==> r.error == Unsupported(nodeType)
  {
    if nodeType !in NodeDefinitions then Err(Unsupported(nodeType))
    else
      var x := NodeDefinitions[nodeType].identifier;
      Ok("\nMATCH " + NodePattern(x, nodeType) + "\nRETURN " + x + "\n")
  }

  /** `generate_fetch_nodes_query`. */
  function FetchNodesQuery(nodeType: string): (r: Result<string>)
    ensures r.Err? <==> nodeType !in NodeDefinitions
    ensures r.Err? ==> r.error == Unsupported(nodeType)
  {
    if nodeType !in NodeDefinitions then Err(Unsupported(nodeType))
    else
      var x := NodeDefinitions[nodeType].identifier;
      Ok("\nMATCH (" + x + ":" + nodeType + ")\nWHERE " + x + ".uuid IN $uuids\nRETURN " + x + "\n")
  }

  /** `get_create_node_query`. */
  method GetCreateNodeQuery(nodeType: string) returns (r: Result<string>)
    ensures r == CreateQuery(nodeType)
  {
    r := GenerateCreateNodeQuery(nodeType);
  }

  /** `get_fetch_node_query`. */
  function GetFetchNodeQuery(nodeType: string): (r: Result<string>)
    ensures r == FetchNodeQuery(nodeType)
  {
    FetchNodeQuery(nodeType)
  }

  /** `get_fetch_nodes_query`. */
  function GetFetchNodesQuery(nodeType: string): (r: Result<string>)
    ensures r == FetchNodesQuery(nodeType)
  {
    FetchNodesQuery(nodeType)
  }

  // ---------------------------------------------------------------------
  // Properties of the registry and of the generated queries.

  /** Every registered definition is keyed by its own type, begins with the
      five common properties in order, and uses the lower-cased first letter
      of its type as identifier (so Cluster and Community share "c"). */
  lemma RegistryWellFormed(t: string)
    requires t in NodeDefinitions
    ensures NodeDefinitions[t].nodeType == t
    ensures |NodeDefinitions[t].properties| > |CommonProperties|
    ensures NodeDefinitions[t].properties[..|CommonProperties|] == CommonProperties
    ensures |t| > 0 && NodeDefinitions[t].identifier == [LowerChar(t[0])]
  {
  }

  /** All three generators fail for exactly the same node types, with the
      same error. */
  lemma GeneratorsAgreeOnErrors(t: string)
    ensures CreateQuery(t).Err? <==> t !in NodeDefinitions
    ensures CreateQuery(t).Err? <==> FetchNodeQuery(t).Err?
    ensures CreateQuery(t).Err? <==> FetchNodesQuery(t).Err?
    ensures CreateQuery(t).Err? ==> CreateQuery(t).error == FetchNodeQuery(t).error == FetchNodesQuery(t).error
  {
  }

  /** The `required` flag has no effect: two property lists with the same
      names give the same SET text. */
  lemma RequiredIrrelevant(ps: seq<NodeProperty>, qs: seq<NodeProperty>)
    requires |ps| == |qs|
    requires forall k :: 0 <= k < |ps| ==> ps[k].name == qs[k].name
    ensures Join(Assignments(ps), ", ") == Join(Assignments(qs), ", ")
  {
    assert Assignments(ps) == Assignments(qs);
  }

  /** The create query MERGEs the node of the given type on its uuid, sets
      the same list on create and on match, and ends by returning the
      node's identifier. */
  lemma CreateQueryShape(t: string)
    requires t in NodeDefinitions
    ensures CreateQuery(t).Ok?
    ensures var x := NodeDefinitions[t].identifier;
            var props := Join(Assignments(NodeDefinitions[t].properties), ", ");
            var q := CreateQuery(t).value;
            && StartsWith(q, "\nMERGE " + NodePattern(x, t) + "\nON CREATE SET ")
            && q == CreateQueryBody(t) + "RETURN " + x + "\n"
            && q == MergeText(x, t, props, props)
  {
  }

  /** Everything before the final RETURN line of the create query. */
  function CreateQueryBody(t: string): (r: string)
    requires t in NodeDefinitions
    ensures |r| > 0 && r[|r| - 1] == '\n'
  {
    var x := NodeDefinitions[t].identifier;
    var props := Join(Assignments(NodeDefinitions[t].properties), ", ");
    "\nMERGE " + NodePattern(x, t)
    + "\nON CREATE SET " + x + " = {\n    " + props
    + "\n}\nON MATCH SET " + x + " += {\n    " + props
    + "\n}\n"
  }

  /** The single-node fetch query MATCHes the very pattern the create query
      MERGEs, and both return the same identifier; the many-node query
      matches the same label and identifier filtered by `$uuids`. */
  lemma FetchMatchesCreate(t: string)
    requires t in NodeDefinitions
    ensures var x := NodeDefinitions[t].identifier;
            && FetchNodeQuery(t) == Ok("\nMATCH " + NodePattern(x, t) + "\nRETURN " + x + "\n")
            && FetchNodesQuery(t) == Ok("\nMATCH (" + x + ":" + t + ")\nWHERE " + x + ".uuid IN $uuids\nRETURN " + x + "\n")
            && StartsWith(CreateQuery(t).value, "\nMERGE " + NodePattern(x, t))
  {
    var x := NodeDefinitions[t].identifier;
    CreateQueryShape(t);
    StartsWithShorter(CreateQuery(t).value, "\nMERGE " + NodePattern(x, t), "\nON CREATE SET ");
  }

  lemma StartsWithShorter(s: string, a: string, b: string)
    requires StartsWith(s, a + b)
    ensures StartsWith(s, a)
  {
    assert s[..|a|] == (a + b)[..|a|];
  }
}
