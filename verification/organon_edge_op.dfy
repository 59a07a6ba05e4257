/** Cypher generation for graph edges: the registry of allowed
    (from label, to label, relationship type) triples and the MERGE query
    that creates or updates a relationship. */
module OrganonEdgeOp {
  import opened Wrappers
  import opened Text

  datatype EdgeKey = EdgeKey(fromLabel: string, toLabel: string, relType: string)

  /** An allowed edge. `extraProps` lists the extra relationship properties
      and their Cypher expressions in dictionary order; an absent dictionary
      and an empty one are both the empty list. */
  datatype EdgeDefinition = EdgeDefinition(fromLabel: string, toLabel: string, relType: string,
                                           extraProps: seq<(string, string)>)

  function Plain(f: string, t: string, rel: string): EdgeDefinition {
    EdgeDefinition(f, t, rel, [])
  }

  /** The nine relationship types. */
  const EdgeTypes: seq<string> := ["POSTED_IN", "BELONGS_TO", "RELATED_TO", "MENTIONS", "INCLUDES",
                                   "PARTICIPATES_IN", "HAS_PREFERENCE", "FOR", "EXPRESSES"]

  /** `EDGE_DEFINITIONS`. */
  const EdgeDefinitions: map<EdgeKey, EdgeDefinition> := map[
    EdgeKey("Message", "Room", "POSTED_IN") := Plain("Message", "Room", "POSTED_IN"),
    EdgeKey("Message", "Cluster", "BELONGS_TO") := Plain("Message", "Cluster", "BELONGS_TO"),
    EdgeKey("User", "Room", "BELONGS_TO") := Plain("User", "Room", "BELONGS_TO"),
    EdgeKey("User", "Room", "POSTED_IN") :=
      EdgeDefinition("User", "Room", "POSTED_IN", [("count", "coalesce(p.count, 0) + 1")]),
    EdgeKey("User", "Topic", "RELATED_TO") := Plain("User", "Topic", "RELATED_TO"),
    EdgeKey("Cluster", "Room", "RELATED_TO") := Plain("Cluster", "Room", "RELATED_TO"),
    EdgeKey("Cluster", "Topic", "RELATED_TO") := Plain("Cluster", "Topic", "RELATED_TO"),
    EdgeKey("Room", "Topic", "RELATED_TO") := Plain("Room", "Topic", "RELATED_TO")
  ]

  /** The Cypher identifier of a label or type: its lower-cased first
      character. */
  function Initial(name: string): (r: string)
    requires |name| > 0
    ensures |r| == 1 && r[0] == LowerChar(name[0])
  {
    [LowerChar(name[0])]
  }

  /** The error for a triple outside the registry; it shows the key tuple
      as Python prints it. */
  function Unsupported(key: EdgeKey): Exception {
    ValueError("Unsupported edge definition: (" + StrRepr(key.fromLabel) + ", " + StrRepr(key.toLabel) + ", " + StrRepr(key.relType) + ")")
  }

  /** `(x:Label {uuid: $x_uuid})`: an endpoint matched by its uuid
      parameter. */
  function EndpointPattern(x: string, name: string): string {
    "(" + x + ":" + name + " {uuid: $" + x + "_uuid})"
  }

  function MatchClause(f: string, t: string, from: string, to: string): string {
    "\n    MATCH " + EndpointPattern(f, from) + ", " + EndpointPattern(t, to)
  }

  function MergeClause(f: string, t: string, r: string, rel: string): string {
    "\n    MERGE (" + f + ")-[" + r + ":" + rel + "]->(" + t + ")"
  }

  /** The timestamp assignments; `matchExtra` is appended to the ON MATCH
      line. */
  function SetClauses(r: string, matchExtra: string): string {
    "\n    ON CREATE SET " + r + ".created_at = $created_at, " + r + ".updated_at = $updated_at"
    + "\n    ON MATCH SET " + r + ".updated_at = $updated_at" + matchExtra
    + "\n    "
  }

  /** The query up to its RETURN clause. */
  function EdgeText(f: string, t: string, r: string, from: string, to: string, rel: string, matchExtra: string): string {
    MatchClause(f, t, from, to) + MergeClause(f, t, r, rel) + SetClauses(r, matchExtra)
  }

  function ReturnClause(f: string, t: string, r: string): string {
    "RETURN " + f + ", " + r + ", " + t
  }

  /** One extra property assignment: `r.name = expression`. */
  function ExtraAssignment(r: string, prop: (string, string)): string {
    r + "." + prop.0 + " = " + prop.1
  }

  function ExtraAssignments(r: string, props: seq<(string, string)>): (s: seq<string>)
    ensures |s| == |props|
    ensures forall k :: 0 <= k < |props| ==> s[k] == ExtraAssignment(r, props[k])
  {
    seq(|props|, k requires 0 <= k < |props| => ExtraAssignment(r, props[k]))
  }

  /** The text the code replaces: a plain string holding a literal
      "{rel_id}", not the formatted ON MATCH line. */
  const LiteralTarget: string := "ON MATCH SET {rel_id}.updated_at = $updated_at"

  /** `generate_edge_query` as written. */
  function EdgeQueryAsWritten(key: EdgeKey): Result<string> {
    if key !in EdgeDefinitions then Err(Unsupported(key))
    else
      var d := EdgeDefinitions[key];
      var f := Initial(key.fromLabel);
      var t := Initial(key.toLabel);
      var r := Initial(key.relType);
      var base := EdgeText(f, t, r, key.fromLabel, key.toLabel, key.relType, "");
      var query :=
        if |d.extraProps| > 0 then
          ReplaceAll(base, LiteralTarget,
                     "ON MATCH SET " + r + ".updated_at = $updated_at, " + Join(ExtraAssignments(r, d.extraProps), ", "))
        else base;
      Ok(query + ReturnClause(f, t, r))
  }

  /** The query the code evidently intends: the extra properties are
      appended to the ON MATCH line. */
  function EdgeQuery(key: EdgeKey): Result<string> {
    if key !in EdgeDefinitions then Err(Unsupported(key))
    else
      var d := EdgeDefinitions[key];
      var f := Initial(key.fromLabel);
      var t := Initial(key.toLabel);
      var r := Initial(key.relType);
      var extra := if |d.extraProps| > 0 then ", " + Join(ExtraAssignments(r, d.extraProps), ", ") else "";
      Ok(EdgeText(f, t, r, key.fromLabel, key.toLabel, key.relType, extra) + ReturnClause(f, t, r))
  }

  /** The loop that formats the extra properties. */
  method BuildExtraProps(r: string, props: seq<(string, string)>) returns (extraProps: seq<string>)
    ensures extraProps == ExtraAssignments(r, props)
  {
    extraProps := [];
    var i := 0;
    while i < |props|
      invariant 0 <= i <= |props|
      invariant |extraProps| == i
      invariant forall k :: 0 <= k < i ==> extraProps[k] == ExtraAssignment(r, props[k])
    {
      var (propName, propValue) := props[i];
      extraProps := extraProps + [r + "." + propName + " = " + propValue];
      i := i + 1;
    }
  }

  /** `generate_edge_query` as written: the replacement never finds its
      target, so the query is the plain one whatever the extra properties. */
  method GenerateEdgeQueryAsWritten(fromLabel: string, toLabel: string, relType: string) returns (q: Result<string>)
    ensures q == EdgeQueryAsWritten(EdgeKey(fromLabel, toLabel, relType))
    ensures q.Err? <==> EdgeKey(fromLabel, toLabel, relType) !in EdgeDefinitions
    ensures q.Ok? ==>
      var f := Initial(fromLabel);
      var t := Initial(toLabel);
      var r := Initial(relType);
      q.value == EdgeText(f, t, r, fromLabel, toLabel, relType, "") + ReturnClause(f, t, r)
  {
    var key := EdgeKey(fromLabel, toLabel, relType);
    if key !in EdgeDefinitions {
      return Err(Unsupported(key));
    }
    var edgeDef := EdgeDefinitions[key];
    var fromId := Initial(fromLabel);
    var toId := Initial(toLabel);
    var relId := Initial(relType);
    var query := EdgeText(fromId, toId, relId, fromLabel, toLabel, relType, "");
    if |edgeDef.extraProps| > 0 {
      var extraProps := BuildExtraProps(relId, edgeDef.extraProps);
      if |extraProps| > 0 {
        var extraPropsStr := Join(extraProps, ", ");
        query := ReplaceAll(query, LiteralTarget,
                            "ON MATCH SET " + relId + ".updated_at = $updated_at, " + extraPropsStr);
      }
    }
    AsWrittenNeverSplices(key);
    query := query + ReturnClause(fromId, toId, relId);
    q := Ok(query);
  }

  /** `generate_edge_query` as intended: the formatted extra properties
      extend the ON MATCH line. */
  method GenerateEdgeQuery(fromLabel: string, toLabel: string, relType: string) returns (q: Result<string>)
    ensures q == EdgeQuery(EdgeKey(fromLabel, toLabel, relType))
  {
    var key := EdgeKey(fromLabel, toLabel, relType);
    if key !in EdgeDefinitions {
      return Err(Unsupported(key));
    }
    var edgeDef := EdgeDefinitions[key];
    var fromId := Initial(fromLabel);
    var toId := Initial(toLabel);
    var relId := Initial(relType);
    var query := EdgeText(fromId, toId, relId, fromLabel, toLabel, relType, "");
    if |edgeDef.extraProps| > 0 {
      var extraProps := BuildExtraProps(relId, edgeDef.extraProps);
      if |extraProps| > 0 {
        var extraPropsStr := Join(extraProps, ", ");
        query := EdgeText(fromId, toId, relId, fromLabel, toLabel, relType, ", " + extraPropsStr);
      }
    }
    query := query + ReturnClause(fromId, toId, relId);
    q := Ok(query);
  }

  /** `get_edge_query`: the generator as written. */
  method GetEdgeQuery(fromLabel: string, toLabel: string, relType: string) returns (q: Result<string>)
    ensures q == EdgeQueryAsWritten(EdgeKey(fromLabel, toLabel, relType))
    ensures q.Err? <==> EdgeKey(fromLabel, toLabel, relType) !in EdgeDefinitions
  {
    q := GenerateEdgeQueryAsWritten(fromLabel, toLabel, relType);
  }

  // ---------------------------------------------------------------------
  // Properties.

  /** Every registry key is the (from, to, type) of its own definition, and
      its type is one of the nine relationship types. */
  lemma RegistryKeysMatch(key: EdgeKey)
    requires key in EdgeDefinitions
    ensures EdgeDefinitions[key].fromLabel == key.fromLabel
    ensures EdgeDefinitions[key].toLabel == key.toLabel
    ensures EdgeDefinitions[key].relType == key.relType
    ensures key.relType in EdgeTypes
  {
  }

  /** Generation fails exactly for triples outside the registry; e.g.
      (User, User, POSTED_IN) is rejected. */
  lemma EdgeQueryErrors(key: EdgeKey)
    ensures EdgeQuery(key).Err? <==> key !in EdgeDefinitions
    ensures EdgeQueryAsWritten(key).Err? <==> key !in EdgeDefinitions
    ensures EdgeQuery(key).Err? ==> EdgeQuery(key).error == Unsupported(key)
    ensures EdgeKey("User", "User", "POSTED_IN") !in EdgeDefinitions
  {
  }

  /** The identifiers need not be distinct: in (Cluster, Room, RELATED_TO)
      the relationship and the target are both "r", and in
      (Room, Topic, RELATED_TO) the source and the relationship are. */
  lemma IdentifiersCollide()
    ensures var k := EdgeKey("Cluster", "Room", "RELATED_TO");
            k in EdgeDefinitions && Initial(k.relType) == Initial(k.toLabel) == "r"
    ensures var k := EdgeKey("Room", "Topic", "RELATED_TO");
            k in EdgeDefinitions && Initial(k.relType) == Initial(k.fromLabel) == "r"
  {
  }

  /** An endpoint pattern over brace-free text has no "{r" in it and is
      enclosed in parentheses. */
  lemma {:induction false} EndpointNoBraceR(x: string, name: string)
    requires '{' !in x && '{' !in name
    ensures var e := EndpointPattern(x, name);
            NoPair(e, '{', 'r') && e[0] == '(' && e[|e| - 1] == ')'
  {
    var a := "(" + x + ":" + name;
    var k := " {uuid: $";
    var b := x + "_uuid})";
    assert EndpointPattern(x, name) == a + k + b;
    assert '{' !in a && '{' !in b;
    NoPairWithout(a, '{', 'r');
    NoPairWithout(b, '{', 'r');
    assert NoPair(k, '{', 'r');
    assert a[|a| - 1] in a;
    NoPairConcat(a, k, '{', 'r');
    NoPairConcat(a + k, b, '{', 'r');
  }

  /** A query base built from brace-free labels has no "{r" in it. */
  lemma {:induction false} NoBraceR(f: string, t: string, r: string, from: string, to: string, rel: string)
    requires '{' !in f && '{' !in t && '{' !in r && '{' !in from && '{' !in to && '{' !in rel
    ensures NoPair(EdgeText(f, t, r, from, to, rel, ""), '{', 'r')
  {
    var p := "\n    MATCH ";
    var e1 := EndpointPattern(f, from);
    var e2 := EndpointPattern(t, to);
    var rest := MergeClause(f, t, r, rel) + SetClauses(r, "");
    EndpointNoBraceR(f, from);
    EndpointNoBraceR(t, to);
    assert '{' !in MergeClause(f, t, r, rel);
    assert '{' !in SetClauses(r, "");
    NoPairWithout(p, '{', 'r');
    NoPairWithout(", ", '{', 'r');
    NoPairWithout(rest, '{', 'r');
    NoPairConcat(p, e1, '{', 'r');
    NoPairConcat(p + e1, ", ", '{', 'r');
    NoPairConcat(p + e1 + ", ", e2, '{', 'r');
    assert (p + e1 + ", " + e2)[|p + e1 + ", " + e2| - 1] == ')';
    NoPairConcat(p + e1 + ", " + e2, rest, '{', 'r');
    assert EdgeText(f, t, r, from, to, rel, "") == p + e1 + ", " + e2 + rest;
  }

  /** The replacement in `generate_edge_query` is a no-op: its target holds
      a literal "{rel_id}" that no generated query contains. */
  lemma AsWrittenNeverSplices(key: EdgeKey)
    requires key in EdgeDefinitions
    ensures var f := Initial(key.fromLabel);
            var t := Initial(key.toLabel);
            var r := Initial(key.relType);
            EdgeQueryAsWritten(key) == Ok(EdgeText(f, t, r, key.fromLabel, key.toLabel, key.relType, "") + ReturnClause(f, t, r))
  {
    var d := EdgeDefinitions[key];
    var f := Initial(key.fromLabel);
    var t := Initial(key.toLabel);
    var r := Initial(key.relType);
    var base := EdgeText(f, t, r, key.fromLabel, key.toLabel, key.relType, "");
    if |d.extraProps| > 0 {
      assert key == EdgeKey("User", "Room", "POSTED_IN");
      NoBraceR(f, t, r, key.fromLabel, key.toLabel, key.relType);
      forall i | 0 <= i <= |base|
        ensures !OccursAt(base, LiteralTarget, i)
      {
        NoPairNoOccurrence(base, LiteralTarget, '{', 'r', 13, i);
      }
      ReplaceAbsent(base, LiteralTarget,
                    "ON MATCH SET " + r + ".updated_at = $updated_at, " + Join(ExtraAssignments(r, d.extraProps), ", "));
    }
  }

  /** For every registered triple without extra properties the code as
      written and the intended query agree. */
  lemma AsWrittenAgreesWithoutExtras(key: EdgeKey)
    requires key in EdgeDefinitions && EdgeDefinitions[key].extraProps == []
    ensures EdgeQueryAsWritten(key) == EdgeQuery(key)
  {
    AsWrittenNeverSplices(key);
  }

  /** (User, Room, POSTED_IN) is the one triple where they differ: only the
      intended query increments the post count on match. */
  lemma PostedInCountLost()
    ensures var key := EdgeKey("User", "Room", "POSTED_IN");
            var count := ExtraAssignment("p", ("count", "coalesce(p.count, 0) + 1"));
            && EdgeQuery(key) == Ok(EdgeText("u", "r", "p", "User", "Room", "POSTED_IN", ", " + count) + ReturnClause("u", "r", "p"))
            && EdgeQueryAsWritten(key) == Ok(EdgeText("u", "r", "p", "User", "Room", "POSTED_IN", "") + ReturnClause("u", "r", "p"))
            && EdgeQueryAsWritten(key) != EdgeQuery(key)
  {
    var key := EdgeKey("User", "Room", "POSTED_IN");
    AsWrittenNeverSplices(key);
    var d := EdgeDefinitions[key];
    var count := ExtraAssignment("p", ("count", "coalesce(p.count, 0) + 1"));
    assert d.extraProps == [("count", "coalesce(p.count, 0) + 1")];
    assert ExtraAssignments("p", d.extraProps) == [count];
    assert Initial("User") == "u" && Initial("Room") == "r" && Initial("POSTED_IN") == "p";
    var a := EdgeText("u", "r", "p", "User", "Room", "POSTED_IN", "");
    var b := EdgeText("u", "r", "p", "User", "Room", "POSTED_IN", ", " + count);
    assert |SetClauses("p", ", " + count)| > |SetClauses("p", "")|;
    assert |a + ReturnClause("u", "r", "p")| != |b + ReturnClause("u", "r", "p")|;
  }

  /** Every generated query matches both endpoints by their uuid
      parameters, MERGEs the typed relationship between them, and ends by
      returning the three identifiers. */
  lemma EdgeQueryShape(key: EdgeKey)
    requires key in EdgeDefinitions
    ensures var f := Initial(key.fromLabel);
            var t := Initial(key.toLabel);
            var r := Initial(key.relType);
            var q := EdgeQuery(key).value;
            var head := MatchClause(f, t, key.fromLabel, key.toLabel) + MergeClause(f, t, r, key.relType);
            && EdgeQuery(key).Ok?
            && StartsWith(q, head)
            && |q| >= |ReturnClause(f, t, r)|
            && q[|q| - |ReturnClause(f, t, r)|..] == ReturnClause(f, t, r)
  {
    var f := Initial(key.fromLabel);
    var t := Initial(key.toLabel);
    var r := Initial(key.relType);
    var d := EdgeDefinitions[key];
    var extra := if |d.extraProps| > 0 then ", " + Join(ExtraAssignments(r, d.extraProps), ", ") else "";
    var head := MatchClause(f, t, key.fromLabel, key.toLabel) + MergeClause(f, t, r, key.relType);
    var ret := ReturnClause(f, t, r);
    var mid := SetClauses(r, extra);
    assert EdgeQuery(key).value == head + mid + ret;
    ConcatEnds(head, mid, ret);
  }

  /** The query as written has the same shape: its MATCH and MERGE head
      and its RETURN clause are those of every generated query. */
  lemma AsWrittenQueryShape(key: EdgeKey)
    requires key in EdgeDefinitions
    ensures var f := Initial(key.fromLabel);
            var t := Initial(key.toLabel);
            var r := Initial(key.relType);
            var q := EdgeQueryAsWritten(key).value;
            var head := MatchClause(f, t, key.fromLabel, key.toLabel) + MergeClause(f, t, r, key.relType);
            && EdgeQueryAsWritten(key).Ok?
            && StartsWith(q, head)
            && |q| >= |ReturnClause(f, t, r)|
            && q[|q| - |ReturnClause(f, t, r)|..] == ReturnClause(f, t, r)
  {
    var f := Initial(key.fromLabel);
    var t := Initial(key.toLabel);
    var r := Initial(key.relType);
    var head := MatchClause(f, t, key.fromLabel, key.toLabel) + MergeClause(f, t, r, key.relType);
    var ret := ReturnClause(f, t, r);
    var mid := SetClauses(r, "");
    AsWrittenNeverSplices(key);
    assert EdgeQueryAsWritten(key).value == head + mid + ret;
    ConcatEnds(head, mid, ret);
  }

  lemma ConcatEnds(a: string, b: string, c: string)
    ensures StartsWith(a + b + c, a)
    ensures (a + b + c)[|a + b + c| - |c|..] == c
  {
    assert (a + b + c)[..|a|] == a;
    assert (a + b + c)[|a + b|..] == c;
  }
}
