/** Personas: a message example, the three style lists and the persona
    itself, with the validation their fields demand and the text forms
    their serializers produce. A serialized dictionary is a sequence of
    (key, value) pairs in insertion order. */
module Persona {
  import opened Wrappers
  import opened Text

  datatype TextContent = TextContent(text: string)

  datatype MessageExample = MessageExample(user: string, content: TextContent, action: Option<string>)

  datatype StyleRules = StyleRules(generalStyle: seq<string>, conversationStyle: seq<string>, publicationStyle: seq<string>)

  datatype Persona = Persona(
    name: string,
    description: seq<string>,
    backstory: seq<string>,
    adjectives: seq<string>,
    topics: seq<string>,
    conversationExamples: seq<seq<MessageExample>>,
    publicationsExamples: Option<seq<string>>,
    styleRules: StyleRules)

  /** A serialized field: text, or `None`. */
  datatype FieldValue = TextValue(text: string) | NoneValue

  const NameDefault := "Athena"

  // ---------------------------------------------------------------------
  // Message examples.

  /** `if self.action`: absent and empty actions are falsy. */
  predicate HasAction(m: MessageExample) {
    m.action.Some? && m.action.value != ""
  }

  /** The action as it shows up: the empty text when falsy. */
  function ShownAction(m: MessageExample): string {
    if HasAction(m) then m.action.value else ""
  }

  /** The two lines every example starts with. */
  function ExampleHead(m: MessageExample): string {
    "User: " + m.user + "\nContent: " + m.content.text
  }

  /** `MessageExample.ser_message_example`. */
  function SerMessageExample(m: MessageExample): (r: string)
    ensures StartsWith(r, ExampleHead(m))
    ensures HasAction(m) ==> r == ExampleHead(m) + "\nAction: " + m.action.value
    ensures !HasAction(m) ==> r == ExampleHead(m)
  {
    ExampleHead(m) + ActionLine(m)
  }

  // ---------------------------------------------------------------------
  // Validation.

  /** `StyleRules(...)`: each list needs at least one element; the error
      names the first field, in declaration order, that has none. */
  function MakeStyleRules(general: seq<string>, conversation: seq<string>, publication: seq<string>): (r: Result<StyleRules>)
    ensures r.Ok? <==> |general| >= 1 && |conversation| >= 1 && |publication| >= 1
    ensures r.Ok? ==> r.value == StyleRules(general, conversation, publication) && ValidStyle(r.value)
    ensures r.Err? ==> r.error.ValidationError?
  {
    if |general| < 1 then Err(ValidationError("general_style"))
    else if |conversation| < 1 then Err(ValidationError("conversation_style"))
    else if |publication| < 1 then Err(ValidationError("publication_style"))
    else Ok(StyleRules(general, conversation, publication))
  }

  predicate ValidStyle(s: StyleRules) {
    |s.generalStyle| >= 1 && |s.conversationStyle| >= 1 && |s.publicationStyle| >= 1
  }

  /** What construction guarantees of a persona. */
  predicate Valid(p: Persona) {
    |p.description| >= 1 && ValidStyle(p.styleRules)
  }

  /** `Persona(...)` from its fields; `name` defaults to "Athena". The style
      rules arrive as their three lists and are validated with it. */
  function MakePersona(name: Option<string>, description: seq<string>, backstory: seq<string>,
                       adjectives: seq<string>, topics: seq<string>,
                       conversationExamples: seq<seq<MessageExample>>,
                       publicationsExamples: Option<seq<string>>,
                       general: seq<string>, conversation: seq<string>, publication: seq<string>): (r: Result<Persona>)
    ensures r.Ok? <==> |description| >= 1 && MakeStyleRules(general, conversation, publication).Ok?
    ensures r.Ok? ==> Valid(r.value)
    ensures r.Ok? ==> r.value.name == (if name.Some? then name.value else NameDefault)
    ensures r.Ok? ==> r.value.description == description && r.value.backstory == backstory
                      && r.value.publicationsExamples == publicationsExamples
    ensures r.Ok? ==> r.value.adjectives == adjectives && r.value.topics == topics
                      && r.value.conversationExamples == conversationExamples
                      && r.value.styleRules == StyleRules(general, conversation, publication)
    ensures r.Err? ==> r.error.ValidationError?
  {
    if |description| < 1 then Err(ValidationError("description"))
    else
      var style :- MakeStyleRules(general, conversation, publication);
      Ok(Persona(if name.Some? then name.value else NameDefault, description, backstory,
                 adjectives, topics, conversationExamples, publicationsExamples, style))
  }

  // ---------------------------------------------------------------------
  // Serialization.

  /** `StyleRules.ser_style_rules`: every field is a list, so every value is
      its "\n"-join. */
  function SerStyleRules(s: StyleRules): (r: seq<(string, string)>)
    ensures |r| == 3
    ensures r[0].0 == "general_style" && r[1].0 == "conversation_style" && r[2].0 == "publication_style"
  {
    [("general_style", Join(s.generalStyle, "\n")),
     ("conversation_style", Join(s.conversationStyle, "\n")),
     ("publication_style", Join(s.publicationStyle, "\n"))]
  }

  /** The `publications_examples` entry: `None` when absent or empty. */
  function SerPublications(pubs: Option<seq<string>>): (r: FieldValue)
    ensures r.NoneValue? <==> pubs.None? || pubs.value == []
  {
    if pubs.Some? && pubs.value != [] then TextValue(Join(pubs.value, "\n")) else NoneValue
  }

  /** The `conversation_examples` entry: each group's examples one per
      line, groups separated by a blank line. `show` is `str` of a pydantic
      model, which is library behaviour. */
  function SerConversations(groups: seq<seq<MessageExample>>, show: MessageExample -> string): (r: string)
    ensures |groups| == 1 && |groups[0]| == 1 ==> r == show(groups[0][0])
  {
    Join(seq(|groups|, g requires 0 <= g < |groups| =>
           Join(seq(|groups[g]|, k requires 0 <= k < |groups[g]| => show(groups[g][k])), "\n")), "\n\n")
  }

  /** The keys of `ser_persona`, in order. */
  const PersonaKeys: seq<string> := [
    "name", "description", "backstory", "adjectives", "topics", "conversation_examples",
    "publications_examples", "general_conversation", "conversation_style", "publication_style"]

  /** `Persona.ser_persona`. */
  function SerPersona(p: Persona, show: MessageExample -> string): (r: seq<(string, FieldValue)>)
    ensures |r| == |PersonaKeys|
    ensures forall k :: 0 <= k < |r| ==> r[k].0 == PersonaKeys[k]
    ensures forall k :: 0 <= k < |r| && k != 6 ==> r[k].1.TextValue?
  {
    [("name", TextValue(p.name)),
     ("description", TextValue(Join(p.description, "\n"))),
     ("backstory", TextValue(Join(p.backstory, "\n"))),
     ("adjectives", TextValue(Join(p.adjectives, ", "))),
     ("topics", TextValue(Join(p.topics, ", "))),
     ("conversation_examples", TextValue(SerConversations(p.conversationExamples, show))),
     ("publications_examples", SerPublications(p.publicationsExamples)),
     ("general_conversation", TextValue(Join(p.styleRules.generalStyle, "\n"))),
     ("conversation_style", TextValue(Join(p.styleRules.conversationStyle, "\n"))),
     ("publication_style", TextValue(Join(p.styleRules.publicationStyle, "\n")))]
  }

  // ---------------------------------------------------------------------
  // Properties.

  /** Two examples with the same user and text serialize alike exactly when
      their actions show alike: an absent action and an empty one are the
      same, any other difference shows. */
  lemma ExampleDeterminesAction(m: MessageExample, n: MessageExample)
    requires m.user == n.user && m.content == n.content
    ensures SerMessageExample(m) == SerMessageExample(n) <==> ShownAction(m) == ShownAction(n)
  {
    var h := ExampleHead(m);
    var sm := ActionLine(m);
    var sn := ActionLine(n);
    assert SerMessageExample(m) == h + sm && SerMessageExample(n) == h + sn;
    if SerMessageExample(m) == SerMessageExample(n) {
      assert (h + sm)[|h|..] == sm && (h + sn)[|h|..] == sn;
      if HasAction(m) {
        assert sm[9..] == m.action.value;
      }
      if HasAction(n) {
        assert sn[9..] == n.action.value;
      }
    }
  }

  /** The optional third line of an example. */
  function ActionLine(m: MessageExample): (r: string)
    ensures r == [] <==> !HasAction(m)
  {
    if HasAction(m) then "\nAction: " + m.action.value else ""
  }

  /** The style lists read the same in both serializers. */
  lemma StyleSectionsAgree(p: Persona, show: MessageExample -> string)
    ensures var style := SerStyleRules(p.styleRules);
            var persona := SerPersona(p, show);
            && persona[7].1 == TextValue(style[0].1)
            && persona[8].1 == TextValue(style[1].1)
            && persona[9].1 == TextValue(style[2].1)
  {
  }

  /** The "\n"-joined description gives its list back on splitting,
      provided no element holds a line break: construction guarantees
      that the list is not empty. The style sections come back through
      `StyleRulesRecoverable` and `StyleSectionsAgree`. */
  lemma DescriptionRecoverable(p: Persona, show: MessageExample -> string)
    requires Valid(p)
    requires forall k :: 0 <= k < |p.description| ==> '\n' !in p.description[k]
    ensures SerPersona(p, show)[1].1.TextValue?
    ensures Split(SerPersona(p, show)[1].1.text, '\n') == p.description
  {
    SplitJoin(p.description, '\n');
  }

  /** The publications round trip: present, non-empty lists without line
      breaks come back on splitting; absent and empty lists both give `None`. */
  lemma PublicationsRecoverable(pubs: seq<string>)
    requires forall k :: 0 <= k < |pubs| ==> '\n' !in pubs[k]
    ensures pubs != [] ==> (SerPublications(Some(pubs)).TextValue?
                            && Split(SerPublications(Some(pubs)).text, '\n') == pubs)
    ensures pubs == [] ==> SerPublications(Some(pubs)) == SerPublications(None) == NoneValue
  {
    if pubs != [] {
      SplitJoin(pubs, '\n');
    }
  }

  /** Each style list comes back from its "\n"-joined value on splitting,
      provided no element holds a line break: construction guarantees
      that no list is empty. */
  lemma StyleRulesRecoverable(s: StyleRules)
    requires ValidStyle(s)
    ensures (forall k :: 0 <= k < |s.generalStyle| ==> '\n' !in s.generalStyle[k])
            ==> Split(SerStyleRules(s)[0].1, '\n') == s.generalStyle
    ensures (forall k :: 0 <= k < |s.conversationStyle| ==> '\n' !in s.conversationStyle[k])
            ==> Split(SerStyleRules(s)[1].1, '\n') == s.conversationStyle
    ensures (forall k :: 0 <= k < |s.publicationStyle| ==> '\n' !in s.publicationStyle[k])
            ==> Split(SerStyleRules(s)[2].1, '\n') == s.publicationStyle
  {
    if forall k :: 0 <= k < |s.generalStyle| ==> '\n' !in s.generalStyle[k] {
      SplitJoin(s.generalStyle, '\n');
    }
    if forall k :: 0 <= k < |s.conversationStyle| ==> '\n' !in s.conversationStyle[k] {
      SplitJoin(s.conversationStyle, '\n');
    }
    if forall k :: 0 <= k < |s.publicationStyle| ==> '\n' !in s.publicationStyle[k] {
      SplitJoin(s.publicationStyle, '\n');
    }
  }

  /** The parts of a ", "-join as splitting on "," returns them: every
      part after the first keeps the space that followed its comma. */
  function SplitOnComma(parts: seq<string>): (r: seq<string>)
    requires |parts| > 0
    ensures |r| == |parts| && r[0] == parts[0]
    ensures forall k :: 1 <= k < |r| ==> r[k] == " " + parts[k]
  {
    [parts[0]] + seq(|parts| - 1, k requires 0 <= k < |parts| - 1 => " " + parts[k + 1])
  }

  /** A space before a ", "-join is the ","-join of the parts, each with
      a space in front. */
  lemma {:induction false} SpacedJoin(q: seq<string>)
    requires |q| > 0
    ensures " " + Join(q, ", ") == Join(seq(|q|, k requires 0 <= k < |q| => " " + q[k]), ",")
  {
    var spaced := seq(|q|, k requires 0 <= k < |q| => " " + q[k]);
    if |q| > 1 {
      SpacedJoin(q[1..]);
      assert spaced[1..] == seq(|q| - 1, k requires 0 <= k < |q| - 1 => " " + q[1..][k]);
      assert " " + Join(q, ", ") == spaced[0] + "," + (" " + Join(q[1..], ", "));
    }
  }

  /** Splitting a ", "-join of parts without commas on "," gives the
      parts back, those after the first with their leading space. */
  lemma {:induction false} CommaJoinSplit(parts: seq<string>)
    requires |parts| > 0
    requires forall k :: 0 <= k < |parts| ==> ',' !in parts[k]
    ensures Split(Join(parts, ", "), ',') == SplitOnComma(parts)
  {
    var r := SplitOnComma(parts);
    if |parts| > 1 {
      var rest := parts[1..];
      SpacedJoin(rest);
      assert r[1..] == seq(|rest|, k requires 0 <= k < |rest| => " " + rest[k]);
      assert Join(parts, ", ") == Join(r, ",");
    }
    forall k | 0 <= k < |r|
      ensures ',' !in r[k]
    {
      if k > 0 {
        assert r[k] == " " + parts[k];
      }
    }
    SplitJoin(r, ',');
  }

  /** The list fields come back on splitting: the backstory on line
      breaks when it is non-empty and no line holds a break, adjectives
      and topics on commas, each part after the first with its leading
      space, when non-empty and free of commas. */
  lemma ListFieldsRecoverable(p: Persona, show: MessageExample -> string)
    ensures SerPersona(p, show)[2].1.TextValue? && SerPersona(p, show)[3].1.TextValue?
            && SerPersona(p, show)[4].1.TextValue?
    ensures |p.backstory| > 0 && (forall k :: 0 <= k < |p.backstory| ==> '\n' !in p.backstory[k])
            ==> Split(SerPersona(p, show)[2].1.text, '\n') == p.backstory
    ensures |p.adjectives| > 0 && (forall k :: 0 <= k < |p.adjectives| ==> ',' !in p.adjectives[k])
            ==> Split(SerPersona(p, show)[3].1.text, ',') == SplitOnComma(p.adjectives)
    ensures |p.topics| > 0 && (forall k :: 0 <= k < |p.topics| ==> ',' !in p.topics[k])
            ==> Split(SerPersona(p, show)[4].1.text, ',') == SplitOnComma(p.topics)
  {
    if |p.backstory| > 0 && (forall k :: 0 <= k < |p.backstory| ==> '\n' !in p.backstory[k]) {
      SplitJoin(p.backstory, '\n');
    }
    if |p.adjectives| > 0 && (forall k :: 0 <= k < |p.adjectives| ==> ',' !in p.adjectives[k]) {
      CommaJoinSplit(p.adjectives);
    }
    if |p.topics| > 0 && (forall k :: 0 <= k < |p.topics| ==> ',' !in p.topics[k]) {
      CommaJoinSplit(p.topics);
    }
  }

  /** An empty backstory and a backstory of one empty line serialize alike:
      without a length constraint the list is not recoverable. */
  lemma BackstoryAmbiguous(p: Persona, show: MessageExample -> string)
    ensures SerPersona(p.(backstory := []), show) == SerPersona(p.(backstory := [""]), show)
  {
  }

  /** Construction fails exactly for an empty description or style list,
      and a persona built without a name is called Athena. */
  lemma ConstructionRules(description: seq<string>, general: seq<string>, conversation: seq<string>, publication: seq<string>)
    ensures MakePersona(None, description, [], [], [], [], None, general, conversation, publication).Ok?
            <==> description != [] && general != [] && conversation != [] && publication != []
    ensures MakePersona(None, [""], [], [], [], [], None, [""], [""], [""]).Ok?
    ensures MakePersona(None, [""], [], [], [], [], None, [""], [""], [""]).value.name == "Athena"
    ensures MakePersona(None, [], [], [], [], [], None, [""], [""], [""]) == Err(ValidationError("description"))
  {
  }
}
