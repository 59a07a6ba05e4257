/** The bot's `/start` handling: recognising a summary deep link, checking
    that the requester is the user the link was made for, and assembling
    the HTML of a detailed community summary with one numbered link per
    referenced message. */
module StartFunctions {
  import opened Wrappers
  import opened Text
  import opened Sorting
  import opened TelegramSchemas

  // ---------------------------------------------------------------------
  // resolve_start_command

  datatype CommandType = SummaryCommand | ElseCommand

  /** `message.command` is the command split on whitespace, its name first. */
  function ResolveStartCommand(command: seq<string>): (r: CommandType)
    ensures r == SummaryCommand <==> |command| > 1 && StartsWith(command[1], "summary")
  {
    if |command| > 1 && StartsWith(command[1], "summary") then SummaryCommand else ElseCommand
  }

  // ---------------------------------------------------------------------
  // The user-id check of community_summary_response

  /** Which branch the request takes: the PermissionError branch
      (`Unauthorized`), the ValueError/IndexError branch (`InvalidFormat`)
      or the summary itself. */
  datatype SummaryRequest = Authorized(requestedUserId: int) | Unauthorized(requestedUserId: int) | InvalidFormat

  /** `int(message.command[1].split("_")[1])`, None where it raises. */
  function RequestedUserId(command: seq<string>): (r: Option<int>)
    ensures |command| < 2 ==> r.None?
    ensures |command| >= 2 && |Split(command[1], '_')| < 2 ==> r.None?
    ensures |command| >= 2 && |Split(command[1], '_')| >= 2 ==> r == ParseInt(Split(command[1], '_')[1])
  {
    if |command| < 2 then None
    else
      var parts := Split(command[1], '_');
      if |parts| < 2 then None else ParseInt(parts[1])
  }

  function CheckSummaryRequest(command: seq<string>, senderId: int): (r: SummaryRequest)
    ensures r == InvalidFormat <==> RequestedUserId(command).None?
    ensures r.Authorized? ==> r.requestedUserId == senderId
    ensures r.Unauthorized? ==> r.requestedUserId != senderId
    ensures !r.InvalidFormat? ==> r.requestedUserId == RequestedUserId(command).value
  {
    match RequestedUserId(command)
    case None => InvalidFormat
    case Some(id) => if id != senderId then Unauthorized(id) else Authorized(id)
  }

  /** The deep link `/start summary_<id>` the bot hands out is recognised,
      and it authorises exactly the user it names. */
  lemma SummaryLinkRoundTrip(id: int, sender: int)
    ensures ResolveStartCommand(["start", "summary_" + IntToString(id)]) == SummaryCommand
    ensures CheckSummaryRequest(["start", "summary_" + IntToString(id)], sender)
            == if sender == id then Authorized(id) else Unauthorized(id)
  {
    var digits := IntToString(id);
    assert '_' !in digits by {
      if id < 0 {
        assert digits == "-" + NatToString(-id);
        assert forall k :: 0 <= k < |digits| ==> digits[k] != '_' by {
          forall k | 0 <= k < |digits| ensures digits[k] != '_' {
            if k > 0 {
              assert digits[k] == NatToString(-id)[k - 1];
            }
          }
        }
      }
    }
    assert "summary_" + digits == "summary" + ['_'] + digits;
    SplitAtSeparator("summary", digits, '_');
    SplitNoSeparator(digits, '_');
    ParseIntToString(id);
  }

  // ---------------------------------------------------------------------
  // create_detailed_community_summary_response

  /** A topic of the summariser's answer; message ids come back as strings. */
  datatype Topic = Topic(topicName: string, summary: string, messageIds: seq<string>)

  /** `[int(message_id) for message_id in ids]`: ValueError on the first
      one that is not an integer. */
  function ParseIds(ids: seq<string>): (r: Result<seq<int>>)
    ensures r.Ok? <==> forall k :: 0 <= k < |ids| ==> ParseInt(ids[k]).Some?
    ensures r.Ok? ==> |r.value| == |ids| && forall k :: 0 <= k < |ids| ==> Some(r.value[k]) == ParseInt(ids[k])
  {
    if ids == [] then Ok([])
    else match ParseInt(ids[0])
      case None => Err(ValueError("invalid literal for int() with base 10"))
      case Some(v) =>
        var rest :- ParseIds(ids[1..]);
        ConsParsed(ids, v, rest);
        Ok([v] + rest)
  }

  /** One more parsed id in front of the parsed rest. */
  lemma ConsParsed(ids: seq<string>, v: int, rest: seq<int>)
    requires |ids| > 0 && ParseInt(ids[0]) == Some(v)
    requires |rest| == |ids| - 1 && forall k :: 0 <= k < |rest| ==> Some(rest[k]) == ParseInt(ids[1..][k])
    ensures forall k :: 0 <= k < |ids| ==> Some(([v] + rest)[k]) == ParseInt(ids[k])
  {
    forall k | 0 <= k < |ids|
      ensures Some(([v] + rest)[k]) == ParseInt(ids[k])
    {
      if k > 0 {
        assert ids[k] == ids[1..][k - 1];
      }
    }
  }

  function Negated(x: int): real { -(x as real) }

  /** `message_ids.sort()`: ascending order is descending order of the
      negated value. */
  function Ascending(ids: seq<int>): (r: seq<int>)
    ensures multiset(r) == multiset(ids)
  {
    SortDesc(ids, Negated)
  }

  lemma AscendingSorted(ids: seq<int>)
    ensures forall i, j :: 0 <= i < j < |Ascending(ids)| ==> Ascending(ids)[i] <= Ascending(ids)[j]
  {
    SortDescSorted(ids, Negated);
  }

  /** The ids a topic links to: none without deep links. */
  function TopicIds(t: Topic, linked: bool): (r: Result<seq<int>>)
    ensures !linked ==> r == Ok([])
  {
    if !linked then Ok([])
    else
      var ids :- ParseIds(t.messageIds);
      Ok(Ascending(ids))
  }

  /** The ids of every topic, in topic order. */
  function IdsPerTopic(topics: seq<Topic>, linked: bool): (r: Result<seq<seq<int>>>)
    ensures r.Ok? ==> |r.value| == |topics|
  {
    if topics == [] then Ok([])
    else
      var n := |topics| - 1;
      var pre :- IdsPerTopic(topics[..n], linked);
      var last :- TopicIds(topics[n], linked);
      Ok(pre + [last])
  }

  /** How many ids the topics hold in total. */
  function Count(ids: seq<seq<int>>): nat {
    if ids == [] then 0 else Count(ids[..|ids| - 1]) + |ids[|ids| - 1]|
  }

  /** A message link: the message id and its "msg k" number. */
  datatype Link = Link(messageId: int, number: int)

  /** The links of one topic, numbered on from `first`. */
  function TopicLinks(ids: seq<int>, first: int): (r: seq<Link>)
    ensures |r| == |ids|
    ensures forall k :: 0 <= k < |ids| ==> r[k] == Link(ids[k], first + k)
  {
    seq(|ids|, k requires 0 <= k < |ids| => Link(ids[k], first + k))
  }

  /** The links of every topic, numbered from 1 across all topics. */
  function NumberLinks(ids: seq<seq<int>>): (r: seq<seq<Link>>)
    ensures |r| == |ids|
  {
    if ids == [] then []
    else
      var n := |ids| - 1;
      NumberLinks(ids[..n]) + [TopicLinks(ids[n], 1 + Count(ids[..n]))]
  }

  function RenderLink(deep: string, l: Link): string {
    "<a href='" + deep + "/" + IntToString(l.messageId) + "'>msg " + IntToString(l.number) + "</a>"
  }

  function RenderLinks(deep: string, ls: seq<Link>): (r: seq<string>)
    ensures |r| == |ls|
  {
    seq(|ls|, k requires 0 <= k < |ls| => RenderLink(deep, ls[k]))
  }

  /** `<i>(…)</i>` around the links, or nothing when there are none. */
  function LinkGroup(links: seq<string>): (r: string)
    ensures r == "" <==> |links| == 0
    ensures |links| > 0 ==> r == "<i>(" + Join(links, ", ") + ")</i>"
  {
    if |links| > 0 then "<i>(" + Join(links, ", ") + ")</i>" else ""
  }

  function Spoiler(t: Topic, group: string): string {
    "• <b>" + t.topicName + "</b>: " + t.summary + " " + group
  }

  function Header(buttonLink: string, entityName: Option<string>): string {
    "<a href='" + buttonLink + "'>" + ShowOptional(entityName) + "</a>:\n"
  }

  function Blockquote(spoilers: seq<string>): string {
    "<blockquote expandable><i>Tap here to expand/collapse</i>\n" + Join(spoilers, "\n") + "</blockquote>\n"
  }

  /** What `create_detailed_community_summary_response` returns. */
  function DetailedSummary(topics: seq<Topic>, peer: PeerInfo): Result<string> {
    var deep :- DeepLink(peer);
    // `get_button_link` gives the same link and cannot fail once it has.
    var button := ButtonLink(peer).value;
    var ids :- IdsPerTopic(topics, DeepLinkExists(peer));
    var links := NumberLinks(ids);
    Ok(Header(button, EntityName(peer)) + Blockquote(Spoilers(topics, deep, links)))
  }

  /** One spoiler line per topic, with that topic's links. */
  function Spoilers(topics: seq<Topic>, deep: string, links: seq<seq<Link>>): (r: seq<string>)
    requires |links| == |topics|
    ensures |r| == |topics|
  {
    if topics == [] then []
    else
      var n := |topics| - 1;
      Spoilers(topics[..n], deep, links[..n]) + [TopicSpoiler(topics[n], deep, links[n])]
  }

  function TopicSpoiler(t: Topic, deep: string, links: seq<Link>): string {
    Spoiler(t, LinkGroup(RenderLinks(deep, links)))
  }

  /** Line k of the spoilers is topic k's spoiler, with topic k's links. */
  lemma {:induction false} SpoilerLines(topics: seq<Topic>, deep: string, links: seq<seq<Link>>)
    requires |links| == |topics|
    ensures forall k :: 0 <= k < |topics| ==> Spoilers(topics, deep, links)[k] == TopicSpoiler(topics[k], deep, links[k])
  {
    if topics != [] {
      var n := |topics| - 1;
      SpoilerLines(topics[..n], deep, links[..n]);
      forall k | 0 <= k < n
        ensures Spoilers(topics, deep, links)[k] == TopicSpoiler(topics[k], deep, links[k])
      {
        assert topics[..n][k] == topics[k] && links[..n][k] == links[k];
      }
    }
  }

  /** The inner loop: one hyperlink per id, numbered on from `first`. */
  method RenderTopicLinks(deep: string, ids: seq<int>, first: int) returns (texts: seq<string>, next: int)
    ensures texts == RenderLinks(deep, TopicLinks(ids, first))
    ensures next == first + |ids|
  {
    texts := [];
    next := first;
    var k := 0;
    while k < |ids|
      invariant 0 <= k <= |ids|
      invariant next == first + k
      invariant |texts| == k
      invariant forall j :: 0 <= j < k ==> texts[j] == RenderLink(deep, Link(ids[j], first + j))
    {
      texts := texts + [RenderLink(deep, Link(ids[k], next))];
      next := next + 1;
      k := k + 1;
    }
  }

  method CreateDetailedCommunitySummaryResponse(topics: seq<Topic>, peer: PeerInfo) returns (r: Result<string>)
    ensures r == DetailedSummary(topics, peer)
  {
    var deepLink := DeepLink(peer);
    if deepLink.Err? {
      return Err(deepLink.error);
    }
    var deep := deepLink.value;
    var returnLink := ButtonLink(peer);
    var linked := DeepLinkExists(peer);
    var entityName := EntityName(peer);
    var spoilers := BuildSpoilers(topics, deep, linked);
    if spoilers.Err? {
      return Err(spoilers.error);
    }
    var header := "<a href='" + returnLink.value + "'>" + ShowOptional(entityName) + "</a>:\n";
    var summaryText := "<blockquote expandable><i>Tap here to expand/collapse</i>\n" + Join(spoilers.value, "\n") + "</blockquote>\n";
    r := Ok(header + summaryText);
  }

  /** The loop over the topics, numbering the links with `global_idx`. */
  method BuildSpoilers(topics: seq<Topic>, deep: string, linked: bool) returns (r: Result<seq<string>>)
    ensures r.Ok? <==> IdsPerTopic(topics, linked).Ok?
    ensures r.Err? ==> r.error == IdsPerTopic(topics, linked).error
    ensures r.Ok? ==> r.value == Spoilers(topics, deep, NumberLinks(IdsPerTopic(topics, linked).value))
  {
    var spoilers: seq<string> := [];
    var globalIdx := 1;
    ghost var done: seq<seq<int>> := [];
    var i := 0;
    while i < |topics|
      invariant 0 <= i <= |topics|
      invariant IdsPerTopic(topics[..i], linked) == Ok(done)
      invariant |done| == i && |spoilers| == i
      invariant globalIdx == 1 + Count(done)
      invariant spoilers == Spoilers(topics[..i], deep, NumberLinks(done))
    {
      var line, next := TopicLine(topics[i], deep, linked, globalIdx);
      if line.Err? {
        assert IdsPerTopic(topics, linked) == Err(line.error) by {
          PrefixErrorPropagates(topics, i + 1, linked, line.error);
        }
        return Err(line.error);
      }
      ghost var ids := TopicIds(topics[i], linked).value;
      assert IdsPerTopic(topics[..i + 1], linked) == Ok(done + [ids]) by {
        IdsPerTopicStep(topics, i, linked, done, ids);
      }
      assert spoilers + [line.value] == Spoilers(topics[..i + 1], deep, NumberLinks(done + [ids]))
             && next == 1 + Count(done + [ids]) by {
        SpoilersStep(topics, i, deep, done, ids);
      }
      spoilers := spoilers + [line.value];
      globalIdx := next;
      done := done + [ids];
      i := i + 1;
    }
    WholePrefix(topics);
    r := Ok(spoilers);
  }

  /** One pass of the topic loop: parse and sort the ids (when there are
      deep links), render their links from `first` on, build the line. */
  method TopicLine(topic: Topic, deep: string, linked: bool, first: int) returns (r: Result<string>, next: int)
    ensures r.Ok? <==> TopicIds(topic, linked).Ok?
    ensures r.Err? ==> r.error == TopicIds(topic, linked).error
    ensures r.Ok? ==> r.value == TopicSpoiler(topic, deep, TopicLinks(TopicIds(topic, linked).value, first))
    ensures r.Ok? ==> next == first + |TopicIds(topic, linked).value|
  {
    var messageLinks: seq<string> := [];
    var messageIds: seq<int> := [];
    next := first;
    if linked {
      var parsed := ParseIds(topic.messageIds);
      if parsed.Err? {
        return Err(parsed.error), next;
      }
      messageIds := Ascending(parsed.value);
      messageLinks, next := RenderTopicLinks(deep, messageIds, first);
    }
    assert messageLinks == RenderLinks(deep, TopicLinks(messageIds, first));
    r := Ok(Spoiler(topic, LinkGroup(messageLinks)));
  }

  lemma SpoilersStep(topics: seq<Topic>, i: nat, deep: string, done: seq<seq<int>>, ids: seq<int>)
    requires i < |topics| && |done| == i
    ensures Spoilers(topics[..i + 1], deep, NumberLinks(done + [ids]))
         == Spoilers(topics[..i], deep, NumberLinks(done)) + [TopicSpoiler(topics[i], deep, TopicLinks(ids, 1 + Count(done)))]
  {
    NumberLinksExtend(done, ids);
    PrefixOfPrefix(topics, i);
  }

  lemma IdsPerTopicStep(topics: seq<Topic>, i: nat, linked: bool, done: seq<seq<int>>, ids: seq<int>)
    requires i < |topics|
    requires IdsPerTopic(topics[..i], linked) == Ok(done)
    requires TopicIds(topics[i], linked) == Ok(ids)
    ensures IdsPerTopic(topics[..i + 1], linked) == Ok(done + [ids])
  {
    PrefixOfPrefix(topics, i);
  }

  lemma {:induction false} NumberLinksExtend(done: seq<seq<int>>, ids: seq<int>)
    ensures NumberLinks(done + [ids])[..|done|] == NumberLinks(done)
    ensures NumberLinks(done + [ids])[|done|] == TopicLinks(ids, 1 + Count(done))
    ensures Count(done + [ids]) == Count(done) + |ids|
  {
    assert (done + [ids])[..|done|] == done;
  }

  /** A topic whose ids do not parse makes every longer run of topics fail. */
  lemma PrefixErrorPropagates(topics: seq<Topic>, m: nat, linked: bool, e: Exception)
    requires 0 < m <= |topics|
    requires IdsPerTopic(topics[..m - 1], linked).Ok?
    requires TopicIds(topics[m - 1], linked) == Err(e)
    ensures IdsPerTopic(topics, linked) == Err(e)
  {
    SplitAround(topics, m);
    ErrorAtLast(topics[..m - 1], topics[m - 1], linked, e);
    ErrorPersists(topics[..m], topics[m..], linked, e);
  }

  lemma PrefixOfPrefix<T>(s: seq<T>, i: nat)
    requires i < |s|
    ensures s[..i + 1][..i] == s[..i] && s[..i + 1][i] == s[i]
  {
  }

  lemma WholePrefix<T>(s: seq<T>)
    ensures s[..|s|] == s
  {
  }

  lemma SplitAround<T>(s: seq<T>, m: nat)
    requires 0 < m <= |s|
    ensures s[..m - 1] + [s[m - 1]] == s[..m]
    ensures s[..m] + s[m..] == s
  {
  }

  /** Once a run of topics fails, appending topics keeps the error. */
  lemma {:induction false} ErrorPersists(pre: seq<Topic>, rest: seq<Topic>, linked: bool, e: Exception)
    requires IdsPerTopic(pre, linked) == Err(e)
    ensures IdsPerTopic(pre + rest, linked) == Err(e)
    decreases |rest|
  {
    if rest != [] {
      var n := |rest| - 1;
      ErrorPersists(pre, rest[..n], linked, e);
      assert pre + rest == (pre + rest[..n]) + [rest[n]];
      ErrorInPrefix(pre + rest[..n], rest[n], linked, e);
    } else {
      assert pre + rest == pre;
    }
  }

  lemma ErrorInPrefix(pre: seq<Topic>, last: Topic, linked: bool, e: Exception)
    requires IdsPerTopic(pre, linked) == Err(e)
    ensures IdsPerTopic(pre + [last], linked) == Err(e)
  {
    assert (pre + [last])[..|pre|] == pre;
  }

  lemma ErrorAtLast(pre: seq<Topic>, last: Topic, linked: bool, e: Exception)
    requires IdsPerTopic(pre, linked).Ok?
    requires TopicIds(last, linked) == Err(e)
    ensures IdsPerTopic(pre + [last], linked) == Err(e)
  {
    assert (pre + [last])[..|pre|] == pre;
  }

  // Properties of the summary layout.

  /** The message ids in link order, topic after topic. */
  function LinkIds(links: seq<seq<Link>>): seq<int> {
    if links == [] then []
    else
      var n := |links| - 1;
      LinkIds(links[..n]) + seq(|links[n]|, k requires 0 <= k < |links[n]| => links[n][k].messageId)
  }

  /** The "msg k" numbers in link order, topic after topic. */
  function LinkLabels(links: seq<seq<Link>>): seq<int> {
    if links == [] then []
    else
      var n := |links| - 1;
      LinkLabels(links[..n]) + seq(|links[n]|, k requires 0 <= k < |links[n]| => links[n][k].number)
  }

  /** All ids, topic after topic. */
  function AllIds(ids: seq<seq<int>>): (r: seq<int>)
    ensures |r| == Count(ids)
  {
    if ids == [] then [] else AllIds(ids[..|ids| - 1]) + ids[|ids| - 1]
  }

  /** Labels run "msg 1", "msg 2", ... across all topics in topic order,
      one per message id, and link the ids in that same order. */
  lemma {:induction false} LabelsAreConsecutive(ids: seq<seq<int>>)
    ensures LinkLabels(NumberLinks(ids)) == seq(Count(ids), k => k + 1)
    ensures LinkIds(NumberLinks(ids)) == AllIds(ids)
  {
    if ids != [] {
      var n := |ids| - 1;
      LabelsAreConsecutive(ids[..n]);
      var links := NumberLinks(ids);
      assert links[..n] == NumberLinks(ids[..n]);
      assert links[n] == TopicLinks(ids[n], 1 + Count(ids[..n]));
    }
  }

  /** Each topic's ids are its own ids, parsed and in ascending order. */
  lemma TopicIdsAscending(t: Topic)
    requires TopicIds(t, true).Ok?
    ensures var ids := TopicIds(t, true).value;
      && multiset(ids) == multiset(ParseIds(t.messageIds).value)
      && forall i, j :: 0 <= i < j < |ids| ==> ids[i] <= ids[j]
  {
    AscendingSorted(ParseIds(t.messageIds).value);
  }

  /** Without deep links no topic gets a link group; with them a topic gets
      one iff it has at least one message id. */
  lemma {:induction false} GroupsFollowIds(topics: seq<Topic>, linked: bool)
    requires IdsPerTopic(topics, linked).Ok?
    ensures var ids := IdsPerTopic(topics, linked).value;
      && |ids| == |topics|
      && forall i :: 0 <= i < |topics| ==> |ids[i]| == (if linked then |topics[i].messageIds| else 0)
  {
    if topics != [] {
      var n := |topics| - 1;
      var pre := topics[..n];
      IdsPerTopicSplit(topics, linked);
      GroupsFollowIds(pre, linked);
      TopicIdsLength(topics[n], linked);
      var ids := IdsPerTopic(topics, linked).value;
      forall i | 0 <= i < |topics|
        ensures |ids[i]| == (if linked then |topics[i].messageIds| else 0)
      {
        if i < n {
          assert pre[i] == topics[i];
        }
      }
    }
  }

  /** A successful run of topics is its prefix's ids and then the last
      topic's. */
  lemma IdsPerTopicSplit(topics: seq<Topic>, linked: bool)
    requires topics != [] && IdsPerTopic(topics, linked).Ok?
    ensures IdsPerTopic(topics[..|topics| - 1], linked).Ok?
    ensures TopicIds(topics[|topics| - 1], linked).Ok?
    ensures IdsPerTopic(topics, linked).value
         == IdsPerTopic(topics[..|topics| - 1], linked).value + [TopicIds(topics[|topics| - 1], linked).value]
  {
  }

  /** A topic contributes one id per message id when linked, none otherwise. */
  lemma TopicIdsLength(t: Topic, linked: bool)
    requires TopicIds(t, linked).Ok?
    ensures |TopicIds(t, linked).value| == (if linked then |t.messageIds| else 0)
  {
    if linked {
      var parsed := ParseIds(t.messageIds).value;
      assert |multiset(Ascending(parsed))| == |multiset(parsed)|;
    }
  }

  lemma GroupIffLinked(topics: seq<Topic>, peer: PeerInfo, i: nat)
    requires i < |topics|
    requires IdsPerTopic(topics, DeepLinkExists(peer)).Ok?
    requires DeepLink(peer).Ok?
    ensures var ids := IdsPerTopic(topics, DeepLinkExists(peer)).value;
      LinkGroup(RenderLinks(DeepLink(peer).value, NumberLinks(ids)[i])) != ""
      <==> DeepLinkExists(peer) && |topics[i].messageIds| > 0
  {
    GroupsFollowIds(topics, DeepLinkExists(peer));
    var ids := IdsPerTopic(topics, DeepLinkExists(peer)).value;
    NumberLinksShape(ids, i);
  }

  lemma {:induction false} NumberLinksShape(ids: seq<seq<int>>, i: nat)
    requires i < |ids|
    ensures |NumberLinks(ids)[i]| == |ids[i]|
  {
    var n := |ids| - 1;
    if i < n {
      NumberLinksShape(ids[..n], i);
    }
  }
}
