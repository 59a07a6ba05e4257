/** Collecting a peer's recent history for a summary, and resolving the peer
    the summary is about. The history is the sequence the Telegram client
    yields, newest first; the clock is a parameter. */
module ChatFunctions {
  import opened Wrappers
  import opened Text
  import opened TelegramSchemas

  /** `chunk_size`: how many history entries are requested. */
  const ChunkSize: nat := 1000
  /** `min_counter`: the time cut-off applies only after this many messages. */
  const MinCounter: nat := 100

  // ---------------------------------------------------------------------
  // resolve_peer_id_for_summary

  /** The fields read from pyrogram's `Chat`. */
  datatype RawChat = RawChat(
    id: int,
    chatType: ChatType,
    title: Option<string>,
    firstName: Option<string>,
    usernames: Option<seq<string>>,
    username: Option<string>)

  /** The first of `usernames`, else `username`, else None. */
  function SummaryUsername(c: RawChat): (r: Option<string>)
    ensures c.usernames.Some? && |c.usernames.value| > 0 ==> r == Some(c.usernames.value[0])
    ensures (c.usernames.None? || |c.usernames.value| == 0) ==> r == c.username
  {
    if c.usernames.Some? && |c.usernames.value| > 0 then Some(c.usernames.value[0])
    else c.username
  }

  /** `title or first_name`: the title unless it is None or empty. */
  function SummaryName(c: RawChat): (r: Option<string>)
    ensures c.title.Some? && c.title.value != "" ==> r == c.title
    ensures c.title.None? || c.title.value == "" ==> r == c.firstName
  {
    if c.title.Some? && c.title.value != "" then c.title else c.firstName
  }

  /** `resolve_peer_id_for_summary`: building `ResolvedPeerInfo` fails
      validation when neither a title nor a first name is there. */
  function ResolvePeerIdForSummary(c: RawChat): (r: Result<PeerInfo>)
    ensures r.Err? <==> SummaryName(c).None?
    ensures r.Err? ==> r.error == ValidationError("peer_name")
    ensures r.Ok? ==> r.value == MakePeerInfo(c.id, SummaryName(c).value, SummaryUsername(c), c.chatType, false)
  {
    match SummaryName(c)
    case None => Err(ValidationError("peer_name"))
    case Some(name) => Ok(MakePeerInfo(c.id, name, SummaryUsername(c), c.chatType, false))
  }

  /** A resolved peer without any username is marked private, so its link is
      the numeric one. */
  lemma NoUsernameIsPrivate(c: RawChat)
    requires ResolvePeerIdForSummary(c).Ok?
    requires (c.usernames.None? || |c.usernames.value| == 0) && c.username.None?
    ensures ResolvePeerIdForSummary(c).value.isPrivate
    ensures ResolvePeerIdForSummary(c).value.peerUsername.None?
  {
  }

  // ---------------------------------------------------------------------
  // Collecting history

  /** What one history entry contributes: nothing when it has no text or
      its extraction gives None, else the extracted message. */
  function Eligible(raw: RawMessage): (r: seq<ChatMessage>)
    ensures |r| <= 1
    ensures |r| == 1 <==> raw.text.Some? && raw.fromUser.Some?
    ensures |r| == 1 ==> Some(r[0]) == ChatMessageOf(raw)
  {
    if raw.text.None? then []
    else match ChatMessageOf(raw)
      case None => []
      case Some(m) => [m]
  }

  /** Every eligible entry of `w`, in history order. */
  function AllEligible(w: seq<RawMessage>): seq<ChatMessage> {
    if w == [] then [] else Eligible(w[0]) + AllEligible(w[1..])
  }

  /** The first `n` entries of the history (pyrogram's `limit`). */
  function Window(history: seq<RawMessage>, n: nat): (w: seq<RawMessage>)
    ensures |w| <= n && w <= history
    ensures |history| <= n ==> w == history
  {
    Take(history, n)
  }

  /** The collection loop of `fetch_messages_from_last_x_hours` from the
      point where `acc` has been collected: it stops at the first entry
      older than `cutoff` once more than `MinCounter` messages are held. */
  function Collect(w: seq<RawMessage>, cutoff: int, acc: seq<ChatMessage>): seq<ChatMessage>
    decreases |w|
  {
    if w == [] then acc
    else if w[0].date < cutoff && |acc| > MinCounter then acc
    else Collect(w[1..], cutoff, acc + Eligible(w[0]))
  }

  /** What `fetch_messages_from_last_x_hours` returns at time `now`. */
  function LastHours(history: seq<RawMessage>, now: int, hours: int): seq<ChatMessage> {
    Collect(Window(history, ChunkSize), now - hours * 3600, [])
  }

  method FetchMessagesFromLastXHours(history: seq<RawMessage>, now: int, hours: int)
    returns (messages: seq<ChatMessage>)
    ensures messages == LastHours(history, now, hours)
  {
    var w := Window(history, ChunkSize);
    var cutoff := now - hours * 3600;
    messages := [];
    var counter := 0;
    var i := 0;
    while i < |w|
      invariant 0 <= i <= |w|
      invariant counter == |messages|
      invariant Collect(w, cutoff, []) == Collect(w[i..], cutoff, messages)
    {
      assert w[i..][0] == w[i] && w[i..][1..] == w[i + 1..];
      if w[i].date < cutoff && counter > MinCounter {
        break;
      }
      ghost var before := messages;
      if w[i].text.Some? {
        var m := ExtractChatMessageInfo(w[i]);
        if m.Some? {
          messages := messages + [m.value];
          counter := counter + 1;
        }
      }
      assert messages == before + Eligible(w[i]);
      i := i + 1;
    }
  }

  /** What `fetch_last_x_messages_from_peer` returns; a limit of 0 asks
      pyrogram for the whole history. */
  function LastMessages(history: seq<RawMessage>, limit: nat): seq<ChatMessage> {
    AllEligible(if limit == 0 then history else Window(history, limit))
  }

  lemma AllEligibleStep(w: seq<RawMessage>, i: nat)
    requires i < |w|
    ensures AllEligible(w[i..]) == Eligible(w[i]) + AllEligible(w[i + 1..])
  {
    assert w[i..][0] == w[i] && w[i..][1..] == w[i + 1..];
  }

  lemma ConcatAssoc(a: seq<ChatMessage>, b: seq<ChatMessage>, c: seq<ChatMessage>)
    ensures a + (b + c) == (a + b) + c
  {
  }

  method FetchLastXMessagesFromPeer(history: seq<RawMessage>, limit: nat)
    returns (messages: seq<ChatMessage>)
    ensures messages == LastMessages(history, limit)
  {
    var w := if limit == 0 then history else Window(history, limit);
    messages := [];
    var i := 0;
    while i < |w|
      invariant 0 <= i <= |w|
      invariant messages + AllEligible(w[i..]) == AllEligible(w)
    {
      ghost var before := messages;
      if w[i].text.Some? {
        var m := ExtractChatMessageInfo(w[i]);
        if m.Some? {
          messages := messages + [m.value];
        }
      }
      assert messages == before + Eligible(w[i]);
      assert messages + AllEligible(w[i + 1..]) == AllEligible(w) by {
        AllEligibleStep(w, i);
        ConcatAssoc(before, Eligible(w[i]), AllEligible(w[i + 1..]));
      }
      i := i + 1;
    }
    assert messages == AllEligible(w) by {
      assert w[i..] == [];
      assert messages + [] == messages;
    }
  }

  // Properties of the collection rule.

  /** The collected messages are a prefix of the eligible ones, in history
      order; when the walk stops early it already holds more than
      `MinCounter`; with no entry older than the cut-off, nothing is cut. */
  lemma {:induction false} CollectIsPrefix(w: seq<RawMessage>, cutoff: int, acc: seq<ChatMessage>)
    ensures Collect(w, cutoff, acc) <= acc + AllEligible(w)
    ensures |Collect(w, cutoff, acc)| < |acc + AllEligible(w)| ==> |Collect(w, cutoff, acc)| > MinCounter
    ensures (forall i :: 0 <= i < |w| ==> w[i].date >= cutoff) ==> Collect(w, cutoff, acc) == acc + AllEligible(w)
    decreases |w|
  {
    if w == [] {
      assert acc + [] == acc;
    } else if w[0].date < cutoff && |acc| > MinCounter {
    } else {
      CollectIsPrefix(w[1..], cutoff, acc + Eligible(w[0]));
      ConcatAssoc(acc, Eligible(w[0]), AllEligible(w[1..]));
      if forall i :: 0 <= i < |w| ==> w[i].date >= cutoff {
        DatesInTail(w, cutoff);
      }
    }
  }

  lemma DatesInTail(w: seq<RawMessage>, cutoff: int)
    requires |w| > 0 && forall i :: 0 <= i < |w| ==> w[i].date >= cutoff
    ensures forall i :: 0 <= i < |w[1..]| ==> w[1..][i].date >= cutoff
  {
    forall i | 0 <= i < |w[1..]| ensures w[1..][i].date >= cutoff {
      assert w[1..][i] == w[i + 1];
    }
  }

  /** With at least 101 eligible entries in the window, at least 101
      messages come back. */
  lemma EnoughEligibleEnoughCollected(history: seq<RawMessage>, now: int, hours: int)
    requires |AllEligible(Window(history, ChunkSize))| > MinCounter
    ensures |LastHours(history, now, hours)| > MinCounter
  {
    var w := Window(history, ChunkSize);
    CollectIsPrefix(w, now - hours * 3600, []);
    assert [] + AllEligible(w) == AllEligible(w);
  }

  /** `fetch_last_x_messages_from_peer` applies the same filter as the
      time-bounded fetch, without a cut-off: with the same window and no
      entry older than the cut-off both return the same messages. */
  lemma SameFilterWithoutCutoff(history: seq<RawMessage>, now: int, hours: int)
    requires forall i :: 0 <= i < |Window(history, ChunkSize)| ==> Window(history, ChunkSize)[i].date >= now - hours * 3600
    ensures LastHours(history, now, hours) == LastMessages(history, ChunkSize)
  {
    var w := Window(history, ChunkSize);
    CollectIsPrefix(w, now - hours * 3600, []);
    assert [] + AllEligible(w) == AllEligible(w);
  }

  /** Every collected message is the extraction of an entry with text. */
  lemma {:induction false} EligibleMembers(w: seq<RawMessage>, m: ChatMessage)
    requires m in AllEligible(w)
    ensures exists i :: 0 <= i < |w| && w[i].text.Some? && ChatMessageOf(w[i]) == Some(m)
    decreases |w|
  {
    if m in Eligible(w[0]) {
      assert w[0].text.Some? && ChatMessageOf(w[0]) == Some(m);
    } else {
      EligibleMembers(w[1..], m);
      var i :| 0 <= i < |w[1..]| && w[1..][i].text.Some? && ChatMessageOf(w[1..][i]) == Some(m);
      assert w[i + 1] == w[1..][i];
    }
  }
}
