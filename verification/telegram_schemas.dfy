/** The Telegram-side records of the summariser: the resolved peer a summary
    is produced for (with its deep-link and button helpers) and the
    per-message features, with the engagement score computed from them. */
module TelegramSchemas {
  import opened Wrappers
  import opened Text

  /** pyrogram's `ChatType`. */
  datatype ChatType = Private | Bot | Group | Supergroup | Channel

  predicate IsDirect(t: ChatType) { t == Private || t == Bot }

  predicate IsBroadcastLike(t: ChatType) { t == Channel || t == Supergroup }

  /** `ResolvedPeerInfo` after its "before" validator has run. */
  datatype PeerInfo = PeerInfo(
    peerId: int,
    peerName: string,
    peerUsername: Option<string>,
    peerType: ChatType,
    isPrivate: bool)

  /** Building a `ResolvedPeerInfo`: the validator forces `is_private` for
      direct chats and for peers without a username, and otherwise keeps the
      value given (default False). */
  function MakePeerInfo(id: int, name: string, username: Option<string>, t: ChatType, requestedPrivate: bool): (p: PeerInfo)
    ensures p.peerId == id && p.peerName == name && p.peerUsername == username && p.peerType == t
    ensures IsDirect(t) || username.None? ==> p.isPrivate
    ensures !IsDirect(t) && username.Some? ==> p.isPrivate == requestedPrivate
  {
    PeerInfo(id, name, username, t, requestedPrivate || IsDirect(t) || username.None?)
  }

  /** An f-string interpolation of an optional string. */
  function ShowOptional(o: Option<string>): (s: string)
    ensures o.Some? ==> s == o.value
    ensures o.None? ==> s == "None"
  {
    if o.Some? then o.value else "None"
  }

  function DeepLinkExists(p: PeerInfo): (r: bool)
    ensures r <==> !(p.peerType == Private || p.peerType == Bot)
  {
    !IsDirect(p.peerType)
  }

  /** The numeric part of a private link: for channels and supergroups the
      decimal id with its first three characters dropped and re-parsed (the
      "-100" marker), for other negative ids the absolute value. */
  function PrivateLinkId(p: PeerInfo): (r: Option<int>)
    ensures !IsBroadcastLike(p.peerType) ==> r == Some(if p.peerId < 0 then -p.peerId else p.peerId)
    ensures IsBroadcastLike(p.peerType) ==> r == ParseInt(Drop(IntToString(p.peerId), 3))
  {
    if IsBroadcastLike(p.peerType) then ParseInt(Drop(IntToString(p.peerId), 3))
    else if p.peerId < 0 then Some(-p.peerId)
    else Some(p.peerId)
  }

  /** `get_deep_link`: ValueError when the stripped id is not an integer. */
  function DeepLink(p: PeerInfo): (r: Result<string>)
    ensures !p.isPrivate ==> r == Ok("https://t.me/" + ShowOptional(p.peerUsername))
    ensures p.isPrivate ==> (r.Ok? <==> PrivateLinkId(p).Some?)
    ensures p.isPrivate && r.Ok? ==> r.value == "https://t.me/c/" + IntToString(PrivateLinkId(p).value)
  {
    if p.isPrivate then
      match PrivateLinkId(p)
      case Some(id) => Ok("https://t.me/c/" + IntToString(id))
      case None => Err(ValueError("invalid literal for int()"))
    else Ok("https://t.me/" + ShowOptional(p.peerUsername))
  }

  /** `get_button_link`, a second copy of the same code. */
  function ButtonLink(p: PeerInfo): (r: Result<string>)
    ensures r == DeepLink(p)
  {
    if p.isPrivate then
      match PrivateLinkId(p)
      case Some(id) => Ok("https://t.me/c/" + IntToString(id))
      case None => Err(ValueError("invalid literal for int()"))
    else Ok("https://t.me/" + ShowOptional(p.peerUsername))
  }

  /** `get_button_text`. The "Back to chat" branch needs both name and
      username absent; the name is a required string, so it never fires. */
  function ButtonText(p: PeerInfo): (r: string)
    ensures IsDirect(p.peerType) ==> r == "Back to chat with " + p.peerName
    ensures !IsDirect(p.peerType) ==> r == "Back to " + p.peerName
  {
    if IsDirect(p.peerType) then "Back to chat with " + p.peerName else "Back to " + p.peerName
  }

  /** `get_entity_name`: `peer_name or peer_username`; `None` when the name
      is empty and there is no username. */
  function EntityName(p: PeerInfo): (r: Option<string>)
    ensures p.peerName != "" ==> r == Some(p.peerName)
    ensures p.peerName == "" ==> r == p.peerUsername
  {
    if p.peerName != "" then Some(p.peerName) else p.peerUsername
  }

  function Hyperlink(p: PeerInfo): (r: Result<string>)
    ensures r.Ok? <==> ButtonLink(p).Ok?
    ensures r.Ok? ==> r.value == "<a href='" + ButtonLink(p).value + "'>" + ShowOptional(EntityName(p)) + "</a>"
  {
    var link :- ButtonLink(p);
    Ok("<a href='" + link + "'>" + ShowOptional(EntityName(p)) + "</a>")
  }

  /** A public peer always has a username, so its link names it. */
  lemma PublicPeerLink(id: int, name: string, username: Option<string>, t: ChatType, requested: bool)
    requires !MakePeerInfo(id, name, username, t, requested).isPrivate
    ensures username.Some? && !IsDirect(t)
    ensures DeepLink(MakePeerInfo(id, name, username, t, requested)) == Ok("https://t.me/" + username.value)
  {
  }

  // ---------------------------------------------------------------------
  // Messages

  datatype MediaType = Document | Photo | Video | Audio | OtherMedia(kind: string)

  datatype EntityType = Mention | Url | OtherEntity(kind: string)

  /** The sender fields read from pyrogram's `User`. */
  datatype RawUser = RawUser(
    firstName: Option<string>, username: Option<string>,
    isSelf: bool, isBot: bool, isPremium: bool, isContact: bool)

  datatype WebPage = WebPage(title: Option<string>, description: Option<string>)

  /** The fields read from pyrogram's `Message`; the date as UNIX seconds,
      `reactions` as the counts of its reaction list. */
  datatype RawMessage = RawMessage(
    id: int,
    text: Option<string>,
    fromUser: Option<RawUser>,
    date: int,
    webPage: Option<WebPage>,
    media: Option<MediaType>,
    entities: Option<seq<EntityType>>,
    reactions: Option<seq<int>>)

  /** `ChatMessage`. */
  datatype ChatMessage = ChatMessage(
    messageId: int,
    firstName: Option<string>,
    username: Option<string>,
    text: string,
    timestamp: int,
    linkPreviewTitle: Option<string>,
    linkPreviewDescription: Option<string>,
    isSelf: bool,
    isBot: bool,
    isPremium: bool,
    isContact: bool,
    hasMention: bool,
    hasLink: bool,
    reactionCount: int,
    mediaScore: int)

  function MediaScore(media: Option<MediaType>): (r: int)
    ensures 0 <= r <= 4
    ensures r == 0 <==> media.None? || media.value.OtherMedia?
    ensures media == Some(Document) ==> r == 1
    ensures media == Some(Photo) ==> r == 2
    ensures media == Some(Video) ==> r == 3
    ensures media == Some(Audio) ==> r == 4
  {
    match media
    case Some(Document) => 1
    case Some(Photo) => 2
    case Some(Video) => 3
    case Some(Audio) => 4
    case _ => 0
  }

  predicate HasEntity(entities: Option<seq<EntityType>>, kind: EntityType) {
    entities.Some? && exists i :: 0 <= i < |entities.value| && entities.value[i] == kind
  }

  function Sum(s: seq<int>): int {
    if s == [] then 0 else Sum(s[..|s| - 1]) + s[|s| - 1]
  }

  function ReactionTotal(reactions: Option<seq<int>>): int {
    if reactions.Some? then Sum(reactions.value) else 0
  }

  /** What `extract_chat_message_info` returns. A message without a sender
      fails on the `from_user` dereference and one without text fails
      validation; both are caught and give None. */
  function ChatMessageOf(raw: RawMessage): (r: Option<ChatMessage>)
    ensures r.Some? <==> raw.fromUser.Some? && raw.text.Some?
    ensures r.Some? ==> r.value.messageId == raw.id && r.value.text == raw.text.value && r.value.timestamp == raw.date
    ensures r.Some? ==>
      && r.value.hasMention == HasEntity(raw.entities, Mention)
      && r.value.hasLink == HasEntity(raw.entities, Url)
      && r.value.reactionCount == ReactionTotal(raw.reactions)
      && r.value.mediaScore == MediaScore(raw.media)
    ensures r.Some? ==>
      && r.value.firstName == raw.fromUser.value.firstName && r.value.username == raw.fromUser.value.username
      && r.value.isSelf == raw.fromUser.value.isSelf && r.value.isBot == raw.fromUser.value.isBot
      && r.value.isPremium == raw.fromUser.value.isPremium && r.value.isContact == raw.fromUser.value.isContact
    ensures r.Some? && raw.webPage.Some? ==>
      r.value.linkPreviewTitle == raw.webPage.value.title && r.value.linkPreviewDescription == raw.webPage.value.description
    ensures r.Some? && raw.webPage.None? ==> r.value.linkPreviewTitle.None? && r.value.linkPreviewDescription.None?
  {
    if raw.fromUser.None? || raw.text.None? then None
    else
      var u := raw.fromUser.value;
      Some(ChatMessage(
        raw.id, u.firstName, u.username, raw.text.value, raw.date,
        if raw.webPage.Some? then raw.webPage.value.title else None,
        if raw.webPage.Some? then raw.webPage.value.description else None,
        u.isSelf, u.isBot, u.isPremium, u.isContact,
        HasEntity(raw.entities, Mention), HasEntity(raw.entities, Url),
        ReactionTotal(raw.reactions), MediaScore(raw.media)))
  }

  /** `extract_chat_message_info`, with its loops over entities and reactions. */
  method ExtractChatMessageInfo(raw: RawMessage) returns (r: Option<ChatMessage>)
    ensures r == ChatMessageOf(raw)
  {
    if raw.fromUser.None? || raw.text.None? {
      return None;
    }
    var hasMention, hasLink := false, false;
    if raw.entities.Some? {
      var es := raw.entities.value;
      var i := 0;
      while i < |es|
        invariant 0 <= i <= |es|
        invariant hasMention <==> exists k :: 0 <= k < i && es[k] == Mention
        invariant hasLink <==> exists k :: 0 <= k < i && es[k] == Url
      {
        if es[i] == Mention { hasMention := true; }
        if es[i] == Url { hasLink := true; }
        i := i + 1;
      }
    }
    var reactionCount := 0;
    if raw.reactions.Some? {
      var rs := raw.reactions.value;
      var i := 0;
      while i < |rs|
        invariant 0 <= i <= |rs|
        invariant reactionCount == Sum(rs[..i])
      {
        assert rs[..i + 1][..i] == rs[..i];
        reactionCount := reactionCount + rs[i];
        i := i + 1;
      }
      assert rs[..|rs|] == rs;
    }
    var u := raw.fromUser.value;
    r := Some(ChatMessage(
      raw.id, u.firstName, u.username, raw.text.value, raw.date,
      if raw.webPage.Some? then raw.webPage.value.title else None,
      if raw.webPage.Some? then raw.webPage.value.description else None,
      u.isSelf, u.isBot, u.isPremium, u.isContact,
      hasMention, hasLink, reactionCount, MediaScore(raw.media)));
  }

  // ---------------------------------------------------------------------
  // Engagement score

  /** `np.log1p` on a length and the reaction sigmoid
      `1 / (1 + exp(-(count - 1) / 2))`, kept abstract. */
  datatype Numerics = Numerics(log1p: nat -> real, reactionSigmoid: int -> real)

  /** The ranges the two functions have. */
  ghost predicate ValidNumerics(num: Numerics) {
    (forall n: nat :: 0.0 <= num.log1p(n)) &&
    (forall c: int :: 0.0 <= num.reactionSigmoid(c) <= 1.0)
  }

  /** Length of a truthy optional string, 0 otherwise. */
  function OptionalLength(o: Option<string>): nat {
    if o.Some? then |o.value| else 0
  }

  function CombinedLength(m: ChatMessage): nat {
    |m.text| + OptionalLength(m.linkPreviewTitle) + OptionalLength(m.linkPreviewDescription)
  }

  function LengthScore(m: ChatMessage, num: Numerics): (r: real)
    ensures CombinedLength(m) < 20 ==> r == 0.1
    ensures CombinedLength(m) >= 20 ==> r <= 1.0
  {
    var n := CombinedLength(m);
    if n < 20 then 0.1
    else if num.log1p(n) / 5.0 < 1.0 then num.log1p(n) / 5.0
    else 1.0
  }

  function Flag(b: bool): real { if b then 1.0 else 0.0 }

  /** The weighted sum before normalisation. */
  function RawScore(m: ChatMessage, num: Numerics): real {
    0.3 * LengthScore(m, num)
    - 5.0 * Flag(m.isSelf)
    - 3.0 * Flag(m.isBot)
    + 1.0 * num.reactionSigmoid(m.reactionCount)
    + 0.2 * Flag(m.isPremium)
    + 0.1 * Flag(m.isContact)
    + 0.1 * Flag(m.hasMention)
    + 0.4 * Flag(m.hasLink)
    + 0.5 * (m.mediaScore as real)
  }

  function Clip(x: real, lo: real, hi: real): (r: real)
    requires lo <= hi
    ensures lo <= r <= hi
    ensures lo <= x <= hi ==> r == x
  {
    if x < lo then lo else if x > hi then hi else x
  }

  /** `engagement_score`: the raw sum mapped by (s + 5) / 8 and clipped. */
  function EngagementScore(m: ChatMessage, num: Numerics): (r: real)
    ensures 0.0 <= r <= 1.0
  {
    Clip((RawScore(m, num) + 5.0) / 8.0, 0.0, 1.0)
  }

  /** A message shorter than 20 characters scores the same whatever `log1p` is. */
  lemma ShortMessageIgnoresLength(m: ChatMessage, num1: Numerics, num2: Numerics)
    requires CombinedLength(m) < 20
    requires num1.reactionSigmoid == num2.reactionSigmoid
    ensures EngagementScore(m, num1) == EngagementScore(m, num2)
  {
  }

  /** Setting `is_self` never raises the score. */
  lemma SelfPenaltyNeverRaises(m: ChatMessage, num: Numerics)
    ensures EngagementScore(m.(isSelf := true), num) <= EngagementScore(m.(isSelf := false), num)
  {
    var on, off := m.(isSelf := true), m.(isSelf := false);
    assert LengthScore(on, num) == LengthScore(off, num);
    PenaltyLowersScore(RawScore(on, num), RawScore(off, num));
  }

  /** Setting `is_bot` never raises the score. */
  lemma BotPenaltyNeverRaises(m: ChatMessage, num: Numerics)
    ensures EngagementScore(m.(isBot := true), num) <= EngagementScore(m.(isBot := false), num)
  {
    var on, off := m.(isBot := true), m.(isBot := false);
    assert LengthScore(on, num) == LengthScore(off, num);
    PenaltyLowersScore(RawScore(on, num), RawScore(off, num));
  }

  /** A lower raw sum never gives a higher clipped score. */
  lemma PenaltyLowersScore(lower: real, higher: real)
    requires lower <= higher
    ensures Clip((lower + 5.0) / 8.0, 0.0, 1.0) <= Clip((higher + 5.0) / 8.0, 0.0, 1.0)
  {
  }

  /** With the numerics in range and a media score from extraction, a
      self-sent message always scores strictly lower than the same message
      from someone else. */
  lemma {:induction false} SelfPenaltyIsStrict(m: ChatMessage, num: Numerics)
    requires ValidNumerics(num)
    requires 0 <= m.mediaScore <= 4
    ensures EngagementScore(m.(isSelf := true), num) < EngagementScore(m.(isSelf := false), num)
  {
    var on, off := m.(isSelf := true), m.(isSelf := false);
    assert LengthScore(on, num) == LengthScore(off, num);
    assert 0.0 <= num.log1p(CombinedLength(off));
    assert 0.0 <= num.reactionSigmoid(off.reactionCount) <= 1.0;
    RawScoreBounds(off, num);
    StrictPenaltyLowersScore(RawScore(on, num), RawScore(off, num));
  }

  /** Five points off a raw sum in [-3, 4.1] lower the clipped score. */
  lemma StrictPenaltyLowersScore(lower: real, higher: real)
    requires lower == higher - 5.0 && -3.0 <= higher <= 4.1
    ensures Clip((lower + 5.0) / 8.0, 0.0, 1.0) < Clip((higher + 5.0) / 8.0, 0.0, 1.0)
  {
  }

  /** The raw score of a message nobody penalised for being self-sent
      lies in [-3, 4.1], which keeps it clear of both clipping bounds
      after the self penalty. */
  lemma RawScoreBounds(m: ChatMessage, num: Numerics)
    requires !m.isSelf && 0 <= m.mediaScore <= 4
    requires 0.0 <= num.log1p(CombinedLength(m))
    requires 0.0 <= num.reactionSigmoid(m.reactionCount) <= 1.0
    ensures -3.0 <= RawScore(m, num) <= 4.1
  {
    assert 0.0 <= LengthScore(m, num) <= 1.0;
  }
}
