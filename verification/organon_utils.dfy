/** Global identifiers: a platform's database value, then the
    platform-specific ids, joined by "_". A decoder reads them back. */
module OrganonUtils {
  import opened Wrappers
  import opened Text
  import N = OrganonNodes

  /** The `platform` argument: a `PlatformType` member, or any other value
      (an `int` is not a member, although the enumeration subclasses
      `int`). */
  datatype PlatformArg = Member(p: N.Platform) | NotMember(v: N.PyValue)

  /** `str(v)`, which is also what an f-string field shows. */
  function Str(v: N.PyValue): string {
    match v
    case PyInt(i) => IntToString(i)
    case PyBool(b) => N.BoolText(b)
    case PyStr(s) => s
    case PyNone => "None"
  }

  /** The text of `platform.value`: a single digit from 1 to 4. */
  function PlatformDigit(p: N.Platform): (d: string)
    ensures |d| == 1 && '1' <= d[0] <= '4'
  {
    match p
    case Global => "1"
    case Telegram => "2"
    case Discord => "3"
    case Twitter => "4"
  }

  const InvalidPlatform: Exception := ValueError("Platform must be a valid PlatformType")

  /** `generate_global_message_id`. */
  function GlobalMessageId(platform: PlatformArg, chatId: N.PyValue, messageId: N.PyValue): (r: Result<string>)
    ensures r.Err? <==> platform.NotMember?
    ensures r.Err? ==> r.error == InvalidPlatform
    ensures r.Ok? ==> StartsWith(r.value, PlatformDigit(platform.p) + "_")
  {
    if platform.NotMember? then Err(InvalidPlatform)
    else Ok(PlatformDigit(platform.p) + "_" + Str(chatId) + "_" + Str(messageId))
  }

  /** `generate_global_cluster_id`. Its body in the source is a copy of
      `generate_global_message_id`'s, with the room and cluster ids in
      place of the chat and message ids, so the model calls that one. */
  function GlobalClusterId(platform: PlatformArg, roomId: N.PyValue, clusterId: N.PyValue): (r: Result<string>)
    ensures r.Err? <==> platform.NotMember?
    ensures r.Err? ==> r.error == InvalidPlatform
    ensures r.Ok? ==> StartsWith(r.value, PlatformDigit(platform.p) + "_")
  {
    GlobalMessageId(platform, roomId, clusterId)
  }

  /** `generate_global_user_id`. A non-`int` id is passed through `str`
      first, which for these values cannot raise, so both branches format
      `str(user_id)`. */
  function GlobalUserId(platform: PlatformArg, userId: N.PyValue): (r: Result<string>)
    ensures r.Err? <==> platform.NotMember?
    ensures r.Err? ==> r.error == InvalidPlatform
    ensures r.Ok? ==> StartsWith(r.value, PlatformDigit(platform.p) + "_")
  {
    if platform.NotMember? then Err(InvalidPlatform)
    else
      var shown := if userId.PyInt? || userId.PyBool? then Str(userId) else Str(N.PyStr(Str(userId)));
      Ok(PlatformDigit(platform.p) + "_" + shown)
  }

  // ---------------------------------------------------------------------
  // Reading ids back.

  /** The platform whose value is the digit `c`. */
  function PlatformOfDigit(c: char): (r: Option<N.Platform>)
    ensures r.Some? ==> PlatformDigit(r.value) == [c]
  {
    if c == '1' then Some(N.Global)
    else if c == '2' then Some(N.Telegram)
    else if c == '3' then Some(N.Discord)
    else if c == '4' then Some(N.Twitter)
    else None
  }

  /** The text before and after the first `c`, if there is one. */
  function SplitAtFirst(s: string, c: char): (r: Option<(string, string)>)
    ensures r.Some? ==> s == r.value.0 + [c] + r.value.1 && c !in r.value.0
    ensures r.None? ==> c !in s
  {
    if s == [] then None
    else if s[0] == c then Some(([], s[1..]))
    else
      match SplitAtFirst(s[1..], c)
      case None => None
      case Some((a, b)) =>
        assert s == [s[0]] + s[1..];
        Some(([s[0]] + a, b))
  }

  /** Reads "{platform}_{rest}". */
  function DecodeUserId(id: string): (r: Option<(N.Platform, string)>)
    ensures r.Some? ==> id == PlatformDigit(r.value.0) + "_" + r.value.1
  {
    if |id| >= 2 && id[1] == '_' && PlatformOfDigit(id[0]).Some? then
      assert id == [id[0]] + "_" + id[2..];
      Some((PlatformOfDigit(id[0]).value, id[2..]))
    else None
  }

  /** Reads "{platform}_{first}_{second}", splitting at the first "_"
      after the platform. */
  function DecodePairId(id: string): (r: Option<(N.Platform, string, string)>)
    ensures r.Some? ==> id == PlatformDigit(r.value.0) + "_" + r.value.1 + "_" + r.value.2
    ensures r.Some? ==> '_' !in r.value.1
  {
    match DecodeUserId(id)
    case None => None
    case Some((p, rest)) =>
      match SplitAtFirst(rest, '_')
      case None => None
      case Some((a, b)) => Some((p, a, b))
  }

  // ---------------------------------------------------------------------
  // Properties.

  lemma {:induction false} SplitAtFirstOf(a: string, b: string, c: char)
    requires c !in a
    ensures SplitAtFirst(a + [c] + b, c) == Some((a, b))
  {
    var s := a + [c] + b;
    if a != [] {
      assert s[1..] == a[1..] + [c] + b;
      SplitAtFirstOf(a[1..], b, c);
      assert [a[0]] + a[1..] == a;
    } else {
      assert s[1..] == b;
    }
  }

  /** A decimal integer holds no "_". */
  lemma IntTextHasNoUnderscore(i: int)
    ensures '_' !in IntToString(i)
  {
    if i < 0 {
      assert IntToString(i)[1..] == NatToString(-i);
    }
  }

  /** The user id decodes back to its platform and to `str(user_id)`. */
  lemma UserIdRoundTrip(p: N.Platform, userId: N.PyValue)
    ensures GlobalUserId(Member(p), userId).Ok?
    ensures DecodeUserId(GlobalUserId(Member(p), userId).value) == Some((p, Str(userId)))
  {
    var id := GlobalUserId(Member(p), userId).value;
    assert id[2..] == Str(userId);
  }

  /** A message id decodes back to its parts whenever the chat id holds no
      "_" (always so for an integer chat id). */
  lemma MessageIdRoundTrip(p: N.Platform, chatId: N.PyValue, messageId: N.PyValue)
    requires '_' !in Str(chatId)
    ensures GlobalMessageId(Member(p), chatId, messageId).Ok?
    ensures DecodePairId(GlobalMessageId(Member(p), chatId, messageId).value) == Some((p, Str(chatId), Str(messageId)))
  {
    var id := GlobalMessageId(Member(p), chatId, messageId).value;
    var rest := Str(chatId) + "_" + Str(messageId);
    assert id == PlatformDigit(p) + "_" + rest;
    assert id[2..] == rest;
    SplitAtFirstOf(Str(chatId), Str(messageId), '_');
  }

  /** The same for cluster ids, whose shape is the message id's. */
  lemma ClusterIdRoundTrip(p: N.Platform, roomId: N.PyValue, clusterId: N.PyValue)
    requires '_' !in Str(roomId)
    ensures GlobalClusterId(Member(p), roomId, clusterId).Ok?
    ensures DecodePairId(GlobalClusterId(Member(p), roomId, clusterId).value) == Some((p, Str(roomId), Str(clusterId)))
  {
    MessageIdRoundTrip(p, roomId, clusterId);
  }

  /** Integer chat ids always satisfy the round trip's condition. */
  lemma IntChatIdRoundTrip(p: N.Platform, chatId: int, messageId: N.PyValue)
    ensures DecodePairId(GlobalMessageId(Member(p), N.PyInt(chatId), messageId).value)
            == Some((p, IntToString(chatId), Str(messageId)))
  {
    IntTextHasNoUnderscore(chatId);
    MessageIdRoundTrip(p, N.PyInt(chatId), messageId);
  }

  /** Ids are unique per platform: the first character is the platform's
      digit, so ids of different platforms never coincide. */
  lemma PlatformsSeparateIds(p: N.Platform, q: N.Platform, a: N.PyValue, b: N.PyValue, c: N.PyValue, d: N.PyValue)
    requires p != q
    ensures GlobalMessageId(Member(p), a, b) != GlobalMessageId(Member(q), c, d)
    ensures GlobalUserId(Member(p), a) != GlobalUserId(Member(q), c)
  {
    assert GlobalMessageId(Member(p), a, b).value[0] == PlatformDigit(p)[0];
    assert GlobalMessageId(Member(q), c, d).value[0] == PlatformDigit(q)[0];
    assert GlobalUserId(Member(p), a).value[0] == PlatformDigit(p)[0];
    assert GlobalUserId(Member(q), c).value[0] == PlatformDigit(q)[0];
  }

  /** Without that condition two different messages can share an id: the
      chat "a_b" with message "c" and the chat "a" with message "b_c". A
      message and a cluster with the same parts share one as well. */
  lemma IdsCanCollide(p: N.Platform)
    ensures GlobalMessageId(Member(p), N.PyStr("a_b"), N.PyStr("c"))
         == GlobalMessageId(Member(p), N.PyStr("a"), N.PyStr("b_c"))
    ensures forall a, b :: GlobalMessageId(Member(p), a, b) == GlobalClusterId(Member(p), a, b)
  {
    var d := PlatformDigit(p) + "_";
    assert d + "a_b" + "_" + "c" == d + "a" + "_" + "b_c";
  }

  /** An integer message id and its decimal text give the same id, and a
      platform given as its bare integer value is rejected. */
  lemma IntegersAsText(p: N.Platform, chatId: N.PyValue, m: int)
    ensures GlobalMessageId(Member(p), chatId, N.PyInt(m)) == GlobalMessageId(Member(p), chatId, N.PyStr(IntToString(m)))
    ensures GlobalUserId(Member(p), N.PyInt(m)) == GlobalUserId(Member(p), N.PyStr(IntToString(m)))
    ensures GlobalUserId(NotMember(N.PyInt(p.Value())), N.PyInt(m)) == Err(InvalidPlatform)
  {
  }
}
