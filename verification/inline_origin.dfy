/** Finding the chat an inline query came from: the bot's account scans its
    own drafts for a recent one that starts with the bot's username. The
    draft list and the clock are parameters; each retry's outcome is an
    input. */
module InlineOrigin {
  import opened Wrappers
  import opened Text
  import opened TelegramSchemas

  /** The raw MTProto peers. */
  datatype Peer =
    | PeerUser(userId: int)
    | PeerChat(chatId: int)
    | PeerChannel(channelId: int)
    | OtherPeer

  /** `_extract_peer_id`. A channel id is spelled after "-100" and read
      back with `int()`, which raises for a negative channel id. */
  function ExtractPeerId(p: Peer): (r: Result<Option<int>>)
    ensures p.PeerUser? ==> r == Ok(Some(p.userId))
    ensures p.PeerChat? ==> r == Ok(Some(-p.chatId))
    ensures p.OtherPeer? ==> r == Ok(None)
    ensures p.PeerChannel? ==> (r.Ok? <==> ParseInt("-100" + IntToString(p.channelId)).Some?)
  {
    match p
    case PeerUser(u) => Ok(Some(u))
    case PeerChat(c) => Ok(Some(-c))
    case PeerChannel(c) =>
      (match ParseInt("-100" + IntToString(c))
       case Some(v) => Ok(Some(v))
       case None => Err(ValueError("invalid literal for int() with base 10")))
    case OtherPeer => Ok(None)
  }

  /** The digits "100" followed by those of c. */
  function ChannelDigits(c: nat): (body: string)
    ensures |body| > 0 && body[0] == '1'
    ensures forall i :: 0 <= i < |body| ==> IsDigit(body[i])
  {
    "100" + NatToString(c)
  }

  lemma ChannelIdValue(c: nat)
    ensures ExtractPeerId(PeerChannel(c)) == Ok(Some(0 - DigitsValue(ChannelDigits(c)) as int))
    ensures DigitsValue(ChannelDigits(c)) > 0
  {
    var body := ChannelDigits(c);
    assert "-100" + IntToString(c) == "-" + body;
    DigitsValuePositive(body);
    assert ("-" + body)[1..] == body;
    StripUnchanged("-" + body);
  }

  lemma ReadAfterMarker(c: nat)
    ensures ParseInt("0" + NatToString(c)) == Some(c)
  {
    var ds := NatToString(c);
    var rest := "0" + ds;
    DigitsValueConcat("0", ds);
    assert DigitsValue("0") == 0 by {
      assert ("0")[..0] == "";
    }
    NatToStringValue(c);
    assert forall i :: 0 <= i < |rest| ==> IsDigit(rest[i]);
    StripUnchanged(rest);
  }

  /** For every channel id c >= 0 the "-100" encoding is read back to c by
      the strip that `get_deep_link` performs: `int(str(id)[3:]) == c`. */
  lemma ChannelIdRoundTrip(c: nat)
    ensures ExtractPeerId(PeerChannel(c)).Ok?
    ensures ExtractPeerId(PeerChannel(c)).value.Some?
    ensures ExtractPeerId(PeerChannel(c)).value.value < 0
    ensures ParseInt(Drop(IntToString(ExtractPeerId(PeerChannel(c)).value.value), 3)) == Some(c)
  {
    ChannelIdValue(c);
    StripMarker(c);
    ReadAfterMarker(c);
  }

  lemma StripMarker(c: nat)
    ensures Drop(IntToString(0 - DigitsValue(ChannelDigits(c))), 3) == "0" + NatToString(c)
  {
    NegatedSpelling(ChannelDigits(c));
    DropMarker(NatToString(c));
  }

  /** A negated value is spelled as a minus sign and its digits. */
  lemma {:induction false} NegatedSpelling(body: string)
    requires |body| > 0 && body[0] != '0'
    requires forall i :: 0 <= i < |body| ==> IsDigit(body[i])
    ensures IntToString(0 - DigitsValue(body)) == "-" + body
  {
    var v := DigitsValue(body);
    assert v > 0 by {
      DigitsValuePositive(body);
    }
    assert NatToString(v) == body by {
      NatToStringCanonical(body);
    }
    NegativeSpelling(v, body);
  }

  lemma NegativeSpelling(n: int, body: string)
    requires n > 0 && NatToString(n) == body
    ensures IntToString(0 - n) == "-" + body
  {
  }

  lemma DropMarker(t: string)
    ensures Drop("-" + ("100" + t), 3) == "0" + t
  {
    assert ("-" + ("100" + t))[3..] == "0" + t;
  }

  /** The id found for a channel draft gives that channel's private link. */
  lemma ChannelDeepLink(c: nat, name: string, t: ChatType)
    requires IsBroadcastLike(t)
    ensures ExtractPeerId(PeerChannel(c)).Ok? && ExtractPeerId(PeerChannel(c)).value.Some?
    ensures DeepLink(MakePeerInfo(ExtractPeerId(PeerChannel(c)).value.value, name, None, t, false))
            == Ok("https://t.me/c/" + IntToString(c))
  {
    ChannelIdRoundTrip(c);
  }

  // ---------------------------------------------------------------------
  // fetch_recent_draft_athena_mentions

  /** A draft: a saved message, or the empty draft, whose date may be unset. */
  datatype Draft =
    | DraftMessage(date: int, message: string)
    | DraftMessageEmpty(emptyDate: Option<int>)

  datatype Update =
    | UpdateDraftMessage(peer: Peer, draft: Draft)
    | OtherUpdate

  /** `update.draft.date > time_limit`: comparing an unset date raises. */
  function IsFresh(d: Draft, timeLimit: real): Result<bool> {
    match d
    case DraftMessage(date, _) => Ok(date as real > timeLimit)
    case DraftMessageEmpty(Some(date)) => Ok(date as real > timeLimit)
    case DraftMessageEmpty(None) => Err(TypeError)
  }

  /** The scan from update `us[0]` on; an error ends it. */
  function ScanDrafts(us: seq<Update>, username: string, timeLimit: real): Result<Option<int>>
    decreases |us|
  {
    if us == [] then Ok(None)
    else if us[0].OtherUpdate? then ScanDrafts(us[1..], username, timeLimit)
    else
      var recent :- IsFresh(us[0].draft, timeLimit);
      if !recent then ScanDrafts(us[1..], username, timeLimit)
      else
        var id :- ExtractPeerId(us[0].peer);
        if id.None? || id.value == 0 then ScanDrafts(us[1..], username, timeLimit)
        else if us[0].draft.DraftMessageEmpty? then Err(AttributeError)
        else if StartsWith(Lower(us[0].draft.message), username) then Ok(id)
        else ScanDrafts(us[1..], username, timeLimit)
  }

  /** What `fetch_recent_draft_athena_mentions` returns at time `now`: any
      exception is logged and gives None. */
  function RecentDraftMention(us: seq<Update>, username: string, withinMinutes: int, now: real): Option<int> {
    match ScanDrafts(us, username, now - (withinMinutes * 60) as real)
    case Ok(id) => id
    case Err(_) => None
  }

  method FetchRecentDraftAthenaMentions(us: seq<Update>, username: string, withinMinutes: int, now: real)
    returns (r: Option<int>)
    ensures r == RecentDraftMention(us, username, withinMinutes, now)
  {
    var timeLimit := now - (withinMinutes * 60) as real;
    var i := 0;
    while i < |us|
      invariant 0 <= i <= |us|
      invariant ScanDrafts(us, username, timeLimit) == ScanDrafts(us[i..], username, timeLimit)
    {
      assert us[i..][0] == us[i] && us[i..][1..] == us[i + 1..];
      var u := us[i];
      if u.OtherUpdate? {
        i := i + 1;
        continue;
      }
      var recent := IsFresh(u.draft, timeLimit);
      if recent.Err? {
        return None;
      }
      if !recent.value {
        i := i + 1;
        continue;
      }
      var id := ExtractPeerId(u.peer);
      if id.Err? {
        return None;
      }
      if id.value.None? || id.value.value == 0 {
        i := i + 1;
        continue;
      }
      if u.draft.DraftMessageEmpty? {
        return None;
      }
      var draftText := Lower(u.draft.message);
      if StartsWith(draftText, username) {
        return id.value;
      }
      i := i + 1;
    }
    return None;
  }

  /** An update that the scan accepts. */
  predicate Matches(u: Update, username: string, timeLimit: real) {
    && u.UpdateDraftMessage?
    && u.draft.DraftMessage?
    && u.draft.date as real > timeLimit
    && ExtractPeerId(u.peer).Ok?
    && ExtractPeerId(u.peer).value.Some?
    && ExtractPeerId(u.peer).value.value != 0
    && StartsWith(Lower(u.draft.message), username)
  }

  /** A successful scan returns the peer of the first matching update, and
      an empty result means no update matches. */
  lemma {:induction false} ScanFindsFirstMatch(us: seq<Update>, username: string, timeLimit: real)
    requires ScanDrafts(us, username, timeLimit).Ok?
    ensures var r := ScanDrafts(us, username, timeLimit).value;
      && (r.None? ==> forall i :: 0 <= i < |us| ==> !Matches(us[i], username, timeLimit))
      && (r.Some? ==> exists i :: 0 <= i < |us| && Matches(us[i], username, timeLimit)
                               && ExtractPeerId(us[i].peer) == Ok(r)
                               && forall j :: 0 <= j < i ==> !Matches(us[j], username, timeLimit))
    decreases |us|
  {
    if us != [] {
      var r := ScanDrafts(us, username, timeLimit).value;
      if Matches(us[0], username, timeLimit) {
        assert r == ExtractPeerId(us[0].peer).value;
      } else {
        ScanFindsFirstMatch(us[1..], username, timeLimit);
        assert ScanDrafts(us, username, timeLimit) == ScanDrafts(us[1..], username, timeLimit);
        if r.Some? {
          var i :| 0 <= i < |us[1..]| && Matches(us[1..][i], username, timeLimit)
                   && ExtractPeerId(us[1..][i].peer) == Ok(r)
                   && forall j :: 0 <= j < i ==> !Matches(us[1..][j], username, timeLimit);
          assert us[i + 1] == us[1..][i];
          forall j | 0 <= j < i + 1 ensures !Matches(us[j], username, timeLimit) {
            if j > 0 {
              assert us[j] == us[1..][j - 1];
            }
          }
        } else {
          forall i | 0 <= i < |us| ensures !Matches(us[i], username, timeLimit) {
            if i > 0 {
              assert us[i] == us[1..][i - 1];
            }
          }
        }
      }
    }
  }

  /** Only the draft is lower-cased: a username holding an upper-case ASCII
      letter never matches. */
  lemma UpperCaseUsernameNeverMatches(u: Update, username: string, timeLimit: real, k: nat)
    requires k < |username| && 'A' <= username[k] <= 'Z'
    ensures !Matches(u, username, timeLimit)
  {
    if u.UpdateDraftMessage? && u.draft.DraftMessage? {
      var t := Lower(u.draft.message);
      if |username| <= |t| {
        assert t[k] == LowerChar(u.draft.message[k]);
        assert t[..|username|][k] == t[k];
      }
    }
  }

  // ---------------------------------------------------------------------
  // wait_until_fresh_mention_found

  const MaxAttempts: nat := 5

  /** Python truthiness of an optional id. */
  predicate Found(m: Option<int>) { m.Some? && m.value != 0 }

  /** `wait_until_fresh_mention_found`: `fetch(k)` is what the k-th fetch
      returns. At most five fetches; the first truthy id is returned. */
  method WaitUntilFreshMentionFound(fetch: nat -> Option<int>) returns (r: Option<int>, calls: nat)
    ensures 1 <= calls <= MaxAttempts
    ensures forall k :: 0 <= k < calls - 1 ==> !Found(fetch(k))
    ensures r.Some? ==> Found(r) && r == fetch(calls - 1)
    ensures r.None? ==> calls == MaxAttempts && !Found(fetch(calls - 1))
  {
    var attempts := 0;
    calls := 0;
    while attempts < MaxAttempts
      invariant 0 <= attempts <= MaxAttempts && calls == attempts
      invariant forall k :: 0 <= k < attempts ==> !Found(fetch(k))
    {
      var mention := fetch(attempts);
      calls := calls + 1;
      if Found(mention) {
        return mention, calls;
      }
      attempts := attempts + 1;
    }
    r := None;
  }
}
