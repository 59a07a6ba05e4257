/** The account-level views built from raw MTProto objects: users,
    groups and channels, the "top peers" ranking and chat folders. Raw
    objects are datatypes holding the fields the conversion reads. */
module MtprotoSchemas {
  import opened Wrappers

  // ---------------------------------------------------------------------
  // Users, groups and channels

  /** `user.usernames[0].username` if that list is non-empty, else
      `username`. */
  function FirstUsername(usernames: Option<seq<string>>, username: Option<string>): (r: Option<string>)
    ensures usernames.Some? && |usernames.value| > 0 ==> r == Some(usernames.value[0])
    ensures (usernames.None? || |usernames.value| == 0) ==> r == username
  {
    if usernames.Some? && |usernames.value| > 0 then Some(usernames.value[0]) else username
  }

  /** An unset optional flag reads as False. */
  function FlagOrFalse(b: Option<bool>): (r: bool)
    ensures r <==> b == Some(true)
  {
    if b.Some? then b.value else false
  }

  /** The fields of a raw `User`. */
  datatype TlUser = TlUser(
    id: int,
    usernames: Option<seq<string>>,
    username: Option<string>,
    firstName: Option<string>,
    lastName: Option<string>,
    contact: Option<bool>,
    mutualContact: Option<bool>,
    premium: Option<bool>,
    langCode: Option<string>,
    bot: Option<bool>)

  datatype TelegramUser = TelegramUser(
    userId: int,
    username: Option<string>,
    firstName: Option<string>,
    lastName: Option<string>,
    contact: bool,
    mutualContact: bool,
    premium: bool,
    langCode: Option<string>,
    isBot: bool)

  /** `TelegramUser.from_user`. `is_bot` is never copied, so it keeps its
      default. */
  function FromUser(u: TlUser): (r: TelegramUser)
    ensures r.userId == u.id
    ensures r.username == FirstUsername(u.usernames, u.username)
    ensures r.firstName == u.firstName && r.lastName == u.lastName && r.langCode == u.langCode
    ensures r.contact <==> u.contact == Some(true)
    ensures r.mutualContact <==> u.mutualContact == Some(true)
    ensures r.premium <==> u.premium == Some(true)
    ensures !r.isBot
  {
    TelegramUser(u.id, FirstUsername(u.usernames, u.username), u.firstName, u.lastName,
      FlagOrFalse(u.contact), FlagOrFalse(u.mutualContact), FlagOrFalse(u.premium), u.langCode, false)
  }

  /** A bot account still comes out with `is_bot` False. */
  lemma BotUserNotMarked(u: TlUser)
    requires u.bot == Some(true)
    ensures !FromUser(u).isBot
  {
  }

  /** The fields of a raw basic-group `Chat`; `date` is a Unix time. A
      basic group always carries its participant count. */
  datatype TlChat = TlChat(id: int, title: string, participantsCount: int, date: int, creator: Option<bool>)

  datatype TelegramGroupChat = TelegramGroupChat(groupId: int, title: string, createdAt: int, isCreator: bool, participantsCount: int)

  function FromChat(c: TlChat): (r: TelegramGroupChat)
    ensures r.groupId == c.id && r.title == c.title && r.createdAt == c.date
    ensures r.participantsCount == c.participantsCount
    ensures r.isCreator <==> c.creator == Some(true)
  {
    TelegramGroupChat(c.id, c.title, c.date, FlagOrFalse(c.creator), c.participantsCount)
  }

  /** The fields of a raw `Channel`; its participant count is optional. */
  datatype TlChannel = TlChannel(
    id: int,
    title: string,
    participantsCount: Option<int>,
    usernames: Option<seq<string>>,
    username: Option<string>,
    broadcast: Option<bool>,
    megagroup: Option<bool>,
    gigagroup: Option<bool>,
    forum: Option<bool>,
    date: int,
    creator: Option<bool>)

  datatype TelegramCommunity = TelegramCommunity(
    communityId: int,
    title: string,
    username: Option<string>,
    isChannel: bool,
    isSupergroup: bool,
    isGigagroup: bool,
    isForum: bool,
    createdAt: int,
    isCreator: bool,
    participantsCount: int)

  /** `TelegramCommunity.from_channel`: the required participant count
      fails validation when the channel does not carry one. */
  function FromChannel(c: TlChannel): (r: Result<TelegramCommunity>)
    ensures r.Err? <==> c.participantsCount.None?
    ensures r.Err? ==> r.error == ValidationError("participants_count")
    ensures r.Ok? ==> && r.value.communityId == c.id && r.value.title == c.title && r.value.createdAt == c.date
                      && r.value.username == FirstUsername(c.usernames, c.username)
                      && (r.value.isChannel <==> c.broadcast == Some(true))
                      && (r.value.isSupergroup <==> c.megagroup == Some(true))
                      && (r.value.isGigagroup <==> c.gigagroup == Some(true))
                      && (r.value.isForum <==> c.forum == Some(true))
                      && (r.value.isCreator <==> c.creator == Some(true))
                      && r.value.participantsCount == c.participantsCount.value
  {
    if c.participantsCount.None? then Err(ValidationError("participants_count"))
    else Ok(TelegramCommunity(c.id, c.title, FirstUsername(c.usernames, c.username),
      FlagOrFalse(c.broadcast), FlagOrFalse(c.megagroup), FlagOrFalse(c.gigagroup),
      FlagOrFalse(c.forum), c.date, FlagOrFalse(c.creator), c.participantsCount.value))
  }

  // ---------------------------------------------------------------------
  // Top peers

  /** The raw `TopPeerCategory` types; `from_category` receives the type
      of an entry's category, not the category object. */
  datatype TopPeerCategory =
    | CategoryChannels | CategoryGroups | CategoryCorrespondents | CategoryForwardChats
    | CategoryForwardUsers | CategoryBotsPm | CategoryBotsInline | CategoryPhoneCalls | CategoryBotsApp

  datatype SupportedCategory = PopularChannels | PopularGroups | PopularDialogs | PopularForwardChats | PopularForwardUsers

  /** The name pyrogram gives a raw category type. */
  function CategoryTypeName(c: TopPeerCategory): string {
    match c
    case CategoryChannels => "TopPeerCategoryChannels"
    case CategoryGroups => "TopPeerCategoryGroups"
    case CategoryCorrespondents => "TopPeerCategoryCorrespondents"
    case CategoryForwardChats => "TopPeerCategoryForwardChats"
    case CategoryForwardUsers => "TopPeerCategoryForwardUsers"
    case CategoryBotsPm => "TopPeerCategoryBotsPM"
    case CategoryBotsInline => "TopPeerCategoryBotsInline"
    case CategoryPhoneCalls => "TopPeerCategoryPhoneCalls"
    case CategoryBotsApp => "TopPeerCategoryBotsApp"
  }

  /** The module of `pyrogram.raw.types` that defines a category type. */
  function CategoryModule(c: TopPeerCategory): string {
    match c
    case CategoryChannels => "top_peer_category_channels"
    case CategoryGroups => "top_peer_category_groups"
    case CategoryCorrespondents => "top_peer_category_correspondents"
    case CategoryForwardChats => "top_peer_category_forward_chats"
    case CategoryForwardUsers => "top_peer_category_forward_users"
    case CategoryBotsPm => "top_peer_category_bots_pm"
    case CategoryBotsInline => "top_peer_category_bots_inline"
    case CategoryPhoneCalls => "top_peer_category_phone_calls"
    case CategoryBotsApp => "top_peer_category_bots_app"
  }

  /** `str` of a category class: the caller passes `type(entry.category)`,
      so the argument is a class, which Python shows as `<class '...'>`
      with its full module path. */
  function CategoryText(c: TopPeerCategory): string {
    "<class 'pyrogram.raw.types." + CategoryModule(c) + "." + CategoryTypeName(c) + "'>"
  }

  /** `SupportedCategories.from_category`. */
  function FromCategory(c: TopPeerCategory): (r: Result<SupportedCategory>)
    ensures r.Err? ==> r.error == ValueError("Unsupported category: " + CategoryText(c))
  {
    match c
    case CategoryChannels => Ok(PopularChannels)
    case CategoryGroups => Ok(PopularGroups)
    case CategoryCorrespondents => Ok(PopularDialogs)
    case CategoryForwardChats => Ok(PopularForwardChats)
    case CategoryForwardUsers => Ok(PopularForwardUsers)
    case _ => Err(ValueError("Unsupported category: " + CategoryText(c)))
  }

  /** The supported categories, the way round the ranking names them. */
  function CategoryOf(s: SupportedCategory): TopPeerCategory {
    match s
    case PopularChannels => CategoryChannels
    case PopularGroups => CategoryGroups
    case PopularDialogs => CategoryCorrespondents
    case PopularForwardChats => CategoryForwardChats
    case PopularForwardUsers => CategoryForwardUsers
  }

  /** `from_category` is one-to-one on the five supported categories and
      rejects every other one. */
  lemma FromCategoryBijective(c: TopPeerCategory, s: SupportedCategory)
    ensures FromCategory(CategoryOf(s)) == Ok(s)
    ensures FromCategory(c).Ok? ==> CategoryOf(FromCategory(c).value) == c
    ensures FromCategory(c).Err? <==> c !in {CategoryChannels, CategoryGroups, CategoryCorrespondents, CategoryForwardChats, CategoryForwardUsers}
  {
  }

  /** A member of the `chats` list: a channel, a basic group, or one the
      account cannot see (`ChatForbidden`/`ChannelForbidden`). */
  datatype ChatObject = ChannelObject(channel: TlChannel) | GroupObject(chat: TlChat) | ForbiddenObject(forbiddenId: int)
  {
    function Id(): int {
      match this
      case ChannelObject(c) => c.id
      case GroupObject(c) => c.id
      case ForbiddenObject(i) => i
    }
  }

  /** A member of the `users` list: a `User` or a `UserEmpty`. */
  datatype UserObject = UserFound(user: TlUser) | UserEmpty(emptyId: int)

  /** A ranked peer, with its rating. */
  datatype TopPeer =
    | TopChannel(community: TelegramCommunity, rating: real)
    | TopChat(group: TelegramGroupChat, rating: real)
    | TopUser(user: TelegramUser, rating: real)

  /** What one matching chat entry turns into; a forbidden chat leaves
      nothing to set the rating on, so the lookup catches the error. */
  function ConvertChat(e: ChatObject, rating: real): Option<TopPeer> {
    match e
    case ChannelObject(c) => (match FromChannel(c) case Ok(t) => Some(TopChannel(t, rating)) case Err(_) => None)
    case GroupObject(c) => Some(TopChat(FromChat(c), rating))
    case ForbiddenObject(_) => None
  }

  /** `get_chat_by_id`: the first chat with the id decides. */
  function ChatById(chats: seq<ChatObject>, id: int, rating: real): Option<TopPeer> {
    if chats == [] then None
    else if chats[0].Id() == id then ConvertChat(chats[0], rating)
    else ChatById(chats[1..], id, rating)
  }

  method GetChatById(chats: seq<ChatObject>, id: int, rating: real) returns (r: Option<TopPeer>)
    ensures r == ChatById(chats, id, rating)
  {
    var i := 0;
    while i < |chats|
      invariant 0 <= i <= |chats|
      invariant ChatById(chats, id, rating) == ChatById(chats[i..], id, rating)
    {
      assert chats[i..][0] == chats[i] && chats[i..][1..] == chats[i + 1..];
      if chats[i].Id() == id {
        return ConvertChat(chats[i], rating);
      }
      i := i + 1;
    }
    return None;
  }

  /** The chat lookup answers from the first entry with the id, and None
      when there is none. */
  lemma {:induction false} ChatByIdFirst(chats: seq<ChatObject>, id: int, rating: real, i: nat)
    requires i <= |chats|
    requires forall j :: 0 <= j < i ==> chats[j].Id() != id
    ensures i < |chats| && chats[i].Id() == id ==> ChatById(chats, id, rating) == ConvertChat(chats[i], rating)
    ensures i == |chats| ==> ChatById(chats, id, rating).None?
    decreases i
  {
    if i > 0 {
      assert chats[0].Id() != id;
      forall j | 0 <= j < i - 1 ensures chats[1..][j].Id() != id {
        assert chats[1..][j] == chats[j + 1];
      }
      ChatByIdFirst(chats[1..], id, rating, i - 1);
      if i < |chats| {
        assert chats[1..][i - 1] == chats[i];
      }
    }
  }

  /** `get_user_by_id`: the first `User` with the id; `UserEmpty` entries
      are passed over. */
  function UserById(users: seq<UserObject>, id: int, rating: real): (r: Option<TopPeer>)
    ensures r.Some? ==> r.value.TopUser? && r.value.user.userId == id
  {
    if users == [] then None
    else if users[0].UserFound? && users[0].user.id == id then Some(TopUser(FromUser(users[0].user), rating))
    else UserById(users[1..], id, rating)
  }

  method GetUserById(users: seq<UserObject>, id: int, rating: real) returns (r: Option<TopPeer>)
    ensures r == UserById(users, id, rating)
  {
    var i := 0;
    while i < |users|
      invariant 0 <= i <= |users|
      invariant UserById(users, id, rating) == UserById(users[i..], id, rating)
    {
      assert users[i..][0] == users[i] && users[i..][1..] == users[i + 1..];
      if users[i].UserFound? && users[i].user.id == id {
        return Some(TopUser(FromUser(users[i].user), rating));
      }
      i := i + 1;
    }
    return None;
  }

  /** The user lookup finds a user exactly when some `User` has the id. */
  lemma {:induction false} UserByIdFound(users: seq<UserObject>, id: int, rating: real)
    ensures UserById(users, id, rating).Some? <==> exists j :: 0 <= j < |users| && users[j].UserFound? && users[j].user.id == id
    decreases |users|
  {
    if users != [] {
      UserByIdFound(users[1..], id, rating);
      if exists j :: 0 <= j < |users[1..]| && users[1..][j].UserFound? && users[1..][j].user.id == id {
        var j :| 0 <= j < |users[1..]| && users[1..][j].UserFound? && users[1..][j].user.id == id;
        assert users[j + 1] == users[1..][j];
      }
      if exists j :: 0 <= j < |users| && users[j].UserFound? && users[j].user.id == id {
        var j :| 0 <= j < |users| && users[j].UserFound? && users[j].user.id == id;
        if j > 0 {
          assert users[1..][j - 1] == users[j];
        }
      }
    }
  }

  /** The raw `Peer` of a ranked entry. */
  datatype PeerRef = PeerUser(userId: int) | PeerChat(chatId: int) | PeerChannel(channelId: int)

  datatype TopPeerRef = TopPeerRef(peer: PeerRef, rating: real)

  datatype CategoryPeers = CategoryPeers(category: TopPeerCategory, count: int, peers: seq<TopPeerRef>)

  datatype TopPeers = TopPeers(categories: seq<CategoryPeers>, chats: seq<ChatObject>, users: seq<UserObject>)

  /** The five lists being filled. */
  datatype Buckets = Buckets(
    channels: seq<TopPeer>, groups: seq<TopPeer>, dialogs: seq<TopPeer>,
    forwardChats: seq<TopPeer>, forwardUsers: seq<TopPeer>)

  const NoBuckets := Buckets([], [], [], [], [])

  /** `peer.peer.user_id or peer.peer.chat_id or peer.peer.channel_id` as
      written: a raw peer has only its own id field, so reading `user_id`
      of a chat or channel peer (or `chat_id` of a user peer with id 0)
      raises AttributeError. */
  function PeerIdAsWritten(p: PeerRef): (r: Result<int>)
    ensures r.Ok? <==> p.PeerUser? && p.userId != 0
  {
    match p
    case PeerUser(u) => if u != 0 then Ok(u) else Err(AttributeError)
    case _ => Err(AttributeError)
  }

  /** The id the line evidently means: whichever id the peer has. */
  function PeerIdIntended(p: PeerRef): (r: Result<int>)
    ensures r.Ok?
    ensures p.PeerUser? ==> r.value == p.userId
    ensures p.PeerChat? ==> r.value == p.chatId
    ensures p.PeerChannel? ==> r.value == p.channelId
  {
    match p
    case PeerUser(u) => Ok(u)
    case PeerChat(c) => Ok(c)
    case PeerChannel(c) => Ok(c)
  }

  /** Files one resolved peer by its category; other categories and
      unresolved peers leave the lists as they are. */
  function AddPeer(tp: TopPeers, category: TopPeerCategory, id: int, rating: real, b: Buckets): Buckets {
    match category
    case CategoryChannels =>
      (match ChatById(tp.chats, id, rating) case Some(c) => b.(channels := b.channels + [c]) case None => b)
    case CategoryCorrespondents =>
      (match UserById(tp.users, id, rating) case Some(u) => b.(dialogs := b.dialogs + [u]) case None => b)
    case CategoryForwardUsers =>
      (match UserById(tp.users, id, rating) case Some(u) => b.(forwardUsers := b.forwardUsers + [u]) case None => b)
    case CategoryGroups =>
      (match ChatById(tp.chats, id, rating) case Some(c) => b.(groups := b.groups + [c]) case None => b)
    case CategoryForwardChats =>
      (match ChatById(tp.chats, id, rating) case Some(c) => b.(forwardChats := b.forwardChats + [c]) case None => b)
    case _ => b
  }

  /** The inner loop over one category's peers, from `peers[0]` on. */
  function ScanPeers(tp: TopPeers, category: TopPeerCategory, peers: seq<TopPeerRef>,
                     peerId: PeerRef -> Result<int>, b: Buckets): Result<Buckets>
    decreases |peers|
  {
    if peers == [] then Ok(b)
    else
      var id :- peerId(peers[0].peer);
      ScanPeers(tp, category, peers[1..], peerId, AddPeer(tp, category, id, peers[0].rating, b))
  }

  /** The outer loop over the categories, from `cats[0]` on. */
  function ScanCategories(tp: TopPeers, cats: seq<CategoryPeers>, peerId: PeerRef -> Result<int>, b: Buckets): Result<Buckets>
    decreases |cats|
  {
    if cats == [] then Ok(b)
    else
      var b' :- ScanPeers(tp, cats[0].category, cats[0].peers, peerId, b);
      ScanCategories(tp, cats[1..], peerId, b')
  }

  /** A peer whose id cannot be read stops the inner loop with that error. */
  lemma PeerFails(tp: TopPeers, category: TopPeerCategory, peers: seq<TopPeerRef>,
                  peerId: PeerRef -> Result<int>, b: Buckets, e: Exception)
    requires peers != [] && peerId(peers[0].peer) == Err(e)
    ensures ScanPeers(tp, category, peers, peerId, b) == Err(e)
  {
  }

  /** An error in one category's peers stops the outer loop with it. */
  lemma CategoryFails(tp: TopPeers, cats: seq<CategoryPeers>, peerId: PeerRef -> Result<int>, b: Buckets, e: Exception)
    requires cats != [] && ScanPeers(tp, cats[0].category, cats[0].peers, peerId, b) == Err(e)
    ensures ScanCategories(tp, cats, peerId, b) == Err(e)
  {
  }

  datatype CategoryEntry = CategoryEntry(category: SupportedCategory, total: int, peers: seq<TopPeer>)

  datatype CategoryRanking = CategoryRanking(
    popularChannels: CategoryEntry, popularGroups: CategoryEntry, popularDialogs: CategoryEntry,
    popularForwardChats: CategoryEntry, popularForwardUsers: CategoryEntry)

  /** `CategoryRanking.from_top_peers`, with the peer-id rule as a
      parameter. After the loop every entry is built from the loop
      variables of the last category; with no category they are unbound. */
  function Ranking(tp: TopPeers, peerId: PeerRef -> Result<int>): Result<CategoryRanking> {
    var b :- ScanCategories(tp, tp.categories, peerId, NoBuckets);
    if tp.categories == [] then Err(NameError)
    else
      var last := tp.categories[|tp.categories| - 1];
      var category :- FromCategory(last.category);
      Ok(CategoryRanking(
        CategoryEntry(category, last.count, b.channels),
        CategoryEntry(category, last.count, b.groups),
        CategoryEntry(category, last.count, b.dialogs),
        CategoryEntry(category, last.count, b.forwardChats),
        CategoryEntry(category, last.count, b.forwardUsers)))
  }

  /** The body of the inner loop: files one resolved peer by its category. */
  method AddTopPeer(tp: TopPeers, category: TopPeerCategory, id: int, rating: real, b: Buckets) returns (b': Buckets)
    ensures b' == AddPeer(tp, category, id, rating, b)
  {
    b' := b;
    match category {
      case CategoryChannels =>
        var channel := GetChatById(tp.chats, id, rating);
        if channel.Some? {
          b' := b.(channels := b.channels + [channel.value]);
        }
      case CategoryCorrespondents =>
        var user := GetUserById(tp.users, id, rating);
        if user.Some? {
          b' := b.(dialogs := b.dialogs + [user.value]);
        }
      case CategoryForwardUsers =>
        var user := GetUserById(tp.users, id, rating);
        if user.Some? {
          b' := b.(forwardUsers := b.forwardUsers + [user.value]);
        }
      case CategoryGroups =>
        var chat := GetChatById(tp.chats, id, rating);
        if chat.Some? {
          b' := b.(groups := b.groups + [chat.value]);
        }
      case CategoryForwardChats =>
        var chat := GetChatById(tp.chats, id, rating);
        if chat.Some? {
          b' := b.(forwardChats := b.forwardChats + [chat.value]);
        }
      case _ =>
    }
  }

  /** The inner loop over one category's peers; a peer id that cannot be
      read ends the whole ranking with its error. */
  method FilePeers(tp: TopPeers, entry: CategoryPeers, peerId: PeerRef -> Result<int>, start: Buckets)
    returns (r: Result<Buckets>)
    ensures r == ScanPeers(tp, entry.category, entry.peers, peerId, start)
  {
    var b := start;
    var k := 0;
    while k < |entry.peers|
      invariant 0 <= k <= |entry.peers|
      invariant ScanPeers(tp, entry.category, entry.peers, peerId, start) ==
                ScanPeers(tp, entry.category, entry.peers[k..], peerId, b)
    {
      var peer := entry.peers[k];
      assert entry.peers[k..][0] == peer && entry.peers[k..][1..] == entry.peers[k + 1..];
      var id := peerId(peer.peer);
      if id.Err? {
        PeerFails(tp, entry.category, entry.peers[k..], peerId, b, id.error);
        return Err(id.error);
      }
      b := AddTopPeer(tp, entry.category, id.value, peer.rating, b);
      k := k + 1;
    }
    assert entry.peers[k..] == [];
    r := Ok(b);
  }

  method FromTopPeers(tp: TopPeers, peerId: PeerRef -> Result<int>) returns (r: Result<CategoryRanking>)
    ensures r == Ranking(tp, peerId)
  {
    var b := NoBuckets;
    // `category_type` and `total`, unbound until the first category.
    var categoryType: Option<TopPeerCategory> := None;
    var total := 0;
    var i := 0;
    while i < |tp.categories|
      invariant 0 <= i <= |tp.categories|
      invariant ScanCategories(tp, tp.categories, peerId, NoBuckets) == ScanCategories(tp, tp.categories[i..], peerId, b)
      invariant i == 0 <==> categoryType.None?
      invariant i > 0 ==> categoryType == Some(tp.categories[i - 1].category) && total == tp.categories[i - 1].count
    {
      var entry := tp.categories[i];
      assert tp.categories[i..][0] == entry && tp.categories[i..][1..] == tp.categories[i + 1..];
      categoryType := Some(entry.category);
      total := entry.count;
      var scanned := FilePeers(tp, entry, peerId, b);
      if scanned.Err? {
        CategoryFails(tp, tp.categories[i..], peerId, b, scanned.error);
        return Err(scanned.error);
      }
      b := scanned.value;
      i := i + 1;
    }
    assert tp.categories[i..] == [];
    if categoryType.None? {
      return Err(NameError);
    }
    var category := FromCategory(categoryType.value);
    if category.Err? {
      return Err(category.error);
    }
    r := Ok(CategoryRanking(
      CategoryEntry(category.value, total, b.channels),
      CategoryEntry(category.value, total, b.groups),
      CategoryEntry(category.value, total, b.dialogs),
      CategoryEntry(category.value, total, b.forwardChats),
      CategoryEntry(category.value, total, b.forwardUsers)));
  }

  // Properties of the ranking.

  /** All five entries share the category and total of the last category
      processed, whatever category their peers came from. */
  lemma RankingSharesLastCategory(tp: TopPeers, peerId: PeerRef -> Result<int>)
    requires Ranking(tp, peerId).Ok?
    ensures |tp.categories| > 0
    ensures var r := Ranking(tp, peerId).value;
            var last := tp.categories[|tp.categories| - 1];
      && Ok(r.popularChannels.category) == FromCategory(last.category)
      && r.popularChannels.category == r.popularGroups.category == r.popularDialogs.category
         == r.popularForwardChats.category == r.popularForwardUsers.category
      && r.popularChannels.total == r.popularGroups.total == r.popularDialogs.total
         == r.popularForwardChats.total == r.popularForwardUsers.total == last.count
  {
  }

  /** One category's peers go only to the list of that category: every
      other list is left as it was, and a user list only receives users. */
  lemma {:induction false} ScanPeersOneList(tp: TopPeers, category: TopPeerCategory, peers: seq<TopPeerRef>,
                                            peerId: PeerRef -> Result<int>, b: Buckets)
    requires ScanPeers(tp, category, peers, peerId, b).Ok?
    ensures var b' := ScanPeers(tp, category, peers, peerId, b).value;
      && (category != CategoryChannels ==> b'.channels == b.channels)
      && (category != CategoryGroups ==> b'.groups == b.groups)
      && (category != CategoryCorrespondents ==> b'.dialogs == b.dialogs)
      && (category != CategoryForwardChats ==> b'.forwardChats == b.forwardChats)
      && (category != CategoryForwardUsers ==> b'.forwardUsers == b.forwardUsers)
      && b.dialogs <= b'.dialogs && b.forwardUsers <= b'.forwardUsers
      && (forall k :: |b.dialogs| <= k < |b'.dialogs| ==> b'.dialogs[k].TopUser?)
      && (forall k :: |b.forwardUsers| <= k < |b'.forwardUsers| ==> b'.forwardUsers[k].TopUser?)
    decreases |peers|
  {
    if peers != [] {
      var id := peerId(peers[0].peer).value;
      var mid := AddPeer(tp, category, id, peers[0].rating, b);
      ScanPeersOneList(tp, category, peers[1..], peerId, mid);
    }
  }

  /** As written, one chat or channel peer anywhere in the ranking makes
      `from_top_peers` raise AttributeError, so top channels and groups can
      never be listed. */
  lemma {:induction false} AsWrittenRejectsChatPeers(tp: TopPeers, cats: seq<CategoryPeers>, b: Buckets, i: nat, j: nat)
    requires i < |cats| && j < |cats[i].peers| && !cats[i].peers[j].peer.PeerUser?
    ensures ScanCategories(tp, cats, PeerIdAsWritten, b) == Err(AttributeError)
    decreases |cats|
  {
    var s := ScanPeers(tp, cats[0].category, cats[0].peers, PeerIdAsWritten, b);
    if i == 0 {
      AsWrittenPeersFail(tp, cats[0].category, cats[0].peers, b, j);
    } else if s.Err? {
      AsWrittenPeersError(tp, cats[0].category, cats[0].peers, b);
    } else {
      assert cats[1..][i - 1] == cats[i];
      AsWrittenRejectsChatPeers(tp, cats[1..], s.value, i - 1, j);
    }
  }

  lemma {:induction false} AsWrittenPeersFail(tp: TopPeers, category: TopPeerCategory, peers: seq<TopPeerRef>, b: Buckets, j: nat)
    requires j < |peers| && !peers[j].peer.PeerUser?
    ensures ScanPeers(tp, category, peers, PeerIdAsWritten, b) == Err(AttributeError)
    decreases |peers|
  {
    var id := PeerIdAsWritten(peers[0].peer);
    if j > 0 && id.Ok? {
      assert peers[1..][j - 1] == peers[j];
      AsWrittenPeersFail(tp, category, peers[1..], AddPeer(tp, category, id.value, peers[0].rating, b), j - 1);
    }
  }

  /** The only error the peer loop can raise, as written, is AttributeError. */
  lemma {:induction false} AsWrittenPeersError(tp: TopPeers, category: TopPeerCategory, peers: seq<TopPeerRef>, b: Buckets)
    requires ScanPeers(tp, category, peers, PeerIdAsWritten, b).Err?
    ensures ScanPeers(tp, category, peers, PeerIdAsWritten, b) == Err(AttributeError)
    decreases |peers|
  {
    var id := PeerIdAsWritten(peers[0].peer);
    if id.Ok? {
      AsWrittenPeersError(tp, category, peers[1..], AddPeer(tp, category, id.value, peers[0].rating, b));
    }
  }

  /** With the intended peer id the loop never fails, so the ranking is
      built whenever there is a last category and it is supported. */
  lemma {:induction false} IntendedScanSucceeds(tp: TopPeers, cats: seq<CategoryPeers>, b: Buckets)
    ensures ScanCategories(tp, cats, PeerIdIntended, b).Ok?
    decreases |cats|
  {
    if cats != [] {
      IntendedPeersSucceed(tp, cats[0].category, cats[0].peers, b);
      IntendedScanSucceeds(tp, cats[1..], ScanPeers(tp, cats[0].category, cats[0].peers, PeerIdIntended, b).value);
    }
  }

  lemma {:induction false} IntendedPeersSucceed(tp: TopPeers, category: TopPeerCategory, peers: seq<TopPeerRef>, b: Buckets)
    ensures ScanPeers(tp, category, peers, PeerIdIntended, b).Ok?
    decreases |peers|
  {
    if peers != [] {
      var id := PeerIdIntended(peers[0].peer).value;
      IntendedPeersSucceed(tp, category, peers[1..], AddPeer(tp, category, id, peers[0].rating, b));
    }
  }

  lemma IntendedRanking(tp: TopPeers)
    ensures Ranking(tp, PeerIdIntended).Ok? <==>
      |tp.categories| > 0 && FromCategory(tp.categories[|tp.categories| - 1].category).Ok?
  {
    IntendedScanSucceeds(tp, tp.categories, NoBuckets);
  }

  // ---------------------------------------------------------------------
  // Folders

  /** The nine boolean settings of a folder. */
  datatype FolderFlags = FolderFlags(
    contacts: bool, nonContacts: bool, groups: bool, channels: bool, bots: bool,
    excludeMuted: bool, excludeRead: bool, excludeArchived: bool, noAnimate: bool)

  const NoFlags := FolderFlags(false, false, false, false, false, false, false, false, false)

  const AllFlags := FolderFlags(true, true, true, true, true, true, true, true, true)

  /** `check_if_all_bool_false` as written: `all([...])` over the nine
      flags is True only when every flag is set. */
  function CheckIfAllBoolFalse(f: FolderFlags): (r: bool)
    ensures r <==> f == AllFlags
  {
    f.contacts && f.nonContacts && f.groups && f.channels && f.bots
    && f.excludeMuted && f.excludeRead && f.excludeArchived && f.noAnimate
  }

  /** What the name and the docstring ask for: no flag is set. */
  function AllBoolFalse(f: FolderFlags): (r: bool)
    ensures r <==> f == NoFlags
  {
    !(f.contacts || f.nonContacts || f.groups || f.channels || f.bots
      || f.excludeMuted || f.excludeRead || f.excludeArchived || f.noAnimate)
  }

  /** A folder with no flag set is reported as not all-false, and one with
      every flag set as all-false. */
  lemma CheckIfAllBoolFalseInverted()
    ensures !CheckIfAllBoolFalse(NoFlags) && AllBoolFalse(NoFlags)
    ensures CheckIfAllBoolFalse(AllFlags) && !AllBoolFalse(AllFlags)
  {
  }

  datatype InputPeer =
    | InputPeerChat(chatId: int)
    | InputPeerChannel(channelId: int)
    | InputPeerUser(userId: int)
    | InputPeerSelf
    | InputPeerEmpty

  datatype FolderPeer =
    | FolderPeerChat(chatId: int, pinned: bool)
    | FolderPeerChannel(channelId: int, pinned: bool)
    | FolderPeerUser(userId: int, pinned: bool)

  /** One input peer as a folder entry; other kinds are dropped. */
  function EntryOf(p: InputPeer, pinned: bool): (r: seq<FolderPeer>)
    ensures |r| <= 1
    ensures |r| == 1 <==> p.InputPeerChat? || p.InputPeerChannel? || p.InputPeerUser?
    ensures |r| == 1 ==> r[0].pinned == pinned
  {
    match p
    case InputPeerChat(c) => [FolderPeerChat(c, pinned)]
    case InputPeerChannel(c) => [FolderPeerChannel(c, pinned)]
    case InputPeerUser(u) => [FolderPeerUser(u, pinned)]
    case _ => []
  }

  /** The folder entries of `peers`, in order (`get_entry`). */
  function Entries(peers: seq<InputPeer>, pinned: bool): seq<FolderPeer> {
    if peers == [] then [] else Entries(peers[..|peers| - 1], pinned) + EntryOf(peers[|peers| - 1], pinned)
  }

  method GetEntry(peers: Option<seq<InputPeer>>, pinned: bool) returns (r: seq<FolderPeer>)
    ensures peers.None? ==> r == []
    ensures peers.Some? ==> r == Entries(peers.value, pinned)
  {
    r := [];
    if peers.None? {
      return;
    }
    var ps := peers.value;
    var i := 0;
    while i < |ps|
      invariant 0 <= i <= |ps|
      invariant r == Entries(ps[..i], pinned)
    {
      assert ps[..i + 1][..i] == ps[..i];
      match ps[i] {
        case InputPeerChat(c) => r := r + [FolderPeerChat(c, pinned)];
        case InputPeerChannel(c) => r := r + [FolderPeerChannel(c, pinned)];
        case InputPeerUser(u) => r := r + [FolderPeerUser(u, pinned)];
        case _ =>
      }
      i := i + 1;
    }
    assert ps[..i] == ps;
  }

  /** Every entry carries the requested pinned flag, and there is one entry
      per chat, channel or user peer. */
  lemma {:induction false} EntriesShape(peers: seq<InputPeer>, pinned: bool)
    ensures forall k :: 0 <= k < |Entries(peers, pinned)| ==> Entries(peers, pinned)[k].pinned == pinned
    ensures |Entries(peers, pinned)| <= |peers|
    ensures (forall k :: 0 <= k < |peers| ==> !peers[k].InputPeerSelf? && !peers[k].InputPeerEmpty?)
            ==> |Entries(peers, pinned)| == |peers|
  {
    if peers != [] {
      var n := |peers| - 1;
      EntriesShape(peers[..n], pinned);
      assert forall k :: 0 <= k < n ==> peers[..n][k] == peers[k];
    }
  }

  datatype DialogFilter =
    | DialogFilterDefault
    | DialogFilterChatlist(id: int, title: string, includePeers: Option<seq<InputPeer>>, pinnedPeers: Option<seq<InputPeer>>)
    | DialogFilterCustom(id: int, title: string, includePeers: Option<seq<InputPeer>>, pinnedPeers: Option<seq<InputPeer>>,
                         flags: FolderFlags, emoticon: Option<string>)

  datatype Folder = Folder(
    folderId: int, folderTitle: string, flags: FolderFlags, emoticon: Option<string>,
    includePeers: seq<FolderPeer>, pinnedPeers: seq<FolderPeer>)

  /** `folder_title` is limited to 12 characters. */
  const MaxTitle: nat := 12

  function MakeFolder(id: int, title: string, flags: FolderFlags, emoticon: Option<string>,
                      included: seq<FolderPeer>, pinned: seq<FolderPeer>): (r: Result<Folder>)
    ensures r.Err? <==> |title| > MaxTitle
    ensures r.Ok? ==> r.value == Folder(id, title, flags, emoticon, included, pinned)
  {
    if |title| > MaxTitle then Err(ValidationError("folder_title"))
    else Ok(Folder(id, title, flags, emoticon, included, pinned))
  }

  function OrEmpty(peers: Option<seq<InputPeer>>, pinned: bool): seq<FolderPeer> {
    if peers.None? then [] else Entries(peers.value, pinned)
  }

  /** `Folder.from_dialog_filter` as written: the included peers are passed
      under the key "included_peers", which names no field and is ignored,
      so `include_peers` keeps its empty default. */
  function FromDialogFilterAsWritten(d: DialogFilter): (r: Result<Folder>)
    ensures r.Ok? ==> r.value.includePeers == []
  {
    match d
    case DialogFilterDefault => MakeFolder(0, "Default", NoFlags, None, [], [])
    case DialogFilterChatlist(id, title, _, pinned) =>
      MakeFolder(id, title, NoFlags, None, [], OrEmpty(pinned, true))
    case DialogFilterCustom(id, title, _, pinned, flags, emoticon) =>
      MakeFolder(id, title, flags, emoticon, [], OrEmpty(pinned, true))
  }

  /** The conversion with the included peers kept, as the field intends. */
  function FromDialogFilter(d: DialogFilter): (r: Result<Folder>)
    ensures d.DialogFilterDefault? ==> r == Ok(Folder(0, "Default", NoFlags, None, [], []))
    ensures !d.DialogFilterDefault? ==> (r.Err? <==> |d.title| > MaxTitle)
    ensures r.Ok? && !d.DialogFilterDefault? ==>
      && r.value.folderId == d.id
      && r.value.includePeers == OrEmpty(d.includePeers, false)
      && r.value.pinnedPeers == OrEmpty(d.pinnedPeers, true)
      && r.value.folderTitle == d.title
    ensures r.Ok? && d.DialogFilterCustom? ==> r.value.flags == d.flags && r.value.emoticon == d.emoticon
    ensures r.Ok? && d.DialogFilterChatlist? ==> r.value.flags == NoFlags && r.value.emoticon.None?
  {
    match d
    case DialogFilterDefault => MakeFolder(0, "Default", NoFlags, None, [], [])
    case DialogFilterChatlist(id, title, included, pinned) =>
      MakeFolder(id, title, NoFlags, None, OrEmpty(included, false), OrEmpty(pinned, true))
    case DialogFilterCustom(id, title, included, pinned, flags, emoticon) =>
      MakeFolder(id, title, flags, emoticon, OrEmpty(included, false), OrEmpty(pinned, true))
  }

  /** A folder with one included chat loses it as written and keeps it
      once the field is named correctly. */
  lemma IncludedPeersDropped(c: int)
    ensures var d := DialogFilterChatlist(1, "Work", Some([InputPeerChat(c)]), None);
      && FromDialogFilterAsWritten(d).Ok? && FromDialogFilterAsWritten(d).value.includePeers == []
      && FromDialogFilter(d).Ok? && FromDialogFilter(d).value.includePeers == [FolderPeerChat(c, false)]
  {
    var ps := [InputPeerChat(c)];
    assert ps[..0] == [];
    assert Entries(ps, false) == [] + [FolderPeerChat(c, false)];
  }

  /** Apart from the included peers, both conversions agree. */
  lemma AsWrittenDiffersOnlyInIncluded(d: DialogFilter)
    ensures FromDialogFilterAsWritten(d).Ok? <==> FromDialogFilter(d).Ok?
    ensures FromDialogFilter(d).Ok? ==>
      FromDialogFilterAsWritten(d).value == FromDialogFilter(d).value.(includePeers := [])
  {
  }
}
