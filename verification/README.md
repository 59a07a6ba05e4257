# Athena core, modelled in Dafny

Athena is a Telegram assistant. It reads a community's recent messages,
keeps the engaging ones, embeds and clusters them, and keeps two
representative messages per cluster for a summary. The summary is posted
with links back to the original messages. Around that pipeline sit small,
exact helpers:

- Telegram identifiers and links: peer ids, `-100…` channel ids, the
  inline-message-id decoder, deep links and `/start` commands;
- the summary's HTML assembly and the streaming plan of long replies;
- sticker-set lookup and the conversions from MTProto objects to the
  bot's own records;
- Organon, the knowledge graph: node and edge registries, Cypher query
  generators, the `(query, params)` builders of node and edge classes,
  and global ids;
- the disk cache's key and hit/miss rule, the AI-provider registry with
  its fallback, and persona serialization.

Each of the following Dafny modules models one source file. The file
names follow the modules; all paths below are under `src/athena/`:

- `process.dfy`: `features/telegram/ai_services/process.py` (message
  selection, batching, clustering);
- `telegram_schemas.dfy`: `features/telegram/schemas/telegram_schemas.py`;
- `chat_functions.dfy`: `features/telegram/functions/chat_functions.py`;
- `inline_origin.dfy`:
  `features/telegram/functions/fetch_athena_inline_origin.py`;
- `inline_message_id.dfy`:
  `features/telegram/functions/resolve_inline_message_id.py`;
- `start_functions.dfy`: `features/telegram/functions/start_functions.py`;
- `message_utils.dfy`: `features/telegram/utils/message_utils.py`;
- `stickers.dfy`: `features/telegram/schemas/stickers_schemas.py`;
- `mtproto_schemas.dfy`: `features/telegram/schemas/mtproto_schemas.py`;
- `organon_node_op.dfy` and `organon_edge_op.dfy`:
  `core/organon/operations/organon_node_op.py` and `organon_edge_op.py`;
- `organon_nodes.dfy` and `organon_edges.dfy`:
  `core/organon/schemas/organon_nodes.py` and `organon_edges.py`;
- `organon_utils.dfy`: `core/organon/organon_utils.py`;
- `diskcache.dfy`: `core/system/diskcache.py`, and the key of the one
  decorated fetch in `chat_functions.py`;
- `ai_models.dfy`: `core/ai_models/__init__.py`;
- `persona.dfy`: `core/deus/schemas/persona_schemas.py`.

Three support modules model no source file of their own and hold what
several files share:

- `wrappers.dfy`: `Option`, `Result`, and the Python exception kinds;
- `text.dfy`: joining, splitting, decimal conversion, ASCII case mapping
  and replacement on strings;
- `sorting.dfy`: the stable descending sort Python's `sorted(...,
  reverse=True)` performs.

Python exceptions become `Err` values of a `Result`. Loops that update
state in the source are methods with loop invariants, proved against a
specification function. Pure code is functions, with lemmas relating them.

## Model

| member | source | states |
|---|---|---|
| Sorting.SortDesc | src/athena/features/telegram/ai_services/process.py:84-86 | the sort is a permutation of its input |
| Sorting.SortDescSorted | src/athena/features/telegram/ai_services/process.py:84-86 | the sort is in descending key order |
| Sorting.SortDescStable | src/athena/features/telegram/ai_services/process.py:84-86 | elements with equal keys keep their input order |
| Process.FallbackCount | src/athena/features/telegram/ai_services/process.py:87-89 | the larger of a tenth of the count, truncated, and 1000 |
| Process.PassingCounts | src/athena/features/telegram/ai_services/process.py:75-79 | the comprehension keeps every copy of a message scoring above 0.75 and no copy of any other |
| Process.PassingMembers | src/athena/features/telegram/ai_services/process.py:75-79 | a message passes exactly when it is in the input and scores above 0.75 |
| Process.Passing | src/athena/features/telegram/ai_services/process.py:75-79 | the specification of the comprehension: the messages scoring above 0.75, in input order; PassingCounts and PassingMembers state which messages it keeps |
| Process.SelectionWithoutFallback | src/athena/features/telegram/ai_services/process.py:75-82 | when at least a tenth pass, the selection is exactly the passing messages in input order |
| Process.SelectionWithFallback | src/athena/features/telegram/ai_services/process.py:82-90 | otherwise the selection is the first min(n, fallback count) messages of the stable descending sort by engagement |
| Process.FallbackKeepsSmallBatches | src/athena/features/telegram/ai_services/process.py:82-90 | the fallback keeps the whole batch up to 1000 messages, exactly 1000 up to 10000, and a tenth above |
| Process.SelectionEmptyIff | src/athena/features/telegram/ai_services/process.py:75-93 | the selection is empty exactly when the input is |
| Process.SelectImportant | src/athena/features/telegram/ai_services/process.py:75-93 | the specification of `select_important_messages`: the passing messages, or the fallback from the descending sort; SelectionWithoutFallback, SelectionWithFallback, FallbackKeepsSmallBatches and SelectionEmptyIff state its outcome |
| Process.EmbeddingText | src/athena/features/telegram/ai_services/process.py:125-132 | the text is the body, then a newline and the title when it is non-empty, then a newline and the description when it is non-empty |
| Process.Texts | src/athena/features/telegram/ai_services/process.py:125-132 | one embedding text per message, in order |
| Process.Times | src/athena/features/telegram/ai_services/process.py:122-123 | one timestamp per message, in order |
| Process.BatchesFlatten | src/athena/features/telegram/ai_services/process.py:117-120 | the batches concatenate back to the selection |
| Process.BatchesSizes | src/athena/features/telegram/ai_services/process.py:117-120 | every batch is non-empty and at most the batch size, and all but the last are full |
| Process.BatchTextsAreBatches | src/athena/features/telegram/ai_services/process.py:117-132 | the texts sent for batch i are the embedding texts of the i-th 256-message slice |
| Process.EmbedCallsFollowBatches | src/athena/features/telegram/ai_services/process.py:134-144 | the calls made are a prefix of the batch texts, all of them on success; on failure only the last call failed, so each batch is attempted once |
| Process.EmbedVectorsPerMessage | src/athena/features/telegram/ai_services/process.py:117-144 | when each call returns one vector per text, there is one vector per message |
| Process.Combine | src/athena/features/telegram/ai_services/process.py:147-151 | row i joins vector i with timestamp i |
| Process.EmbeddingTexts | src/athena/features/telegram/ai_services/process.py:121-132 | the inner loop builds exactly the embedding texts of the batch |
| Process.GetModelEmbeddings | src/athena/features/telegram/ai_services/process.py:108-153 | the batch loop makes exactly the calls of the batch plan and returns the rows or the first error |
| Process.MessageTexts | src/athena/features/telegram/ai_services/process.py:95 | the i-th text is the i-th message body |
| Process.Zip | src/athena/features/telegram/ai_services/process.py:105 | pairs the i-th elements, as long as the shorter list |
| Process.AnalyzeMessages | src/athena/features/telegram/ai_services/process.py:71-106 | returns the analysis function's result; the batch_size argument plays no part |
| Process.AnalysisPairs | src/athena/features/telegram/ai_services/process.py:92-106 | the pair list is empty exactly when the input is; pair i holds the i-th selected message and the i-th importance score |
| Process.Firsts | src/athena/features/telegram/ai_services/process.py:163-167 | the unpacked messages, in pair order |
| Process.ClusterMessages | src/athena/features/telegram/ai_services/process.py:155-197 | the method returns exactly the clustering function's result |
| Process.GroupByLabel | src/athena/features/telegram/ai_services/process.py:182-186 | groups hold the pairs of each non-noise label in input order, keyed in first-seen order |
| Process.PickRepresentatives | src/athena/features/telegram/ai_services/process.py:189-197 | one representative list per group, in first-seen label order |
| Process.FirstSeenNotNoise | src/athena/features/telegram/ai_services/process.py:184-186 | no cluster comes from noise label -1 |
| Process.FirstSeenMembers | src/athena/features/telegram/ai_services/process.py:182-190 | the cluster labels are exactly the non-noise labels that occur |
| Process.FirstSeenOrder | src/athena/features/telegram/ai_services/process.py:182-190 | the cluster labels are distinct and in order of first appearance |
| Process.MembersOf | src/athena/features/telegram/ai_services/process.py:184-186 | every grouped pair carries the group's label, and every occurring label has a non-empty group |
| Process.TopTwoShape | src/athena/features/telegram/ai_services/process.py:192-195 | at most two messages, the first of highest importance, in descending order, drawn from the group |
| Process.TopTwoTies | src/athena/features/telegram/ai_services/process.py:192-195 | on a tie the two kept are the first two of that score in input order |
| Process.ClusterOutput | src/athena/features/telegram/ai_services/process.py:182-197 | one cluster per distinct non-noise label, each with one or two messages carrying that label |
| Process.RepresentativeOf | src/athena/features/telegram/ai_services/process.py:189-197 | a cluster's representatives are one or two messages, each carrying the cluster's label |
| Process.ClusterGuards | src/athena/features/telegram/ai_services/process.py:163-170 | an empty pair list raises at the unpack; a non-empty one with an empty matrix gives no clusters |
| TelegramSchemas.MakePeerInfo | src/athena/features/telegram/schemas/telegram_schemas.py:22-30 | the validator sets is_private for PRIVATE and BOT peers and for peers without a username, and otherwise keeps the value given |
| TelegramSchemas.DeepLinkExists | src/athena/features/telegram/schemas/telegram_schemas.py:32-35 | false exactly for PRIVATE and BOT peers |
| TelegramSchemas.PrivateLinkId | src/athena/features/telegram/schemas/telegram_schemas.py:38-43 | channels and supergroups drop the first three characters of the decimal id and re-parse it; other ids are made non-negative |
| TelegramSchemas.DeepLink | src/athena/features/telegram/schemas/telegram_schemas.py:37-47 | private peers link to https://t.me/c/ plus the private id, and fail when that id does not parse; public peers link to https://t.me/ plus the username |
| TelegramSchemas.ButtonLink | src/athena/features/telegram/schemas/telegram_schemas.py:49-58 | always equals the deep link |
| TelegramSchemas.ButtonText | src/athena/features/telegram/schemas/telegram_schemas.py:60-67 | "Back to chat with" the name for PRIVATE and BOT peers, "Back to" the name otherwise |
| TelegramSchemas.EntityName | src/athena/features/telegram/schemas/telegram_schemas.py:69-73 | the name when it is non-empty, otherwise the username |
| TelegramSchemas.Hyperlink | src/athena/features/telegram/schemas/telegram_schemas.py:75-79 | an anchor around the button link and the entity name; fails exactly when the button link does |
| TelegramSchemas.PublicPeerLink | src/athena/features/telegram/schemas/telegram_schemas.py:22-47 | a peer left public has a username and is not a direct chat, and links to https://t.me/ plus that username |
| TelegramSchemas.MediaScore | src/athena/features/telegram/schemas/telegram_schemas.py:209-221 | 1, 2, 3, 4 for document, photo, video, audio; 0 exactly for other media or none |
| TelegramSchemas.ChatMessageOf | src/athena/features/telegram/schemas/telegram_schemas.py:182-256 | a message is extracted exactly when it has a sender and text; the mention and link flags say some entity has that type, and the reaction count is the sum of all counts; the sender's name, username and flags and the link preview's title and description are copied |
| TelegramSchemas.ExtractChatMessageInfo | src/athena/features/telegram/schemas/telegram_schemas.py:223-235 | the loops over entities and reactions compute exactly the extraction above |
| TelegramSchemas.LengthScore | src/athena/features/telegram/schemas/telegram_schemas.py:123-139 | 0.1 below a combined length of 20, at most 1.0 otherwise |
| TelegramSchemas.Clip | src/athena/features/telegram/schemas/telegram_schemas.py:177 | the result lies in the bounds and equals the input when the input does |
| TelegramSchemas.EngagementScore | src/athena/features/telegram/schemas/telegram_schemas.py:170-179 | the score always lies in [0, 1] |
| TelegramSchemas.ShortMessageIgnoresLength | src/athena/features/telegram/schemas/telegram_schemas.py:135-136 | a message shorter than 20 characters scores the same whatever the logarithm is |
| TelegramSchemas.SelfPenaltyNeverRaises | src/athena/features/telegram/schemas/telegram_schemas.py:150-152 | setting is_self never raises the score |
| TelegramSchemas.BotPenaltyNeverRaises | src/athena/features/telegram/schemas/telegram_schemas.py:150-153 | setting is_bot never raises the score |
| TelegramSchemas.PenaltyLowersScore | src/athena/features/telegram/schemas/telegram_schemas.py:172-177 | the normalisation and clip are monotone in the raw sum |
| TelegramSchemas.SelfPenaltyIsStrict | src/athena/features/telegram/schemas/telegram_schemas.py:150-177 | with the numerics in their ranges, setting is_self strictly lowers the score |
| TelegramSchemas.StrictPenaltyLowersScore | src/athena/features/telegram/schemas/telegram_schemas.py:172-177 | five points off a raw sum in [-3, 4.1] strictly lower the clipped score |
| TelegramSchemas.RawScoreBounds | src/athena/features/telegram/schemas/telegram_schemas.py:150-168 | without is_self, the raw sum lies in [-3, 4.1] |
| ChatFunctions.SummaryUsername | src/athena/features/telegram/functions/chat_functions.py:31-36 | the first of usernames when that list is non-empty, else username, else None |
| ChatFunctions.SummaryName | src/athena/features/telegram/functions/chat_functions.py:40 | the title when it is non-empty, else the first name |
| ChatFunctions.ResolvePeerIdForSummary | src/athena/features/telegram/functions/chat_functions.py:38-43 | fails validation exactly when there is no name; otherwise the peer info built from id, name, username and type |
| ChatFunctions.NoUsernameIsPrivate | src/athena/features/telegram/functions/chat_functions.py:31-43 | a chat without any username comes back private and without a username |
| ChatFunctions.Eligible | src/athena/features/telegram/functions/chat_functions.py:70-78 | a history entry is kept exactly when it has text and extraction succeeds, and then as the extracted message |
| ChatFunctions.Window | src/athena/features/telegram/functions/chat_functions.py:53-58 | at most 1000 entries, a prefix of the history |
| ChatFunctions.FetchMessagesFromLastXHours | src/athena/features/telegram/functions/chat_functions.py:47-81 | the collection loop returns exactly the collection function's result |
| ChatFunctions.Collect | src/athena/features/telegram/functions/chat_functions.py:67-79 | the specification of the collection loop: stop at the first entry older than the cut-off once more than 100 are collected; CollectIsPrefix and EligibleMembers state what it keeps |
| ChatFunctions.LastHours | src/athena/features/telegram/functions/chat_functions.py:47-81 | the specification of `fetch_messages_from_last_x_hours`: collection over the first 1000 entries from now minus the hours; FetchMessagesFromLastXHours is proved against it |
| ChatFunctions.FetchLastXMessagesFromPeer | src/athena/features/telegram/functions/chat_functions.py:84-105 | the loop keeps exactly the eligible entries of the first limit entries, in order |
| ChatFunctions.LastMessages | src/athena/features/telegram/functions/chat_functions.py:84-105 | the specification of `fetch_last_x_messages_from_peer`: the eligible entries of the first limit entries; FetchLastXMessagesFromPeer is proved against it and SameFilterWithoutCutoff relates it to LastHours |
| ChatFunctions.CollectIsPrefix | src/athena/features/telegram/functions/chat_functions.py:67-79 | the collected messages are a prefix of all eligible ones; they stop short only after more than 100 are collected; with nothing older than the cut-off all eligible ones are kept |
| ChatFunctions.EnoughEligibleEnoughCollected | src/athena/features/telegram/functions/chat_functions.py:55-79 | when at least 101 entries are eligible, at least 101 are collected |
| ChatFunctions.SameFilterWithoutCutoff | src/athena/features/telegram/functions/chat_functions.py:90-105 | without entries older than the cut-off, both fetches return the same messages |
| ChatFunctions.EligibleMembers | src/athena/features/telegram/functions/chat_functions.py:70-78 | every collected message is the extraction of a history entry with text |
| InlineOrigin.ExtractPeerId | src/athena/features/telegram/functions/fetch_athena_inline_origin.py:76-87 | users give user_id, chats give the negated chat_id, channels the integer spelled -100 then channel_id, anything else None |
| InlineOrigin.ChannelDigits | src/athena/features/telegram/functions/fetch_athena_inline_origin.py:85 | the digits after the minus sign start with 1 and are all decimal digits |
| InlineOrigin.ChannelIdValue | src/athena/features/telegram/functions/fetch_athena_inline_origin.py:84-85 | a channel id is the negated value of those digits |
| InlineOrigin.ChannelIdRoundTrip | src/athena/features/telegram/functions/fetch_athena_inline_origin.py:84-85 | dropping the first three characters of the channel id and re-parsing gives channel_id back |
| InlineOrigin.ChannelDeepLink | src/athena/features/telegram/functions/fetch_athena_inline_origin.py:84-85 | a channel peer id turned into a private link links to https://t.me/c/ plus channel_id |
| InlineOrigin.FetchRecentDraftAthenaMentions | src/athena/features/telegram/functions/fetch_athena_inline_origin.py:9-54 | the scan returns exactly the draft-mention function's result, None on any error |
| InlineOrigin.ScanDrafts | src/athena/features/telegram/functions/fetch_athena_inline_origin.py:30-50 | the specification of the loop over updates: skip what is not a fresh draft mention, return the first match's peer id, fail on a peer the extractor rejects; ScanFindsFirstMatch states its result |
| InlineOrigin.ScanFindsFirstMatch | src/athena/features/telegram/functions/fetch_athena_inline_origin.py:30-50 | the result is the peer of the first update that is a fresh draft with a non-zero peer whose lower-cased text starts with the username; None when none matches |
| InlineOrigin.UpperCaseUsernameNeverMatches | src/athena/features/telegram/functions/fetch_athena_inline_origin.py:45-47 | a username with an upper-case letter never matches, since only the draft text is lower-cased |
| InlineOrigin.WaitUntilFreshMentionFound | src/athena/features/telegram/functions/fetch_athena_inline_origin.py:57-73 | at most five fetches; the first truthy id is returned, else None after five falsy fetches |
| InlineMessageId.Sextet | src/athena/features/telegram/functions/resolve_inline_message_id.py:8 | every decoded character carries six bits, and the pad character carries none |
| InlineMessageId.EncodeChar | src/athena/features/telegram/functions/resolve_inline_message_id.py:8 | the encoding alphabet is the inverse of the decoder's on every 6-bit value |
| InlineMessageId.Encode | src/athena/features/telegram/functions/resolve_inline_message_id.py:7-8 | unpadded base64url text is ASCII, so the decoder accepts it |
| InlineMessageId.EncodeLength | src/athena/features/telegram/functions/resolve_inline_message_id.py:7-8 | unpadded text of n bytes has length 0, 2 or 3 modulo 4 as n is 0, 1 or 2 modulo 3 |
| InlineMessageId.DecodeEncoded | src/athena/features/telegram/functions/resolve_inline_message_id.py:8 | decoding encoded bytes followed by at least the needed pad characters gives the bytes back |
| InlineMessageId.PadsSuffice | src/athena/features/telegram/functions/resolve_inline_message_id.py:8 | both len mod 4 and (4 - len mod 4) mod 4 pad characters are at least as many as decoding needs |
| InlineMessageId.TelegramDecodeRoundTrip | src/athena/features/telegram/functions/resolve_inline_message_id.py:7-8 | the len mod 4 padding decodes every unpadded encoding back to its bytes, as does the standard padding |
| InlineMessageId.LoneCharacterFails | src/athena/features/telegram/functions/resolve_inline_message_id.py:7-8 | a single data character decodes to an error whatever padding follows |
| InlineMessageId.A2B | src/athena/features/telegram/functions/resolve_inline_message_id.py:8 | the specification of the base64 decoder's character loop, quartet by quartet; DecodeEncoded and LoneCharacterFails state what it accepts and returns |
| InlineMessageId.UrlsafeB64Decode | src/athena/features/telegram/functions/resolve_inline_message_id.py:8 | `urlsafe_b64decode`: non-ASCII input raises, the rest goes through the decoder; Encode and TelegramDecodeRoundTrip state that encoded bytes come back |
| InlineMessageId.DecodeTelegramBase64 | src/athena/features/telegram/functions/resolve_inline_message_id.py:7-8 | `decode_telegram_base64` appends len mod 4 pad characters and decodes; TelegramDecodeRoundTrip states the round trip |
| InlineMessageId.Unsigned | src/athena/features/telegram/functions/resolve_inline_message_id.py:19-32 | a little-endian unsigned reading of n bytes is below 256^n |
| InlineMessageId.Signed | src/athena/features/telegram/functions/resolve_inline_message_id.py:19-32 | a two's-complement reading of n bytes lies in the signed range |
| InlineMessageId.PackUnsigned | src/athena/features/telegram/functions/resolve_inline_message_id.py:19-32 | packs a value into exactly n little-endian bytes |
| InlineMessageId.Pack | src/athena/features/telegram/functions/resolve_inline_message_id.py:19-32 | packs an in-range signed value into exactly n bytes |
| InlineMessageId.UnsignedPack | src/athena/features/telegram/functions/resolve_inline_message_id.py:19-32 | reading packed bytes back as unsigned gives the value |
| InlineMessageId.PackSigned | src/athena/features/telegram/functions/resolve_inline_message_id.py:19-32 | reading a packed signed field at its offset, with anything around it, gives the value back |
| InlineMessageId.ResolveInlineMessageId | src/athena/features/telegram/functions/resolve_inline_message_id.py:11-52 | fails exactly when decoding fails, since the decode sits outside the try; a record exactly for decoded lengths 16, 20 and 24 |
| InlineMessageId.Layout | src/athena/features/telegram/functions/resolve_inline_message_id.py:17-38 | the decoded bytes give an id record exactly when there are 16, 20 or 24 of them |
| InlineMessageId.Resolve24 | src/athena/features/telegram/functions/resolve_inline_message_id.py:18-22 | 24 bytes give dc id and message id as int32 at 0 and 4, chat id and access hash as int64 at 8 and 16 |
| InlineMessageId.Resolve20 | src/athena/features/telegram/functions/resolve_inline_message_id.py:24-29 | 20 bytes give dc id and message id, drop bytes 8-11, read the access hash at 12 and have no chat id |
| InlineMessageId.Resolve16 | src/athena/features/telegram/functions/resolve_inline_message_id.py:31-34 | 16 bytes give dc id, message id and chat id at 8, and no access hash |
| InlineMessageId.ResolveOtherLength | src/athena/features/telegram/functions/resolve_inline_message_id.py:35-38 | any other decoded length gives None |
| StartFunctions.ResolveStartCommand | src/athena/features/telegram/functions/start_functions.py:29-36 | the command is a summary request exactly when it has a second token starting with "summary" |
| Text.ParseInt | src/athena/features/telegram/functions/start_functions.py:90 | Python's `int()` on a string: surrounding whitespace stripped, an optional sign, digit groups; ParseIntToString states that it reads back every printed integer |
| Text.ParseIntToString | src/athena/features/telegram/functions/start_functions.py:90 | int(str(i)) == i for every integer |
| StartFunctions.RequestedUserId | src/athena/features/telegram/functions/start_functions.py:90 | the requested id is the integer after the first "_" of the second token, and absent when a token or the integer is missing |
| StartFunctions.CheckSummaryRequest | src/athena/features/telegram/functions/start_functions.py:88-94 | a malformed request takes the ValueError/IndexError branch; a well-formed one is authorised exactly when the id matches the sender |
| StartFunctions.SummaryLinkRoundTrip | src/athena/features/telegram/functions/start_functions.py:29-94 | the link "summary_<id>" is recognised and authorises exactly the user <id> |
| StartFunctions.ParseIds | src/athena/features/telegram/functions/start_functions.py:192 | parsing succeeds exactly when every id is an integer, giving each id's value in order |
| StartFunctions.Ascending | src/athena/features/telegram/functions/start_functions.py:193 | sorting keeps the same ids |
| StartFunctions.AscendingSorted | src/athena/features/telegram/functions/start_functions.py:193 | sorted ids are in ascending order |
| StartFunctions.TopicIds | src/athena/features/telegram/functions/start_functions.py:190-193 | without deep links a topic links to no id |
| StartFunctions.IdsPerTopic | src/athena/features/telegram/functions/start_functions.py:187-193 | one id list per topic |
| StartFunctions.TopicLinks | src/athena/features/telegram/functions/start_functions.py:195-199 | the k-th id of a topic gets label first + k |
| StartFunctions.LinkGroup | src/athena/features/telegram/functions/start_functions.py:201-204 | the group is empty exactly when there are no links, and otherwise the comma-joined links in italics |
| StartFunctions.RenderTopicLinks | src/athena/features/telegram/functions/start_functions.py:195-199 | the inner loop renders each id's hyperlink in order and advances the counter by the number of ids |
| StartFunctions.CreateDetailedCommunitySummaryResponse | src/athena/features/telegram/functions/start_functions.py:171-215 | returns the header followed by the blockquote of one spoiler line per topic, labels counted across topics |
| StartFunctions.DetailedSummary | src/athena/features/telegram/functions/start_functions.py:171-215 | the specification of the response: header, then the blockquote of the spoiler lines; CreateDetailedCommunitySummaryResponse is proved against it |
| StartFunctions.BuildSpoilers | src/athena/features/telegram/functions/start_functions.py:183-209 | the topic loop fails with the first failing topic's error, and otherwise yields each topic's line numbered from one global counter |
| StartFunctions.Spoilers | src/athena/features/telegram/functions/start_functions.py:183-209 | one spoiler line per topic |
| StartFunctions.SpoilerLines | src/athena/features/telegram/functions/start_functions.py:183-209 | line k is topic k's spoiler, holding topic k's links |
| StartFunctions.TopicLine | src/athena/features/telegram/functions/start_functions.py:188-209 | one pass builds the topic's line with its links numbered from the current counter, which it advances by the number of ids |
| StartFunctions.LabelsAreConsecutive | src/athena/features/telegram/functions/start_functions.py:183-199 | labels run 1, 2, 3, … across all topics, one per id, and link the ids in topic order |
| StartFunctions.TopicIdsAscending | src/athena/features/telegram/functions/start_functions.py:192-193 | a topic's linked ids are its parsed ids, in ascending order |
| StartFunctions.GroupsFollowIds | src/athena/features/telegram/functions/start_functions.py:190-199 | each topic has as many links as message ids with deep links, and none without |
| StartFunctions.GroupIffLinked | src/athena/features/telegram/functions/start_functions.py:190-204 | a topic gets a link group exactly when deep links exist and it has a message id |
| MessageUtils.EditCount | src/athena/features/telegram/utils/message_utils.py:49 | a text longer than the first chunk gets the least number of 200-character edits that reach its end, and a short one none |
| MessageUtils.EditText | src/athena/features/telegram/utils/message_utils.py:49-54 | every edit carries a prefix of the text |
| MessageUtils.Edits | src/athena/features/telegram/utils/message_utils.py:49-54 | one edit per offset of the loop, the k-th carrying the text up to 100 + 200(k+1) characters |
| MessageUtils.StreamingMessageHelper | src/athena/features/telegram/utils/message_utils.py:23-55 | a text of at most 100 characters is sent once and never edited; a longer one is sent as its first 100 characters and then edited as planned |
| MessageUtils.ShortTextNoEdits | src/athena/features/telegram/utils/message_utils.py:23-31 | short texts get no edit |
| MessageUtils.LastEditIsWholeText | src/athena/features/telegram/utils/message_utils.py:49-54 | the last edit of a long text carries the whole text |
| MessageUtils.EditsGrow | src/athena/features/telegram/utils/message_utils.py:43-54 | each edit extends the first message, and every edit is strictly longer than the one before |
| Stickers.ValidateStickers | src/athena/features/telegram/schemas/stickers_schemas.py:86-101 | validation raises exactly when every use-case list is absent or empty, and otherwise passes the data through |
| Stickers.GetSticker | src/athena/features/telegram/schemas/stickers_schemas.py:121-133 | None exactly when the use-case list is empty; otherwise a sticker of that list with the set's name, familiarity and gender |
| Stickers.GetStickerSet | src/athena/features/telegram/schemas/stickers_schemas.py:145-152 | the first set with the requested name, and a ValueError exactly when no set has it |
| Stickers.Selection | src/athena/features/telegram/schemas/stickers_schemas.py:162-170 | the sets of the requested familiarity, or all sets when none is requested |
| Stickers.GetRandomSet | src/athena/features/telegram/schemas/stickers_schemas.py:154-171 | a set of the requested familiarity, and an IndexError exactly when none has it |
| Stickers.GetRandomSticker | src/athena/features/telegram/schemas/stickers_schemas.py:173-188 | at most three draws; an empty selection raises IndexError on the first draw, None comes only after all three, and a hit is a sticker of the use case from a set of the requested familiarity |
| Stickers.BuiltinStickersValid | src/athena/features/telegram/schemas/stickers_schemas.py:195-223 | every built-in sticker collection passes validation |
| Stickers.BuiltinSelections | src/athena/features/telegram/schemas/stickers_schemas.py:225-252 | high familiarity selects only MiladyWO, medium the other two, low none |
| Stickers.BuiltinSetsComplete | src/athena/features/telegram/schemas/stickers_schemas.py:225-252 | every built-in set has a familiarity and a gender |
| MtprotoSchemas.FirstUsername | src/athena/features/telegram/schemas/mtproto_schemas.py:54-59 | the first of the listed usernames when there is one, and otherwise the single username |
| MtprotoSchemas.FlagOrFalse | src/athena/features/telegram/schemas/mtproto_schemas.py:63-67 | a missing flag reads as false |
| MtprotoSchemas.FromUser | src/athena/features/telegram/schemas/mtproto_schemas.py:51-79 | copies id and names, picks the username, reads absent flags as false, and never marks a bot |
| MtprotoSchemas.BotUserNotMarked | src/athena/features/telegram/schemas/mtproto_schemas.py:48-79 | a bot user converts with is_bot false, since the flag is never copied |
| MtprotoSchemas.FromChat | src/athena/features/telegram/schemas/mtproto_schemas.py:92-106 | copies id, title, date and participant count; an absent creator flag reads as false |
| MtprotoSchemas.FromChannel | src/athena/features/telegram/schemas/mtproto_schemas.py:125-156 | fails validation exactly when the participant count is missing; otherwise copies the fields and reads absent flags as false |
| MtprotoSchemas.FromCategory | src/athena/features/telegram/schemas/mtproto_schemas.py:179-191 | every category other than the five supported ones raises ValueError("Unsupported category: ...") naming the category class as `<class 'pyrogram.raw.types.<module>.<Type>'>`, since the caller passes the type of the entry's category |
| MtprotoSchemas.FromCategoryBijective | src/athena/features/telegram/schemas/mtproto_schemas.py:179-191 | the five supported categories map one-to-one onto the five ranking categories; every other one raises |
| MtprotoSchemas.GetChatById | src/athena/features/telegram/schemas/mtproto_schemas.py:229-252 | the chat search answers from the first chat with the id, and None when a chat cannot be converted |
| MtprotoSchemas.ChatById | src/athena/features/telegram/schemas/mtproto_schemas.py:237-248 | the specification of the chat search: the conversion of the first chat with the id, None when none has it; ChatByIdFirst states this and GetChatById is proved against it |
| MtprotoSchemas.ChatByIdFirst | src/athena/features/telegram/schemas/mtproto_schemas.py:237-248 | the lookup's answer is the conversion of the first chat with the id, and None when no chat has it |
| MtprotoSchemas.UserById | src/athena/features/telegram/schemas/mtproto_schemas.py:254-271 | a found user has the requested id |
| MtprotoSchemas.GetUserById | src/athena/features/telegram/schemas/mtproto_schemas.py:254-271 | the user search returns the first User with the id, skipping empty users |
| MtprotoSchemas.UserByIdFound | src/athena/features/telegram/schemas/mtproto_schemas.py:262-267 | a user is found exactly when some User in the list has the id |
| MtprotoSchemas.PeerIdAsWritten | src/athena/features/telegram/schemas/mtproto_schemas.py:290 | as written, only a user peer with a non-zero id yields an id; every other peer raises AttributeError |
| MtprotoSchemas.PeerIdIntended | src/athena/features/telegram/schemas/mtproto_schemas.py:290 | the peer's own id, whichever kind of peer it is |
| MtprotoSchemas.FromTopPeers | src/athena/features/telegram/schemas/mtproto_schemas.py:224-356 | the nested loops file each resolved peer into its category's list, and every entry takes the last category and count |
| MtprotoSchemas.AddTopPeer | src/athena/features/telegram/schemas/mtproto_schemas.py:292-317 | one resolved peer is filed as the filing rule says: into its own category's list when found, otherwise nowhere |
| MtprotoSchemas.FilePeers | src/athena/features/telegram/schemas/mtproto_schemas.py:287-321 | the inner loop gives the buckets the peer scan specifies, or the error of the first peer whose id cannot be read |
| MtprotoSchemas.RankingSharesLastCategory | src/athena/features/telegram/schemas/mtproto_schemas.py:324-348 | all five entries carry the category and total of the last category processed |
| MtprotoSchemas.Ranking | src/athena/features/telegram/schemas/mtproto_schemas.py:224-356 | the specification of `from_top_peers`: scan every category, then label the five lists with the last category; FromTopPeers is proved against it and RankingSharesLastCategory and IntendedRanking state its outcome |
| MtprotoSchemas.ScanPeersOneList | src/athena/features/telegram/schemas/mtproto_schemas.py:287-318 | one category's peers go only to that category's list, and the user lists receive only users |
| MtprotoSchemas.ScanPeers | src/athena/features/telegram/schemas/mtproto_schemas.py:287-318 | the specification of one category's inner loop: each peer is read and filed, failing at the first failing read; FilePeers is proved against it and ScanPeersOneList states where peers go |
| MtprotoSchemas.AsWrittenRejectsChatPeers | src/athena/features/telegram/schemas/mtproto_schemas.py:287-290 | as written, one chat or channel peer anywhere makes the whole conversion raise AttributeError |
| MtprotoSchemas.AsWrittenPeersError | src/athena/features/telegram/schemas/mtproto_schemas.py:287-322 | as written, the only error the peer loop raises is AttributeError |
| MtprotoSchemas.IntendedScanSucceeds | src/athena/features/telegram/schemas/mtproto_schemas.py:281-322 | with the intended peer id the loops never raise |
| MtprotoSchemas.IntendedRanking | src/athena/features/telegram/schemas/mtproto_schemas.py:224-356 | with the intended peer id the ranking is built exactly when there is a last category and it is supported |
| MtprotoSchemas.CheckIfAllBoolFalse | src/athena/features/telegram/schemas/mtproto_schemas.py:411-427 | as written, true exactly when all nine flags are set |
| MtprotoSchemas.AllBoolFalse | src/athena/features/telegram/schemas/mtproto_schemas.py:411-427 | true exactly when no flag is set, as the name and docstring ask |
| MtprotoSchemas.CheckIfAllBoolFalseInverted | src/athena/features/telegram/schemas/mtproto_schemas.py:411-427 | a folder with no flag set is reported as not all-false, and one with every flag set as all-false |
| MtprotoSchemas.EntryOf | src/athena/features/telegram/schemas/mtproto_schemas.py:459-471 | chat, channel and user peers become one entry carrying the pinned flag; other peers none |
| MtprotoSchemas.GetEntry | src/athena/features/telegram/schemas/mtproto_schemas.py:448-472 | no peers give no entries; otherwise one entry per convertible peer, in order |
| MtprotoSchemas.EntriesShape | src/athena/features/telegram/schemas/mtproto_schemas.py:448-472 | every entry carries the requested pinned flag, and there is one per peer when all peers are convertible |
| MtprotoSchemas.MakeFolder | src/athena/features/telegram/schemas/mtproto_schemas.py:376 | the folder fails validation exactly when its title is longer than 12 characters |
| MtprotoSchemas.FromDialogFilterAsWritten | src/athena/features/telegram/schemas/mtproto_schemas.py:441-504 | as written, the included peers are always empty, since they are passed under a name the model does not have |
| MtprotoSchemas.FromDialogFilter | src/athena/features/telegram/schemas/mtproto_schemas.py:441-504 | the default filter gives folder 0 "Default"; others fail exactly for long titles and keep id, title, included and pinned peers; a custom filter keeps its flags and emoticon, a chat list gets no flags and no emoticon |
| MtprotoSchemas.IncludedPeersDropped | src/athena/features/telegram/schemas/mtproto_schemas.py:485 | a folder with one included chat loses it as written and keeps it once the field is named correctly |
| MtprotoSchemas.AsWrittenDiffersOnlyInIncluded | src/athena/features/telegram/schemas/mtproto_schemas.py:474-504 | apart from the included peers, both conversions agree |
| OrganonNodeOp.Assignments | src/athena/core/organon/operations/organon_node_op.py:217-224 | one "name: $name" entry per property, in definition order |
| OrganonNodeOp.GenerateCreateNodeQuery | src/athena/core/organon/operations/organon_node_op.py:190-241 | fails exactly for unregistered types; otherwise the MERGE query whose create and match lists are built entry by entry and come out equal |
| OrganonNodeOp.FetchNodeQuery | src/athena/core/organon/operations/organon_node_op.py:244-268 | fails with the unsupported-type error exactly for unregistered types |
| OrganonNodeOp.FetchNodesQuery | src/athena/core/organon/operations/organon_node_op.py:271-296 | fails with the unsupported-type error exactly for unregistered types |
| OrganonNodeOp.GetCreateNodeQuery | src/athena/core/organon/operations/organon_node_op.py:331-347 | returns the create query of the generator |
| OrganonNodeOp.GetFetchNodeQuery | src/athena/core/organon/operations/organon_node_op.py:351-367 | returns the single-node fetch query of the generator |
| OrganonNodeOp.GetFetchNodesQuery | src/athena/core/organon/operations/organon_node_op.py:371-387 | returns the many-node fetch query of the generator |
| OrganonNodeOp.RegistryWellFormed | src/athena/core/organon/operations/organon_node_op.py:80-178 | every definition is keyed by its own type, starts with the five common properties and uses its type's lower-cased initial as identifier |
| OrganonNodeOp.GeneratorsAgreeOnErrors | src/athena/core/organon/operations/organon_node_op.py:207-208 | the three generators fail for exactly the same types, with the same error |
| OrganonNodeOp.RequiredIrrelevant | src/athena/core/organon/operations/organon_node_op.py:218-224 | the required flag has no effect on the generated text |
| OrganonNodeOp.CreateQueryShape | src/athena/core/organon/operations/organon_node_op.py:230-239 | the create query MERGEs the typed node on its uuid, sets the same list on create and on match, and returns the identifier |
| OrganonNodeOp.CreateQueryBody | src/athena/core/organon/operations/organon_node_op.py:230-237 | the query body before RETURN ends with a line break |
| OrganonNodeOp.FetchMatchesCreate | src/athena/core/organon/operations/organon_node_op.py:244-296 | the single fetch matches the very pattern the create query MERGEs; the many-node fetch filters the same label by $uuids |
| OrganonEdgeOp.Initial | src/athena/core/organon/operations/organon_edge_op.py:152-154 | an identifier is the one lower-cased first character of its name |
| OrganonEdgeOp.ExtraAssignments | src/athena/core/organon/operations/organon_edge_op.py:167-168 | one "r.name = expression" entry per extra property, in order |
| OrganonEdgeOp.EdgeQueryAsWritten | src/athena/core/organon/operations/organon_edge_op.py:145-180 | the specification of the generator as written: the base query with the literal-target replacement applied; its properties are stated by GenerateEdgeQueryAsWritten, AsWrittenNeverSplices and AsWrittenQueryShape |
| OrganonEdgeOp.EdgeQuery | src/athena/core/organon/operations/organon_edge_op.py:145-180 | the specification of the intended generator, with the extra properties appended to ON MATCH SET; its properties are stated by GenerateEdgeQuery, EdgeQueryErrors and EdgeQueryShape |
| OrganonEdgeOp.BuildExtraProps | src/athena/core/organon/operations/organon_edge_op.py:166-168 | the append loop yields exactly the extra assignments, in order |
| OrganonEdgeOp.GenerateEdgeQueryAsWritten | src/athena/core/organon/operations/organon_edge_op.py:107-180 | as written, fails exactly for unregistered triples and otherwise returns the plain query, whatever the extra properties |
| OrganonEdgeOp.GenerateEdgeQuery | src/athena/core/organon/operations/organon_edge_op.py:107-180 | the query with the extra properties appended to the ON MATCH line |
| OrganonEdgeOp.GetEdgeQuery | src/athena/core/organon/operations/organon_edge_op.py:184-205 | returns the generator's query as written, and fails exactly for unregistered triples |
| OrganonEdgeOp.RegistryKeysMatch | src/athena/core/organon/operations/organon_edge_op.py:71-90 | every registry key is its definition's own triple, with one of the nine relationship types |
| OrganonEdgeOp.EdgeQueryErrors | src/athena/core/organon/operations/organon_edge_op.py:145-147 | generation fails exactly for triples outside the registry, with the unsupported-definition error |
| OrganonEdgeOp.IdentifiersCollide | src/athena/core/organon/operations/organon_edge_op.py:84-89 | identifiers need not be distinct: two registered triples reuse "r" |
| OrganonEdgeOp.AsWrittenNeverSplices | src/athena/core/organon/operations/organon_edge_op.py:172-175 | the replacement's target holds a literal "{rel_id}" that no generated query contains, so it changes nothing |
| OrganonEdgeOp.AsWrittenAgreesWithoutExtras | src/athena/core/organon/operations/organon_edge_op.py:165-175 | for triples without extra properties the code as written and the intended query agree |
| OrganonEdgeOp.PostedInCountLost | src/athena/core/organon/operations/organon_edge_op.py:79-81 | for (User, Room, POSTED_IN) only the intended query increments the count on match |
| OrganonEdgeOp.EdgeQueryShape | src/athena/core/organon/operations/organon_edge_op.py:157-178 | every query matches both endpoints by uuid, MERGEs the typed relationship and ends by returning the three identifiers |
| OrganonEdgeOp.AsWrittenQueryShape | src/athena/core/organon/operations/organon_edge_op.py:157-178 | the query as written also matches both endpoints by uuid, MERGEs the typed relationship and returns the three identifiers |
| OrganonNodes.FromInt | src/athena/core/organon/schemas/organon_nodes.py:85-100 | every rejected argument raises ValueError |
| OrganonNodes.FromIntInvertsValue | src/athena/core/organon/schemas/organon_nodes.py:85-100 | accepts exactly the four values and inverts each member's value; True is GLOBAL, False and non-integers are rejected |
| OrganonNodes.FromStringAlwaysRaises | src/athena/core/organon/schemas/organon_nodes.py:74-82 | as written, every input raises ValueError, since an upper-cased string never equals a lower-case name |
| OrganonNodes.FromStringAsWritten | src/athena/core/organon/schemas/organon_nodes.py:61-82 | the specification of `from_string` as written: a non-string raises, an upper-cased name is looked up among lower-case names; FromStringAlwaysRaises states the outcome |
| OrganonNodes.FromString | src/athena/core/organon/schemas/organon_nodes.py:61-82 | the specification of the intended case-insensitive lookup; FromStringFindsMembers states that it finds every member |
| OrganonNodes.FromStringFindsMembers | src/athena/core/organon/schemas/organon_nodes.py:61-82 | the intended lookup finds every member by its name in upper or lower case; the code as written finds none |
| OrganonNodes.UpperHasNoLowercase | src/athena/core/organon/schemas/organon_nodes.py:76 | upper-casing leaves no lower-case ASCII letter |
| OrganonNodes.EqualityByUuid | src/athena/core/organon/schemas/organon_nodes.py:160-198 | equality is an equivalence that looks only at the uuid, never holds for a non-node, agrees with the hash, and != is its negation |
| OrganonNodes.Equal | src/athena/core/organon/schemas/organon_nodes.py:171-186 | `__eq__`: a node equals only a node with the same uuid; EqualityByUuid states its laws |
| OrganonNodes.NotEqual | src/athena/core/organon/schemas/organon_nodes.py:188-198 | `__ne__`: the negation of `__eq__`, as EqualityByUuid states |
| OrganonNodes.HashKey | src/athena/core/organon/schemas/organon_nodes.py:160-169 | `__hash__` hashes the uuid only; EqualityByUuid states that equal nodes hash alike |
| OrganonNodes.EqualAcrossClasses | src/athena/core/organon/schemas/organon_nodes.py:171-186 | nodes of different classes with the same uuid are equal |
| OrganonNodes.GetByUuid | src/athena/core/organon/schemas/organon_nodes.py:200-217 | raises NotImplementedError exactly when the class has no fetch query; otherwise that query with the uuid parameter |
| OrganonNodes.GetByUuids | src/athena/core/organon/schemas/organon_nodes.py:219-236 | raises NotImplementedError exactly when the class has no multi-fetch query; otherwise that query with the uuids parameter |
| OrganonNodes.Delete | src/athena/core/organon/schemas/organon_nodes.py:238-263 | raises NotImplementedError exactly when the class has no label; otherwise a DETACH DELETE of the node matched under its label and the lower-cased first letter of that label, with the node's own uuid |
| OrganonNodes.DeleteText | src/athena/core/organon/schemas/organon_nodes.py:255-261 | the delete query matches the node pattern the create and fetch queries use |
| OrganonNodes.WithEmbedding | src/athena/core/organon/schemas/organon_nodes.py:335-339 | adding an embedding adds no key but "embedding" |
| OrganonNodes.ClassParamsSkipCommonKeys | src/athena/core/organon/schemas/organon_nodes.py:292-310 | no class's parameters override one of the five common keys |
| OrganonNodes.Save | src/athena/core/organon/schemas/organon_nodes.py:312-346 | raises NotImplementedError exactly when the class has no create query; the parameters are the save parameters, and the query is the create query unless an embedding is stored |
| OrganonNodes.Update | src/athena/core/organon/schemas/organon_nodes.py:265-275 | update gives what save gives |
| OrganonNodes.SaveParamsKeepCommon | src/athena/core/organon/schemas/organon_nodes.py:303-310 | the saved parameters keep the five common values, the platform as its integer |
| OrganonNodes.SaveParams | src/athena/core/organon/schemas/organon_nodes.py:292-310 | the specification of `get_save_params`: the common values followed by the class's own; SaveParamsKeepCommon, SaveParamsEmbedding and UserSaveKeys state what it holds |
| OrganonNodes.SaveParamsEmbedding | src/athena/core/organon/schemas/organon_nodes.py:292-310 | the saved parameters carry an embedding exactly when the node has a non-empty one |
| OrganonNodes.UserParamsMissQueryParameters | src/athena/core/organon/schemas/organon_nodes.py:292-310 | a User's saved parameters lack user_id and platform_handles, which its create query reads, and carry platform_id, which it does not |
| OrganonNodes.UserSaveKeys | src/athena/core/organon/schemas/organon_nodes.py:292-310 | a User saves only the common keys, platform_id and possibly its embedding, so never user_id or platform_handles |
| OrganonNodes.EmbeddingIdentifierMatches | src/athena/core/organon/schemas/organon_nodes.py:340 | every registered class that stores embeddings uses its create query's identifier |
| OrganonNodes.SaveSplicesVectorCall | src/athena/core/organon/schemas/organon_nodes.py:335-344 | for a registered class storing an embedding, save inserts the vector call before the final RETURN and changes nothing else |
| OrganonNodes.DeleteUsesCreateIdentifier | src/athena/core/organon/schemas/organon_nodes.py:255-256 | the delete query of a registered class names the node by its create query's identifier |
| OrganonNodes.UndeclaredClassRaises | src/athena/core/organon/schemas/organon_nodes.py:213-253 | a class without metadata cannot save, fetch or delete |
| OrganonEdges.EdgeClass.RelationshipType | src/athena/core/organon/schemas/organon_edges.py:167-409 | every edge class's type is one of the nine relationship types |
| OrganonEdges.UuidKey | src/athena/core/organon/schemas/organon_edges.py:125-126 | the parameter is the lower-cased initial of the class name followed by "_uuid" |
| OrganonEdges.WithOptional | src/athena/core/organon/schemas/organon_edges.py:132-135 | an unset timestamp leaves the parameters unchanged; a set one is added under its key |
| OrganonEdges.EdgeParams | src/athena/core/organon/schemas/organon_edges.py:124-135 | both timestamps sit under their own names, and each uuid under its endpoint's name when the initials differ |
| OrganonEdges.Connect | src/athena/core/organon/schemas/organon_edges.py:74-137 | raises the invalid-nodes ValueError exactly when the triple is unregistered; otherwise returns the as-written edge query of that triple |
| OrganonEdges.RegisteredLabels | src/athena/core/organon/schemas/organon_edges.py:112-113 | every registered triple names two classes with distinct initials and one of three relationship types |
| OrganonEdges.UnregisteredTypesRaise | src/athena/core/organon/schemas/organon_edges.py:257-409 | MENTIONS, INCLUDES, PARTICIPATES_IN, HAS_PREFERENCE, FOR and EXPRESSES edges always raise |
| OrganonEdges.ConnectParamKeys | src/athena/core/organon/schemas/organon_edges.py:124-135 | the parameters are exactly the two uuids, the two timestamps and the validity bounds that are set |
| OrganonEdges.ConnectParamValues | src/athena/core/organon/schemas/organon_edges.py:124-129 | each uuid sits under its own endpoint's name, and the timestamps under theirs |
| OrganonEdges.EdgeParamsShape | src/athena/core/organon/schemas/organon_edges.py:124-135 | the parameter keys are the two uuid names, the two timestamps and the validity bounds that are set |
| OrganonEdges.ValidityParams | src/athena/core/organon/schemas/organon_edges.py:132-135 | valid_from and valid_to are parameters exactly when set, carrying their ISO text |
| OrganonEdges.PlaceholdersBound | src/athena/core/organon/schemas/organon_edges.py:119-129 | the query matches each endpoint through a uuid placeholder that is a key of the parameters |
| OrganonEdges.PostedInMessageRoom | src/athena/core/organon/schemas/organon_edges.py:101-137 | a message posted in a room gets m_uuid and r_uuid |
| OrganonEdges.PostedInUserMessageRejected | src/athena/core/organon/schemas/organon_edges.py:112-116 | a user cannot be POSTED_IN a message |
| OrganonEdges.PostedInUserRoomLosesCount | src/athena/core/organon/schemas/organon_edges.py:119 | a user POSTED_IN a room gets a query that differs from the intended one, which increments the count |
| OrganonEdges.UserEdgeTargets | src/athena/core/organon/schemas/organon_edges.py:112-113 | users are linked only to rooms and topics |
| OrganonUtils.PlatformDigit | src/athena/core/organon/organon_utils.py:20 | a platform's value prints as one digit from 1 to 4 |
| OrganonUtils.GlobalMessageId | src/athena/core/organon/organon_utils.py:4-20 | raises exactly for a non-member platform; otherwise starts with the platform's digit and "_" |
| OrganonUtils.GlobalClusterId | src/athena/core/organon/organon_utils.py:23-39 | raises exactly for a non-member platform; otherwise starts with the platform's digit and "_" |
| OrganonUtils.GlobalUserId | src/athena/core/organon/organon_utils.py:42-60 | raises exactly for a non-member platform; otherwise starts with the platform's digit and "_" |
| OrganonUtils.PlatformOfDigit | src/athena/core/organon/organon_utils.py:20 | the digit read back names the platform that prints it |
| OrganonUtils.SplitAtFirst | src/athena/core/organon/organon_utils.py:20 | splitting at the first separator gives back the text around it |
| OrganonUtils.DecodeUserId | src/athena/core/organon/organon_utils.py:60 | a decoded id is the platform digit, "_" and the rest |
| OrganonUtils.DecodePairId | src/athena/core/organon/organon_utils.py:20 | a decoded id is the digit and two parts joined by "_", the first part without "_" |
| OrganonUtils.UserIdRoundTrip | src/athena/core/organon/organon_utils.py:42-60 | a user id decodes back to its platform and the text of the id |
| OrganonUtils.MessageIdRoundTrip | src/athena/core/organon/organon_utils.py:4-20 | a message id decodes back to its parts whenever the chat id holds no "_" |
| OrganonUtils.ClusterIdRoundTrip | src/athena/core/organon/organon_utils.py:23-39 | a cluster id decodes back to its parts whenever the room id holds no "_" |
| OrganonUtils.IntChatIdRoundTrip | src/athena/core/organon/organon_utils.py:4-20 | integer chat ids always decode back |
| OrganonUtils.PlatformsSeparateIds | src/athena/core/organon/organon_utils.py:20-60 | ids of different platforms never coincide |
| OrganonUtils.IdsCanCollide | src/athena/core/organon/organon_utils.py:20-39 | without that condition two messages can share an id, and a message and a cluster with the same parts always do |
| OrganonUtils.IntegersAsText | src/athena/core/organon/organon_utils.py:17-60 | an integer id and its decimal text give the same id; a platform given as a bare integer is rejected |
| DiskCache.DictGet | src/athena/core/system/diskcache.py:14-15 | a value other than None found in a dict is stored there under the key |
| DiskCache.ResolvePath | src/athena/core/system/diskcache.py:12-20 | the loop follows the path through dicts and attributes and stops at the first None |
| DiskCache.Resolve | src/athena/core/system/diskcache.py:12-20 | the specification of `resolve_path`: one dict or attribute step per part, None from the first None on; ResolvePath is proved against it and ResolveCompose states how paths compose |
| DiskCache.ResolveCompose | src/athena/core/system/diskcache.py:12-20 | following one path and then another is following both; once a step yields None the rest is skipped |
| DiskCache.OwnerPaths | src/athena/core/system/diskcache.py:44-52 | a string owner is one dotted path, a list gives one path per item (strings split at dots, lists kept), anything else none |
| DiskCache.Configure | src/athena/core/system/diskcache.py:42-52 | the configuration holds the owner paths, and the parameter list or the empty list when none is given |
| DiskCache.OwnerStringRoundTrip | src/athena/core/system/diskcache.py:44-45 | a string owner's parts rejoined with dots give the string back, and no part holds a dot |
| DiskCache.JoinSplit | src/athena/core/system/diskcache.py:45 | splitting at a character and joining with it gives the text back |
| DiskCache.SplitPiecesLackSeparator | src/athena/core/system/diskcache.py:45 | no piece of a split holds the separator |
| DiskCache.Json | src/athena/core/system/diskcache.py:71 | serialising raises TypeError for an arbitrary object, and for an integer exactly when it leaves the 64-bit range |
| DiskCache.OwnerPart | src/athena/core/system/diskcache.py:62-65 | each owner path adds at most one key part |
| DiskCache.OwnerParts | src/athena/core/system/diskcache.py:61-65 | the owner paths add at most one part each |
| DiskCache.ParamEntries | src/athena/core/system/diskcache.py:67-69 | exactly the listed parameters that were passed, each once, with their values |
| DiskCache.BuildKey | src/athena/core/system/diskcache.py:58-74 | the loop builds the key from module, name, the truthy owner values and the JSON of the present parameters |
| DiskCache.CacheKey | src/athena/core/system/diskcache.py:58-74 | the specification of the key: module, name, the str of each truthy owner value and the JSON of the present parameters, joined by ":"; BuildKey is proved against it and the key lemmas below state its properties |
| Text.PlainRepr | src/athena/core/system/diskcache.py:65 | a string without quotes, backslashes or control characters is shown inside a list or dict between single quotes, unchanged |
| DiskCache.OwnerPartsAgree | src/athena/core/system/diskcache.py:61-65 | owner parts depend only on the arguments the paths start from |
| DiskCache.FalsyOwnersAddNothing | src/athena/core/system/diskcache.py:63-65 | owners that resolve to falsy values add no part |
| DiskCache.ParamEntriesAgree | src/athena/core/system/diskcache.py:67-69 | parameter entries depend only on the listed parameters |
| DiskCache.KeyIgnoresOtherArguments | src/athena/core/system/diskcache.py:58-74 | two calls agreeing on the owner arguments and the listed parameters get the same key |
| DiskCache.KeyStartsWithFunction | src/athena/core/system/diskcache.py:58-74 | a successful key starts with module:name |
| DiskCache.BareKey | src/athena/core/system/diskcache.py:58-74 | without parameters and with only falsy owners the key is exactly module:name |
| DiskCache.PeerIdConfig | src/athena/features/telegram/functions/chat_functions.py:46 | the decorator on the message fetch has the single owner path peer_id and no parameters |
| DiskCache.SingleOwnerKey | src/athena/core/system/diskcache.py:58-74 | with one one-part owner path and no parameters the key is module:name:value for a truthy value and module:name otherwise |
| DiskCache.PeerIdKey | src/athena/features/telegram/functions/chat_functions.py:46 | the message fetch is cached under module:name:peer_id, and under module:name for a falsy peer id |
| DiskCache.HoursShareEntry | src/athena/features/telegram/functions/chat_functions.py:46 | calls of the message fetch that differ only in hours share one entry |
| DiskCache.Store.constructor | src/athena/core/system/diskcache.py:27-30 | a new store is empty |
| DiskCache.Store.Get | src/athena/core/system/diskcache.py:78 | a missing key reads as None, a present one as its value |
| DiskCache.Store.Set | src/athena/core/system/diskcache.py:91 | storing changes the entry at that key and nothing else |
| DiskCache.Wrapper | src/athena/core/system/diskcache.py:56-96 | the result, the number of calls of the wrapped function and the new store are those of the wrapper's lookup, call, store and fallback |
| DiskCache.InvokeFrame | src/athena/core/system/diskcache.py:76-96 | the wrapped function runs at most twice, and the store changes only at the key, receiving the first result |
| DiskCache.Invoke | src/athena/core/system/diskcache.py:76-96 | the specification of the wrapper's lookup, call, store and fallback; Wrapper is proved against it and InvokeFrame, HitSkipsCall, MissCallsAndStores and SecondCallHits state its behaviour |
| DiskCache.HitSkipsCall | src/athena/core/system/diskcache.py:78-86 | a stored value other than None is returned without calling the function or touching the store |
| DiskCache.MissCallsAndStores | src/athena/core/system/diskcache.py:88-96 | a miss calls once and stores the result; when the call or the store raises, the function runs again and that result is returned uncached |
| DiskCache.SecondCallHits | src/athena/core/system/diskcache.py:76-92 | a result that is neither None nor a string is returned by the second call without calling again |
| DiskCache.CachedStringComesBackParsed | src/athena/core/system/diskcache.py:80-84 | a stored string comes back JSON-parsed, so a string result and its cached copy can differ |
| DiskCache.NoneIsRecomputed | src/athena/core/system/diskcache.py:79-92 | a None result is stored but reads as a miss, so the next call runs the function again |
| DiskCache.FailingCallRunsTwice | src/athena/core/system/diskcache.py:89-96 | a failing first call runs the function twice and leaves the cache alone |
| AiModels.FirstBuilt | src/athena/core/ai_models/__init__.py:61-63 | the first registry provider that constructs, and none exactly when no provider does |
| AiModels.ErrorEntries | src/athena/core/ai_models/__init__.py:64-67 | one "name: error" entry per failed provider, in registry order |
| AiModels.FindFirstAvailable | src/athena/core/ai_models/__init__.py:57-70 | the loop returns the first provider that constructs, having tried the providers up to it; otherwise it raises after trying all nine |
| AiModels.GetAiService | src/athena/core/ai_models/__init__.py:29-33 | a truthy name is looked up by name, anything else falls back to the first available provider; a service returned is one the registry built |
| AiModels.GetAgent | src/athena/core/ai_models/__init__.py:36-41 | fails exactly as the service lookup does; a named lookup returns the service itself, the fallback the service's agent |
| AiModels.FirstBuiltIsFirst | src/athena/core/ai_models/__init__.py:61-63 | the first provider that constructs is the one found |
| AiModels.ErrorEntriesSnoc | src/athena/core/ai_models/__init__.py:64-67 | each failed provider appends its entry after the earlier ones |
| AiModels.FirstAvailableBuilt | src/athena/core/ai_models/__init__.py:57-63 | a provider found is one the registry built |
| AiModels.SpecificServiceOutcome | src/athena/core/ai_models/__init__.py:44-54 | an unknown name raises the ValueError listing the nine providers; missing credentials raise the ValueError naming the key; other errors propagate |
| AiModels.SpecificService | src/athena/core/ai_models/__init__.py:44-54 | the specification of the named lookup; SpecificServiceOutcome states its three outcomes |
| AiModels.LowerTwice | src/athena/core/ai_models/__init__.py:46 | lower-casing is idempotent |
| AiModels.NamedLookupIgnoresCase | src/athena/core/ai_models/__init__.py:46 | the named lookup gives the same outcome for a name and its lower-case form |
| AiModels.NamedLookupIsLocal | src/athena/core/ai_models/__init__.py:44-54 | the named lookup depends only on the provider it names |
| AiModels.FirstAvailableOutcome | src/athena/core/ai_models/__init__.py:57-70 | the fallback succeeds exactly when some provider constructs, and otherwise raises RuntimeError listing every provider's error |
| AiModels.FirstAvailable | src/athena/core/ai_models/__init__.py:57-70 | the specification of the fallback: the first provider that builds, else RuntimeError with every error; FindFirstAvailable is proved against it and FirstAvailableOutcome states its outcome |
| AiModels.LaterProvidersIgnored | src/athena/core/ai_models/__init__.py:61-63 | providers after the first one that constructs are never consulted |
| AiModels.EmptyNameFallsBack | src/athena/core/ai_models/__init__.py:31-40 | an empty name falls back like no name |
| AiModels.MissingCredentialsNamesKey | src/athena/core/ai_models/__init__.py:46-54 | "Claude" without credentials raises "Missing credentials for claude" |
| Persona.SerMessageExample | src/athena/core/deus/schemas/persona_schemas.py:18-22 | the example is its user and content lines, followed by the action line exactly when the action is truthy |
| Persona.ActionLine | src/athena/core/deus/schemas/persona_schemas.py:20-21 | the action line is empty exactly when the action is absent or empty |
| Persona.ExampleDeterminesAction | src/athena/core/deus/schemas/persona_schemas.py:18-22 | two examples with the same user and content serialize alike exactly when their actions show alike |
| Persona.MakeStyleRules | src/athena/core/deus/schemas/persona_schemas.py:25-34 | style rules validate exactly when all three lists have an element, and the error is a validation error |
| Persona.MakePersona | src/athena/core/deus/schemas/persona_schemas.py:49-73 | a persona validates exactly when the description and the three style lists have an element; the name defaults to Athena, and every other field, the style rules included, is the one given |
| Persona.SerStyleRules | src/athena/core/deus/schemas/persona_schemas.py:36-41 | three entries, keyed general_style, conversation_style and publication_style; StyleRulesRecoverable states that each value is its list joined by line breaks |
| Persona.SerPublications | src/athena/core/deus/schemas/persona_schemas.py:88-92 | the publications entry is None exactly when the list is absent or empty |
| Persona.SerConversations | src/athena/core/deus/schemas/persona_schemas.py:84-87 | a single group with one example serializes as that example's text |
| Persona.SerPersona | src/athena/core/deus/schemas/persona_schemas.py:76-96 | ten entries under the ten keys in order, all text except the publications entry; DescriptionRecoverable, ListFieldsRecoverable, StyleRulesRecoverable, StyleSectionsAgree and PublicationsRecoverable state the values |
| Persona.StyleSectionsAgree | src/athena/core/deus/schemas/persona_schemas.py:93-95 | the style lists read the same in the persona serializer and the style serializer |
| Persona.DescriptionRecoverable | src/athena/core/deus/schemas/persona_schemas.py:80 | a validated persona's description comes back on splitting its text at line breaks |
| Persona.StyleRulesRecoverable | src/athena/core/deus/schemas/persona_schemas.py:36-41 | each of the three style values splits at line breaks back into its list when no element holds a line break |
| Persona.ListFieldsRecoverable | src/athena/core/deus/schemas/persona_schemas.py:80-82 | a non-empty backstory splits back at line breaks; non-empty adjectives and topics split at commas into their elements, each after the first with its leading space |
| Persona.SplitOnComma | src/athena/core/deus/schemas/persona_schemas.py:81-82 | as many parts as elements, the first unchanged and every later one with one space in front |
| Persona.CommaJoinSplit | src/athena/core/deus/schemas/persona_schemas.py:81-82 | splitting a ", "-join of comma-free elements on "," gives the elements back, each after the first with its leading space |
| Persona.PublicationsRecoverable | src/athena/core/deus/schemas/persona_schemas.py:88-92 | non-empty publications come back on splitting; absent and empty ones both give None |
| Persona.BackstoryAmbiguous | src/athena/core/deus/schemas/persona_schemas.py:81 | an empty backstory and a backstory of one empty line serialize alike |
| Persona.ConstructionRules | src/athena/core/deus/schemas/persona_schemas.py:49-55 | construction fails exactly for an empty description or style list, a nameless persona is called Athena, and an empty description raises on its own field |

## Left out

- Numerics of `process.py`: the TF-IDF importance scores, the embedding vectors and the HDBSCAN labels are inputs. Time-feature z-scoring is floating point and left out. `calculate_composite_score` and `threshold_calculations` refer to class attributes that do not exist; they are dead code and left out.
- `n * 0.1` is compared over exact rationals. IEEE rounding can differ at a boundary such as n = 30.
- The fallback count is `max(int(n * 0.1), 1000)`, so the whole batch is kept only while n ≤ 1000; between 1000 and 10000 exactly 1000 messages are kept. `Process.FallbackKeepsSmallBatches` states these ranges as the code computes them.
- TelegramSchemas.EngagementScore: computed over `real`; `log1p` and the sigmoid are parameters constrained only to their ranges, so IEEE rounding is not modelled.
- Python's `str.lower`/`str.upper` and `int()` are modelled on ASCII only. `int()` accepts surrounding ASCII whitespace, a sign, and digits with single underscores.
- Telegram transport is modelled as inputs and effects: history is a sequence, draft updates a list, the clock a parameter. The model leaves out bot replies, message edits, `asyncio.sleep` waits and logging.
- MessageUtils.StreamingMessageHelper: plans the first send and the edits as values; the sends and edits themselves are network calls.
- `features/telegram/functions/sticker_functions.py` downloads sticker sets over the network; it is not part of this model.
- `random.choice` in the sticker lookups is a nondeterministic choice (`:|`). No distribution is modelled.
- `get_chat_history(limit=0)` is taken to mean "no limit".
- TelegramSchemas.MakePeerInfo: `peer_name` is a required string, so the "Chat" and "Back to chat" branches of the name and button-text helpers cannot be reached and are not modelled.
- Stickers.GetSticker: when the set lacks familiarity or gender, the response record fails validation. The model reports this as one ValidationError, not pydantic's full message.
- Neo4j access is left out: the driver, the semaphore and `asyncio.gather` in `organon_model.py`. Organon queries are produced as `(query, params)` values and never run.
- DiskCache.Repr: Python's `repr` of a string (`Text.StrRepr`, used in list and dict texts and in the unsupported-edge message) is modelled for ASCII: quote switching, and escapes for the quote, the backslash and the control characters. Non-ASCII characters are kept as they are, where Python escapes the non-printable ones. An object inside a list or dict is shown by its one `str` text, where Python calls its `repr`.
- DiskCache.Wrapper: the store is a map. On-disk storage, TTL expiry, the circuit breaker, `lru_cache` and logging are left out. `orjson.loads` is the `loads` parameter. The wrapped function's outcomes are environment parameters. Attribute lookup on built-in values gives None.
- AiModels.GetAiService: building a provider client, and the credentials it reads, are the `Environment` parameter. Only its outcome is modelled: a service, a missing-credentials error or another error.
- Persona.MakePersona: validation reports only the first field that fails. Pydantic reports all of them.
- Persona.SerConversations: `str` of a message-example record is library behaviour. It is the opaque `show` parameter, so the contract fixes the result only for a single example.
- `Persona.use_persona` (Python's `string.Formatter` grammar), `from_dict` and the field getters are left out.
- LLM provider clients, agents and prompts are left out: they are network calls and constant text. So are the Telegram client set-up, handlers and keyboards, and the configuration files.

## Findings

| source | as written | input that shows it | evidently intended | confidence | as-written member | corrected member |
|---|---|---|---|---|---|---|
| src/athena/features/telegram/schemas/mtproto_schemas.py:290 | `peer.peer.user_id or peer.peer.chat_id or peer.peer.channel_id` reads `user_id` first. A `PeerChat` or `PeerChannel` has no such attribute, so the read raises before any fallback. | a top-peers entry whose peer is `PeerChannel(channel_id=5)` | the id of whichever kind the peer is | not executed | MtprotoSchemas.AsWrittenRejectsChatPeers | MtprotoSchemas.IntendedRanking |
| src/athena/features/telegram/schemas/mtproto_schemas.py:411-427 | `check_if_all_bool_false` returns `all(...)` of the nine flags, which is True when every flag is set | a folder with every flag False gives False | True exactly when no flag is set | not executed | MtprotoSchemas.CheckIfAllBoolFalseInverted | MtprotoSchemas.AllBoolFalse |
| src/athena/features/telegram/schemas/mtproto_schemas.py:485 | the dict key `"included_peers"` names no field. The `include_peers` field keeps its empty default. | a filter with `include_peers=[PeerChat(7)]` becomes a folder with no included peers | included peers copied with pinned False | not executed | MtprotoSchemas.IncludedPeersDropped | MtprotoSchemas.FromDialogFilter |
| src/athena/core/organon/operations/organon_edge_op.py:172-175 | the text to replace is a plain string holding a literal `{rel_id}`, which the query never contains | the (User, Room, POSTED_IN) entry with its `count` property | the extra properties appended to ON MATCH SET | not executed | OrganonEdgeOp.PostedInCountLost | OrganonEdgeOp.GenerateEdgeQuery |
| src/athena/core/organon/schemas/organon_nodes.py:74-82 | the input is upper-cased, then compared with lower-cased member names | `"telegram"`, and every other string | a case-insensitive lookup of the member name | not executed | OrganonNodes.FromStringAlwaysRaises | OrganonNodes.FromStringFindsMembers |

Where one source function calls a faulty one, its model calls the as-written version, and the corrected one is proved beside it. No modelled file calls `check_if_all_bool_false` or `from_string`.

- `MtprotoSchemas.FromTopPeers` takes the peer-id reader as a parameter, so it covers both readers: with `PeerIdAsWritten` a chat or channel peer fails, and with `PeerIdIntended` the scan succeeds;
- `OrganonEdgeOp.GetEdgeQuery` and `OrganonEdges.Connect` return the edge query as written. `OrganonEdges.PostedInUserRoomLosesCount` shows the lost count where a user is connected to a room, and `OrganonEdgeOp.AsWrittenAgreesWithoutExtras` proves that the two generators agree on every entry without extra properties.
