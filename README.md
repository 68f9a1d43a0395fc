# autoblock_bot in Dafny

A verified model of a Telegram moderation bot. The bot keeps a role table in
DynamoDB: one item per `(user_<id>, role_<role>)` key. It uses that table to
decide who may stay in a group, and admins manage it by sending commands in a
private chat. The model covers:

- **Role handlers** (`RoleTable`, `Blacklist`, `Whitelist`). The table is a
  class owning a `map<Key, Item>` plus a log of its `get_item` / `put_item` /
  `delete_item` calls. The deny-list handler bans users who are present; the
  allow-list handler bans users who are absent. Both share the same
  membership operations.
- **The role-based webhook** (`Autoblock`, for `autoblock/app.py`). It covers
  configuration loading with its write-once cache, routing, admission with the
  kick-status branches, and command parsing and dispatch for `/start`,
  `/getlist`, `/isbanned`, `/add`, `/remove` and unknown commands. Each
  handler is a pure step function over a `State`: the config cell, the
  table, the table's call log, and an append-only log of Bot API posts,
  CloudWatch counters and username lookups. The `Bot` class holds that state.
  Each of its methods is proved to perform exactly the corresponding step.
  Lemmas state the admission and command rules.
- **The export job** (`BlocklistScraper`). It flattens the index-query pages
  into quoted usernames in page order and builds the CSV text. Proofs cover
  the line structure of the text, a read-back round trip, and the fact that
  the query lists exactly the stored `blacklist` items.
- **The first, single-table bot** (`Legacy`, `LegacyScenarios`, for
  `autoblock_function/app.py`). It uses `user_<id>` and `admin_<id>`
  presence keys, checks admin rights before parsing a command, and always
  answers an admin with "Unknown command". Two scenarios from its unit tests
  are proved: a banned user joining, and an admin sending a command.
- **Python string behaviour** the bot relies on (`PyStr`): `str(int)` with
  proved injectivity, so keys for different users never collide;
  `split`/`join`; `strip()`; slicing with Python's index rules; and
  substring `in`.

The outside world is made explicit:

- The SSM parameter list is an input.
- Username resolution (Telethon `get_entity`) is a function from username to
  an id or to the `ValueError` text.
- The presign call is a function returning a URL or a `ClientError`.
- The status of the `kickChatMember` post is an integer input.

Where the code may surprise a reader, the model follows the code as written
(the one exception, the `/add` call at `autoblock/app.py:285`, is listed
under "Left out" and "Findings"):

- `/isbanned` and unknown commands have no admin check.
- The reply to `/isbanned` and the "already added" reply print the boolean
  result of the lookup (`True`) where a reason would go. No reason is ever
  stored.
- A kick status other than 200 and 400 raises only when it is 4xx or 5xx,
  because that is what `raise_for_status` does. Other codes end silently.
- Only a bot joining a `supergroup` is greeted; a plain `group` is not.
- The export holds quoted usernames only, not `(user_id, username)` pairs.
  An empty export is `username\n\n`, which reads back as one empty name.
- When `root_users` is stored as a plain `String` parameter, the admin test
  is a substring test on the decimal id.
- The allow-list route has no `welcome_message` and no `get_blocklist_url`,
  so `/start` and `/getlist` raise on `/whitelist`.

## Model

| member | source | states |
|---|---|---|
| `PyStr.NatToString` | autoblock_function/autoblock/app.py:101 | `str(n)` is non-empty and all digits; it has two or more digits exactly when n ≥ 10; its last digit is n mod 10 |
| `PyStr.IntToString` | autoblock_function/autoblock/app.py:101 | `str(i)` is non-empty and starts with `-` exactly when i is negative |
| `PyStr.NatToStringInjective` | autoblock_function/autoblock/blacklist.py:40 | distinct naturals render to distinct decimal strings |
| `PyStr.IntToStringInjective` | autoblock_function/autoblock/blacklist.py:40 | distinct integers render to distinct strings, so `user_{}` keys never collide |
| `PyStr.Split` | autoblock_function/autoblock/app.py:36 | `split` returns at least one piece, and no piece contains the separator |
| `PyStr.JoinSplit` | autoblock_function/autoblock/app.py:36 | joining the pieces of a split gives back the original text |
| `PyStr.SplitJoin` | autoblock_function/autoblock/blocklist_scraper.py:31 | splitting a join of separator-free pieces gives back the pieces |
| `PyStr.JoinFirst` | autoblock_function/autoblock/app.py:55 | the first piece of a join is its prefix, followed by the separator when more pieces follow |
| `PyStr.JoinLast` | autoblock_function/autoblock/app.py:36 | the last piece of a join is its suffix, preceded by the separator when more pieces precede it |
| `PyStr.FirstSegment` | autoblock_function/autoblock/app.py:99 | `s.split(sep)[0]` is the separator-free prefix of s that ends at the first separator or at the end |
| `PyStr.LastSegment` | autoblock_function/autoblock/app.py:36 | the config key of a parameter, `s.split(sep)[-1]`, is the separator-free suffix of s that starts after the last separator |
| `PyStr.LastSegmentAfterSep` | autoblock_function/app.py:18-19 | the last segment of `path/key` is `key` when `key` has no `/` |
| `PyStr.TrimStart` | autoblock_function/autoblock/app.py:203 | `lstrip` drops a whitespace prefix, and the result does not start with whitespace |
| `PyStr.TrimEnd` | autoblock_function/autoblock/app.py:203 | `rstrip` drops a whitespace suffix, and the result does not end with whitespace |
| `PyStr.Strip` | autoblock_function/autoblock/app.py:203 | `strip()` is the slice of s between an all-whitespace prefix and an all-whitespace suffix, and it neither starts nor ends with whitespace |
| `PyStr.ClampIndex` | autoblock_function/autoblock/app.py:144 | slice bounds follow Python: negative bounds count from the end, and out-of-range bounds are clamped |
| `PyStr.Slice` | autoblock_function/autoblock/app.py:144 | `s[a:b]` never fails; it is the clamped slice, or empty when the clamped bounds cross |
| `PyStr.SliceFrom` | autoblock_function/autoblock/app.py:203 | `s[a:]` is the suffix from a when a is in range, and empty past the end |
| `PyStr.ContainsOfOccurrence` | autoblock_function/autoblock/app.py:340 | an occurrence of the id string at any position makes the substring test true |
| `PyStr.ContainsWitness` | autoblock_function/autoblock/app.py:340 | when the substring test is true, the id string occurs at an explicit position |
| `SsmConfig.MissingKey` | autoblock_function/autoblock/app.py:42-44 | returns None exactly when every expected key is configured; otherwise the first missing key, in checking order |
| `Telegram.FirstOfType` | autoblock_function/autoblock/app.py:138 | returns None exactly when no entity has the type; otherwise the entity at the first index with that type |
| `Telegram.EntityText` | autoblock_function/autoblock/app.py:144 | for an in-range entity, the command or mention is exactly `text[offset:offset+length]` |
| `Telegram.ResponseOf` | autoblock_function/autoblock/app.py:92-95 | a completed invocation answers status 200 with body `{}`; an exception is passed through unchanged |
| `RoleTable.RoleItem` | autoblock_function/autoblock/blacklist.py:47-57 | the stored item sits at (`user_<id>`, `role_<role>`), is indexed under `role_<role>` / `user_<id>`, and carries the username and nothing else |
| `RoleTable.RoleKeyInjective` | autoblock_function/autoblock/blacklist.py:40-41 | two (user, role) pairs share a key only if they are equal |
| `RoleTable.Upsert` | autoblock_function/autoblock/blacklist.py:48-57 | `put_item` stores the item at its key and leaves every other key, present or absent, as it was |
| `RoleTable.Without` | autoblock_function/autoblock/blacklist.py:60-66 | `delete_item` removes the key and leaves every other key as it was |
| `RoleTable.AddGrantsRole` | autoblock_function/autoblock/blacklist.py:47-57 | after a put the user holds the role; a second put for the same key leaves the table as a single put of the second item would |
| `RoleTable.RemoveRevokesRole` | autoblock_function/autoblock/blacklist.py:59-66 | after a delete the user does not hold the role; deleting an absent membership changes nothing |
| `RoleTable.AddThenRemove` | autoblock_function/autoblock/blacklist.py:47-66 | adding a role the user lacked and then removing it restores the table exactly |
| `RoleTable.OtherMembershipsUnchanged` | autoblock_function/autoblock/blacklist.py:36-66 | adding or removing one (user, role) leaves every other (user, role) membership unchanged |
| `RoleTable.RoleOperationsKeepWellFormed` | autoblock_function/autoblock/blacklist.py:50-56 | every item stays at its own key with the matching swapped index key after any add or remove |
| `RoleTable.Table.constructor` | autoblock_function/autoblock/blacklist.py:7-12 | a table handle starts with the given items and an empty call log |
| `RoleTable.Table.GetItem` | autoblock_function/autoblock/blacklist.py:37-45 | one logged lookup; `Item` is present exactly when the key is stored, and it is the stored item |
| `RoleTable.Table.PutItem` | autoblock_function/autoblock/blacklist.py:48-57 | one logged put; the items become the upsert of the old items |
| `RoleTable.Table.DeleteItem` | autoblock_function/autoblock/blacklist.py:60-66 | one logged delete; the items lose that key and nothing else |
| `Blacklist.BlocklistUrl` | autoblock_function/autoblock/blacklist.py:21-31 | None exactly when presigning the export key in the output bucket raises `ClientError`; otherwise the presigned URL |
| `Blacklist.Handler.constructor` | autoblock_function/autoblock/blacklist.py:7-12 | the handler is bound to the given table, output bucket and role name |
| `Blacklist.Handler.GetBlocklistUrl` | autoblock_function/autoblock/blacklist.py:21-31 | the presigned URL of the handler's own bucket, or None on `ClientError` |
| `Blacklist.Handler.IsUserBanned` | autoblock_function/autoblock/blacklist.py:33-34 | one lookup; banned exactly when the role item exists, which is the same as holding the role |
| `Blacklist.Handler.HasRole` | autoblock_function/autoblock/blacklist.py:36-45 | one lookup at (`user_<u>`, `role_<role>`); true exactly when that item exists |
| `Blacklist.Handler.AddRoleTo` | autoblock_function/autoblock/blacklist.py:47-57 | one put of the role item; afterwards the user holds the role and is banned |
| `Blacklist.Handler.RemoveRoleFrom` | autoblock_function/autoblock/blacklist.py:59-66 | one delete of the role key; afterwards the user holds no such role and is not banned |
| `Whitelist.OppositePolarity` | autoblock_function/autoblock/whitelist.py:7-8 | on the same table and role, the allow list and the deny list always disagree about a ban |
| `Whitelist.AllowListNeverTouchesDenyList` | autoblock_function/autoblock/app.py:26-27 | `whitelist` keys are never `blacklist` keys, so allow-list puts and deletes never change a deny-list decision |
| `Whitelist.Handler.constructor` | autoblock_function/autoblock/whitelist.py:2-5 | the handler is bound to the given table and role name |
| `Whitelist.Handler.IsUserBanned` | autoblock_function/autoblock/whitelist.py:7-8 | one lookup; banned exactly when NO role item exists |
| `Whitelist.Handler.HasRole` | autoblock_function/autoblock/whitelist.py:10-19 | one lookup at (`user_<u>`, `role_<role>`); true exactly when that item exists |
| `Whitelist.Handler.AddRoleTo` | autoblock_function/autoblock/whitelist.py:21-31 | one put; afterwards the user is a member and not banned |
| `Whitelist.Handler.RemoveRoleFrom` | autoblock_function/autoblock/whitelist.py:33-40 | one delete; afterwards the user is not a member and is banned |
| `BlocklistScraper.Quote` | autoblock_function/autoblock/blocklist_scraper.py:27 | the entry is the username between two double quotes, and it contains a newline only if the username does |
| `BlocklistScraper.QuoteAll` | autoblock_function/autoblock/blocklist_scraper.py:27 | one entry per item, in the same order, each the quoted username: nothing dropped or merged |
| `BlocklistScraper.QuoteAllConcat` | autoblock_function/autoblock/blocklist_scraper.py:26-27 | quoting two item runs in turn equals quoting their concatenation |
| `BlocklistScraper.FlattenConcat` | autoblock_function/autoblock/blocklist_scraper.py:26-27 | the items of consecutive page runs are concatenated in page order |
| `BlocklistScraper.CollectUsernames` | autoblock_function/autoblock/blocklist_scraper.py:26-27 | the `extend` loop yields the quoted usernames of all pages' items, page after page, one per item |
| `BlocklistScraper.LambdaHandler` | autoblock_function/autoblock/blocklist_scraper.py:14-31 | the reported count is the number of collected items, and the CSV text is the header, the entries joined by newlines, and a final newline |
| `BlocklistScraper.JoinSnoc` | autoblock_function/autoblock/blocklist_scraper.py:31 | appending a piece to a join adds one separator and that piece |
| `BlocklistScraper.CsvLines` | autoblock_function/autoblock/blocklist_scraper.py:31 | split on newlines, the export is the header, then one line per entry in order (one empty line when there are none), then the empty tail after the final newline |
| `BlocklistScraper.EmptyExport` | autoblock_function/autoblock/blocklist_scraper.py:31 | with no entries the text is `username\n\n` |
| `BlocklistScraper.ReadExportLines` | autoblock_function/autoblock/blocklist_scraper.py:31 | reading back text with that line structure gives the unquoted body lines |
| `BlocklistScraper.ExportRoundTrip` | autoblock_function/autoblock/blocklist_scraper.py:26-31 | for usernames without newlines, reading a non-empty export back gives every queried username, in query order, duplicates included; an empty export reads back as one empty name |
| `BlocklistScraper.ExportIsTheDenyList` | autoblock_function/autoblock/blocklist_scraper.py:18-24 | on a well-formed table, a complete `role_blacklist` query returns exactly the items stored under role `blacklist`, each at its own key |
| `Autoblock.ConfigValueOf` | autoblock_function/autoblock/app.py:36-37 | a `StringList` value becomes the comma-free pieces that join back to the raw value; any other type stays the raw string |
| `Autoblock.ParseConfigKeys` | autoblock_function/autoblock/app.py:35-38 | a key is configured exactly when some parameter's name ends in it |
| `Autoblock.ParseConfigLastWins` | autoblock_function/autoblock/app.py:35-38 | a key's value is the parsed value of the last parameter carrying that key |
| `Autoblock.IsUserAdmin` | autoblock_function/autoblock/app.py:336-340 | admin means `str(id)` is an element of a `StringList` `root_users`, or a substring of a plain-string `root_users` |
| `Autoblock.AdminsFromStringList` | autoblock_function/autoblock/app.py:336-340 | with a `StringList` parameter, the admins are exactly the ids between the commas of its value |
| `Autoblock.AdminsFromPlainString` | autoblock_function/autoblock/app.py:336-340 | with a plain-string parameter, admin means the decimal id occurs anywhere in the value |
| `Autoblock.RouteOf` | autoblock_function/autoblock/app.py:25-28 | `/blacklist` and `/whitelist` select their handlers; any other path has no handler |
| `Autoblock.LoadConfigStep` | autoblock_function/autoblock/app.py:31-47 | succeeds exactly when `api_id`, `api_hash` and `root_users` are all configured, and then caches the parsed config; otherwise raises naming a missing expected key and changes nothing |
| `Autoblock.KickStep` | autoblock_function/autoblock/app.py:121-131 | the status branches leave the config unchanged (their effects are stated by `Autoblock.KickOutcome`) |
| `Autoblock.NewUserStep` | autoblock_function/autoblock/app.py:98-131 | admission never changes the cached config |
| `Autoblock.IsBannedStep` | autoblock_function/autoblock/app.py:224-256 | `/isbanned` never changes the cached config |
| `Autoblock.AddStep` | autoblock_function/autoblock/app.py:259-295 | `/add` with the two-argument put never changes the cached config (effects in `Autoblock.AddGrantsMembership`) |
| `Autoblock.AddStepAsWritten` | autoblock_function/autoblock/app.py:259-295 | `/add` as written never changes the cached config (effects in `Autoblock.AddAsWrittenNeverStores`) |
| `Autoblock.RemoveStep` | autoblock_function/autoblock/app.py:298-333 | `/remove` never changes the cached config (effects in `Autoblock.RemoveRevokesMembership`) |
| `Autoblock.UsernameCommandStep` | autoblock_function/autoblock/app.py:192-212 | username commands never change the cached config |
| `Autoblock.CommandStep` | autoblock_function/autoblock/app.py:134-221 | command handling never changes the cached config |
| `Autoblock.DispatchStep` | autoblock_function/autoblock/app.py:70-90 | dispatch never changes the cached config |
| `Autoblock.LambdaStep` | autoblock_function/autoblock/app.py:65-95 | the cache only ever holds a complete config, and a cached config is never replaced |
| `Autoblock.Bot.constructor` | autoblock_function/autoblock/app.py:22-28 | no config yet; both route handlers share one role table, with roles `blacklist` and `whitelist` |
| `Autoblock.Bot.LoadConfig` | autoblock_function/autoblock/app.py:31-47 | the loop over the expected keys performs exactly `LoadConfigStep` |
| `Autoblock.Bot.PublishCountMetric` | autoblock_function/autoblock/app.py:343-351 | appends one counter with that name to the effect log |
| `Autoblock.Bot.IsUserBanned` | autoblock_function/autoblock/app.py:111 | the route's handler makes one lookup and returns that route's ban decision |
| `Autoblock.Bot.HasRole` | autoblock_function/autoblock/app.py:275 | the route's handler makes one lookup and returns membership of the route's role |
| `Autoblock.Bot.AddRoleTo` | autoblock_function/autoblock/app.py:285 | the route's handler puts the role item with the username only |
| `Autoblock.Bot.RemoveRoleFrom` | autoblock_function/autoblock/app.py:323 | the route's handler deletes the route's role key |
| `Autoblock.Bot.HandleNewUser` | autoblock_function/autoblock/app.py:98-131 | performs exactly `NewUserStep` on the bot's state |
| `Autoblock.Bot.HandleIsUserBannedCommand` | autoblock_function/autoblock/app.py:224-256 | performs exactly `IsBannedStep` |
| `Autoblock.Bot.HandleAddUserCommand` | autoblock_function/autoblock/app.py:259-295 | performs exactly `AddStep` (the put made with the two arguments `add_role_to` accepts) |
| `Autoblock.Bot.HandleAddUserCommandAsWritten` | autoblock_function/autoblock/app.py:285 | performs exactly `AddStepAsWritten`: it raises where the three-argument call is made |
| `Autoblock.Bot.HandleRemoveUserCommand` | autoblock_function/autoblock/app.py:298-333 | performs exactly `RemoveStep` |
| `Autoblock.Bot.HandleUsernameCommand` | autoblock_function/autoblock/app.py:192-212 | performs exactly `UsernameCommandStep` |
| `Autoblock.Bot.HandleCommand` | autoblock_function/autoblock/app.py:134-221 | performs exactly `CommandStep` |
| `Autoblock.Bot.LambdaHandler` | autoblock_function/autoblock/app.py:65-95 | performs exactly `LambdaStep` and returns its response: 200 with `{}`, or the raised fault |
| `Autoblock.ConfigIsWrittenOnce` | autoblock_function/autoblock/app.py:42-47 | with nothing cached, a failed load leaves the whole state untouched so the next call retries; a successful load caches exactly the parsed parameters |
| `Autoblock.JoinGoesToAdmission` | autoblock_function/autoblock/app.py:81-85 | a message with `new_chat_participant` goes to admission and nowhere else |
| `Autoblock.PrivateTextGoesToCommands` | autoblock_function/autoblock/app.py:86-90 | otherwise a private message with text and entities goes to command handling and nowhere else |
| `Autoblock.OtherMessagesDoNothing` | autoblock_function/autoblock/app.py:74-95 | any other update on a known route changes nothing and is answered 200 `{}` |
| `Autoblock.UnknownPathRaises` | autoblock_function/autoblock/app.py:66-70 | a path other than the two routes raises `KeyError`: with a cached configuration nothing else changes; on a cold start the configuration is first loaded and cached, and a failed load raises the missing-key fault instead, changing nothing |
| `Autoblock.AdmissionNeverWrites` | autoblock_function/autoblock/app.py:98-131 | admission never writes the role table and makes at most one lookup |
| `Autoblock.BotIsGreeted` | autoblock_function/autoblock/app.py:99-110 | the bot's own id joining a supergroup gets the greeting and `AddedToChat`: no lookup, no kick |
| `Autoblock.AdminsAreNeverKicked` | autoblock_function/autoblock/app.py:111 | a joining root user is admitted with no lookup and no effect |
| `Autoblock.KickExactlyWhenBanned` | autoblock_function/autoblock/app.py:111-119 | any other joining user costs exactly one lookup and is kicked exactly when the route's policy bans them |
| `Autoblock.KickOutcome` | autoblock_function/autoblock/app.py:121-131 | 200 adds only `UserRemoved`; 400 adds only the not-an-admin reply to the message; other 4xx/5xx raise; other codes add nothing; the table is never touched |
| `Autoblock.NoCommandNoEffect` | autoblock_function/autoblock/app.py:138-142 | without a `bot_command` entity nothing at all happens |
| `Autoblock.UnknownCommandReply` | autoblock_function/autoblock/app.py:213-221 | a first command other than the five known ones gets exactly "Unknown command" and `UnknownCommand`, from anyone |
| `Autoblock.MentionRequired` | autoblock_function/autoblock/app.py:178-190 | a username command without a mention gets exactly "This command requires a username." and stops |
| `Autoblock.MentionedCommandsDispatch` | autoblock_function/autoblock/app.py:178-193 | a username command with a mention is handled by the username-command step with the command's text and the first mention |
| `Autoblock.AdminUsernameCommands` | autoblock_function/autoblock/app.py:192-208 | `/isbanned` from anyone runs the ban check on the mentioned username; from an admin, `/add` runs the add handler with that username and `Reason`, and `/remove` runs the remove handler |
| `Autoblock.ReasonIsTrimmedTail` | autoblock_function/autoblock/app.py:203 | the `/add` reason is the text after the mention (empty when the mention reaches the end) with leading and trailing whitespace removed: it is a contiguous piece of that text, everything cut off is whitespace, and it neither starts nor ends with whitespace |
| `Autoblock.DenyListStartAndGetList` | autoblock_function/autoblock/app.py:149-176 | on the deny-list route `/start` sends the welcome text and counts `StartCommand`; `/getlist` sends the presigned list as a document and counts `GetListCommand`, or replies "No list is available." with no metric when presigning fails |
| `Autoblock.NonAdminsCannotChangeRoles` | autoblock_function/autoblock/app.py:196-212 | `/add` or `/remove` from a non-admin adds only `NonAdminCommandIgnored`: no resolution, no store call, no reply |
| `Autoblock.NoAdminCheckOnQueries` | autoblock_function/autoblock/app.py:194-195 | every command except `/add` and `/remove` has the same outcome whoever sends it |
| `Autoblock.ResolutionFailureTouchesNoStore` | autoblock_function/autoblock/app.py:228-237 | an unresolvable username gets the error text as a reply, before any read or write of the table |
| `Autoblock.IsBannedOnlyReads` | autoblock_function/autoblock/app.py:239-256 | `/isbanned` makes one lookup, writes nothing, and replies "is banned: True" exactly when the route bans the user, then counts `IsBannedCommand` |
| `Autoblock.AddGrantsMembership` | autoblock_function/autoblock/app.py:274-295 | after `/add` the user holds the role and other memberships are unchanged; an existing member costs one lookup and gets "<u> (<id>) is already added: True" with no metric; a new member costs one lookup and one put, and gets "<u> (<id>) has been added: <reason, or No reason given>" then `AddUserCommand` |
| `Autoblock.RemoveRevokesMembership` | autoblock_function/autoblock/app.py:313-333 | after `/remove` the user lacks the role and other memberships are unchanged; a non-member costs one lookup and gets "<u> (<id>) is not added"; a member costs one lookup and one delete, and gets "<u> (<id>) has been removed" then `RemoveUserCommand` |
| `Autoblock.RemoveUndoesAdd` | autoblock_function/autoblock/app.py:298-333 | `/remove` after `/add` of a non-member restores the table |
| `Autoblock.AddAsWrittenNeverStores` | autoblock_function/autoblock/app.py:285 | the `/add` handler as written never stores; for a resolvable non-member it raises with no reply, where the corrected handler grants the role |
| `Autoblock.AllowListRouteLacksStartAndGetList` | autoblock_function/autoblock/app.py:149-158 | on `/whitelist`, `/start` and `/getlist` raise with nothing done |
| `Legacy.ParseConfigKeys` | autoblock_function/app.py:19 | a key is configured exactly when some parameter's name ends in it |
| `Legacy.ParseConfigLastWins` | autoblock_function/app.py:19 | a key's value is the raw value of the last parameter carrying it |
| `Legacy.KeysNeverCollide` | autoblock_function/app.py:109-124 | `user_` keys and `admin_` keys never collide, and each names one user |
| `Legacy.Table.constructor` | autoblock_function/app.py:9 | the table starts with the given items and no lookups |
| `Legacy.Table.GetItem` | autoblock_function/app.py:110-115 | one logged lookup; true exactly when an item exists at the key |
| `Legacy.LoadConfigStep` | autoblock_function/app.py:15-28 | succeeds exactly when `bot_key`, `api_id` and `api_hash` are configured, and then caches the parsed config; otherwise raises naming a missing key and changes nothing |
| `Legacy.DispatchStep` | autoblock_function/app.py:48-63 | dispatch never writes the table or changes the config |
| `Legacy.LambdaStep` | autoblock_function/app.py:41-68 | the cache only ever holds a complete config, a cached config is never replaced, and the table is never written |
| `Legacy.Bot.constructor` | autoblock_function/app.py:11-12 | module start: `config` is None |
| `Legacy.Bot.LoadConfig` | autoblock_function/app.py:15-28 | the loop over the expected keys performs exactly `LoadConfigStep` |
| `Legacy.Bot.Post` | autoblock_function/app.py:80 | appends one post, under the configured bot key |
| `Legacy.Bot.IsUserBanned` | autoblock_function/app.py:109-115 | one lookup at `user_<id>`; true exactly when the item exists |
| `Legacy.Bot.IsUserAdmin` | autoblock_function/app.py:118-124 | one lookup at `admin_<id>`; true exactly when the item exists |
| `Legacy.Bot.HandleNewUser` | autoblock_function/app.py:71-80 | performs exactly `NewUserStep` |
| `Legacy.Bot.HandleCommand` | autoblock_function/app.py:83-106 | performs exactly `CommandStep` |
| `Legacy.Bot.LambdaHandler` | autoblock_function/app.py:41-68 | performs exactly `LambdaStep` and returns 200 `{}` or the raised fault |
| `Legacy.ConfigIsWrittenOnce` | autoblock_function/app.py:23-28 | with nothing cached, a failed load leaves the state untouched (config stays None); a successful load caches the parsed parameters |
| `Legacy.EmptyParametersRaise` | tests/unit/test_handler.py:87-91 | with no parameters the handler raises for `bot_key` and the config stays None |
| `Legacy.OtherMessagesDoNothing` | autoblock_function/app.py:54-68 | a message that is neither a join nor a private text command causes no lookup and no post, and is answered 200 |
| `Legacy.JoinKicksExactlyTheBanned` | autoblock_function/app.py:71-80 | a join costs exactly one lookup at `user_<id>`, and one `kickChatMember` post for that chat and user exactly when it finds an item |
| `Legacy.JoinWithoutUsernameRaises` | autoblock_function/app.py:56 | a participant without `username` raises before any lookup |
| `Legacy.CommandsAnswerAdminsOnly` | autoblock_function/app.py:86-106 | a private command costs one lookup at `admin_<from>`; a non-admin gets no post, and an admin exactly one "Unknown command" reply to the message, whatever the command |
| `Legacy.TableIsReadOnly` | autoblock_function/app.py:109-124 | an invocation never changes the table and never replaces a cached config |
| `LegacyScenarios.TestParameterNames` | tests/unit/test_handler.py:26-38 | `/autoblock_bot/bot_key`, `/api_id` and `/api_hash` configure `bot_key`, `api_id` and `api_hash` |
| `LegacyScenarios.DigitsOf999999402` | tests/unit/test_handler.py:121-126 | `str(999999402)` renders as the digits `999999402` |
| `LegacyScenarios.BannedUserKey` | tests/unit/test_handler.py:121-126 | the ban lookup key for 999999402 is `user_999999402` |
| `LegacyScenarios.AdminUserKey` | tests/unit/test_handler.py:143-146 | the admin lookup key for 99999999 is `admin_99999999` |
| `LegacyScenarios.BannedUserScenario` | tests/unit/test_handler.py:114-133 | a banned 999999402 joining -1009999992388 gives one lookup and exactly one kick post with that chat and user |
| `LegacyScenarios.AdminCommandScenario` | tests/unit/test_handler.py:136-154 | an admin command gives one `admin_99999999` lookup and exactly one "Unknown command" reply to message 13 |

## Left out

- Autoblock.UsernameCommandStep: its `/add` branch runs the corrected `AddStep`, not `AddStepAsWritten`. For an admin's `/add` of a user who resolves and is not yet a member, the source raises `TypeError` at `autoblock/app.py:285` after the lookup; this member instead puts the item, replies, counts `AddUserCommand` and passes (see Findings).
- Autoblock.CommandStep: inherits the corrected `/add` from `UsernameCommandStep`, so it does not capture the `TypeError` of `autoblock/app.py:285`.
- Autoblock.DispatchStep: inherits the corrected `/add`, so an admin's `/add` of a new member passes where the source raises.
- Autoblock.LambdaStep: inherits the corrected `/add`, so that invocation answers 200 where the source's handler raises and Lambda reports an error.
- Autoblock.Bot.HandleUsernameCommand: performs `UsernameCommandStep`, so it calls `HandleAddUserCommand`, not `HandleAddUserCommandAsWritten`.
- Autoblock.Bot.HandleCommand: performs `CommandStep`, with the corrected `/add`.
- Autoblock.Bot.LambdaHandler: performs `LambdaStep`, with the corrected `/add`, and returns 200 where the source raises.
- The as-written `/add` is modelled on its own by `Autoblock.AddStepAsWritten` and `Autoblock.Bot.HandleAddUserCommandAsWritten`; `Autoblock.AddAsWrittenNeverStores` compares it with the corrected step.
- The first bot's `handle_command` works out the command text only to print it; that parse has no effect on the outcome and is not modelled.

- Exceptions raised outside the modelled interfaces propagate in the source and are not modelled: a boto3 `ClientError` from `get_item`, `put_item`, `delete_item` or `put_metric_data`; a `requests` connection error; a `get_entity` exception other than `ValueError`; a presigning failure that is not a `ClientError`. The model treats each of these calls as succeeding, or failing only in the ways its interface declares.
- Telethon: the `TelegramClient`, its start-up, and the per-bot `clients` cache of `load_client` are not modelled. Resolving a username is a function input. Each resolution is recorded as one `GetEntity` effect.
- The `raise_for_status()` calls on the greeting, reply and document posts are taken to succeed. Only the kick's status is an input.
- Decoding `event['body']` from JSON is left out; the model starts from the decoded message. The `KeyError`s of a body or event without `chat`, `from`, `message_id` or `queryStringParameters.bot_key` are not modelled.
- The chat title is only printed, so it is not kept. All `print` and `logging` calls are left out.
- CloudWatch metrics are entries in the effect log, carrying their names only. The namespace, value and unit are fixed in the source.
- The environment settings (table, index and bucket names, the parameter path) are not modelled. There is one role table, and the bucket name is a handler field.
- The export job's UTF-8 encoding, zip compression, `/tmp` file and S3 upload are left out. Its text is a Dafny string, and pagination is given as the list of pages the query returned.
- BlocklistScraper.ExportIsTheDenyList: the DynamoDB query is assumed to return each item indexed under the key exactly once. That assumption is a precondition, not something proved.
- The legacy `load_client` is never called by the legacy handler, so it is not modelled.
- Concurrent invocations and last-writer-wins races on the table are runtime behaviour, not modelled.
- `scrape_room.py` is an interactive script (console input, network member iteration, file output) and is not part of this model.
- The scenarios of the legacy unit tests start with the test configuration already cached. The parameter names it comes from are covered by `LegacyScenarios.TestParameterNames`.
- The message fixtures the legacy tests load from `events/*.json` are not part of this model. The scenarios require only the fields the assertions name.

## Findings

| source | as written | input that shows it | evidently intended | confidence | as-written member | corrected member |
|---|---|---|---|---|---|---|
| autoblock_function/autoblock/app.py:285 | `handler.add_role_to(info.id, username, reason)` passes three arguments, but both handlers' `add_role_to(self, user_id, username)` take two, so the call raises `TypeError` | an admin sends `/add @someone spam` on `/blacklist`, `@someone` resolves to an id with no `blacklist` item: the invocation raises after the lookup, nothing is stored, no reply and no metric | store the role item (username only, the handlers keep no reason), reply "has been added: spam" and count `AddUserCommand` | high, not executed | `Autoblock.AddAsWrittenNeverStores` | `Autoblock.AddGrantsMembership` |
