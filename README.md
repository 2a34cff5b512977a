# War-alert pipeline of the Valinor Discord bot, in Dafny

This project models the war-alert pipeline of the bot. It has three parts.

- **The keyed store** (`bot/src/database.ts`, module `Store`). The class `Database` has one field per
  SQLite table:
  - `apiKeys`: `user_api_keys`.
  - `monitored`: `monitored_alliances`.
  - `wars`: `tracked_wars`.
  - `guildSettings`: `guild_settings`.

  A flag `initialized` stands for the `db` handle being set by `initialize`. Each method rejects with
  "Database not initialized" before then. Each write applies a pure function that captures the SQL
  constraint behind it:
  - `INSERT OR REPLACE` on a primary key is a map update.
  - `UNIQUE(alliance_id, guild_id)` with replace deletes the conflicting row and appends the new one.
  - `UNIQUE(war_id)` with `INSERT OR IGNORE` makes the insert a no-op for a known id.
  - `UPDATE ... SET notified = TRUE` is a one-way flag.
  - `ORDER BY war_date DESC` is a stable insertion sort.
  - `LIMIT 50` is a prefix.
  - The 30-day cleanup is a filter on `created_at`.

- **The polling cycle** (`bot/src/warMonitor.ts`). Module `Monitor` has the class `WarMonitor`. Its
  methods follow the source's loops:
  - `CheckForNewWars` builds the per-user grouping and checks each user's subscriptions with that
    user's key. It then calls `SendNewWarNotifications`.
  - `SendNewWarNotifications` reloads the unnotified wars, groups them by alliance and, for each
    alliance, calls `SendAllianceWarNotifications`.
  - `SendAllianceWarNotifications` sends one alert to every monitoring channel, then marks the group
    notified.

  Each method is proved against a pure specification: `PollingCycle`, `TrackingPhase`, `NotifyTable`
  and `NotifyAttempts`. The inner loops are separate methods:
  - `CheckUserAlliances`: lines 42-44.
  - `SendToChannels`: lines 123-135.
  - `MarkNotified`: lines 137-140.

  `Grouping` models the `Map`-building loops. `Alert` models the embed as a list of name/value fields.
  `CycleProperties` proves what a whole cycle does. `CycleExample` works one cycle through end to end.

- **The authorisation guard** of the protected REST handlers (`bot/src/api-server.ts`, module `Auth`).
  It covers:
  - the Bearer header check and the token taken from it;
  - the guild lookup;
  - the administrator test (owner, or bit `0x8` of the permission integer);
  - the filter of subscriptions down to the caller's administered guilds;
  - the configuration handler's write, which happens only on success.

  The same paths are registered earlier without these checks, at lines 78, 119 and 132, and those
  earlier handlers answer first. So the guard is modelled as a standalone decision. The model does not
  claim it protects anything in the running server.

The outside world enters as parameters:
- `upstream(allianceId, apiKey)` is the result of the war API: the active wars, or a failed fetch.
- `deliver(allianceId, channelId)` is how one channel's send ends.
- `guildsOf(token)` is Discord's guild list for a token.
- `now` is the clock, in integer milliseconds.

Two consequences of the code are worth stating:
- **Unsubscribed wars stay unnotified.** `sendAllianceWarNotifications` returns before marking when no
  subscription monitors the alliance (`bot/src/warMonitor.ts:114-117`). Such wars therefore stay
  unnotified and are reconsidered every cycle (`CycleProperties.CycleMarksSubscribedWars`).
- **A failed insert does not abort the poll.** `checkAllianceWars` catches its own errors
  (`bot/src/warMonitor.ts:78-80`). Only the rest of that alliance is skipped.

## Model

| member | source | states |
|---|---|---|
| Decimal.NatToStringRoundTrip | bot/src/warMonitor.ts:64 | Reading the digits of `alliance_id.toString()` back gives the id: the rendering loses nothing. |
| Decimal.IntToStringInjective | bot/src/warMonitor.ts:64 | Distinct alliance ids render to distinct strings, so the defender comparison matches the monitored alliance and no other. |
| Grouping.GroupBy | bot/src/warMonitor.ts:24-31 | The `Map`-building loop ends with its keys in first-seen order, a key present iff it has an array, and each array equal to the elements with that key in input order. |
| Grouping.Keys | bot/src/warMonitor.ts:24-31 | The keys of a `Map` in insertion order. `KeysComplete` and `KeysDistinct` characterise them: each key carried by some element, listed once. |
| Grouping.Group | bot/src/warMonitor.ts:93-100 | The array pushed under one key. `GroupMembers` and `GroupCounts` characterise it: exactly the elements with that key, each as often as in the input, in input order. |
| Grouping.KeysComplete | bot/src/warMonitor.ts:93-100 | A key is listed exactly when some element carries it. |
| Grouping.KeysDistinct | bot/src/warMonitor.ts:103-105 | No key is listed twice, so no user is checked twice and no alliance is alerted twice. |
| Grouping.GroupMembers | bot/src/warMonitor.ts:26-31 | A group holds exactly the elements with its key. |
| Grouping.GroupEmpty | bot/src/warMonitor.ts:96-98 | A group is empty exactly when its key was never set. |
| Grouping.GroupCounts | bot/src/warMonitor.ts:95-100 | Each occurrence of an element lands in the group of its own key, as often as in the input, and in no other group. |
| Grouping.GroupsPartition | bot/src/warMonitor.ts:24-31 | The groups, concatenated in key order, are a permutation of the input: the grouping is a partition. |
| Store.ApiKeyOf | bot/src/database.ts:134-140 | The stored key when the user has a row, null otherwise. |
| Store.ApiKeyReadAfterWrite | bot/src/database.ts:127-140 | After `setUserApiKey`, a read returns the new key, and every other user's key reads as before. |
| Store.ChannelOf | bot/src/database.ts:220-226 | The stored channel when the guild has a row with a non-empty channel id; null otherwise, for an empty id too. |
| Store.ChannelReadAfterWrite | bot/src/database.ts:211-226 | After `setNotificationChannel`, a read returns the new channel (null if it is empty), and other guilds read as before. |
| Store.WithoutPair | bot/src/database.ts:149-154 | The delete keeps exactly the rows not matching both ids, and no row with the pair remains. |
| Store.WithoutPairUnique | bot/src/database.ts:149-154 | The delete keeps the pairs unique and removes one row when the pair was present, none otherwise. |
| Store.WithSubscriptionReplaces | bot/src/database.ts:142-147 | Re-adding a pair replaces its row: exactly one row holds the pair, with the new channel and user. Every other row is kept, and the table grows only when the pair was new. |
| Store.WithSubscription | bot/src/database.ts:142-147 | `INSERT OR REPLACE` under the pair constraint: the pair is present afterwards, and every row of another pair is kept. `WithSubscriptionReplaces` gives the rest. |
| Store.Subscriptions | bot/src/database.ts:156-165 | With a non-empty guild id, exactly the rows of that guild; without one, or with an empty one, every row. |
| Store.WithWarIdempotent | bot/src/database.ts:167-172 | A known war id leaves the table as it was, `notified` flag included. A new id appends one unnotified row. A second insert changes nothing, and ids stay unique. |
| Store.WithWar | bot/src/database.ts:167-172 | `INSERT OR IGNORE` on the war id: the id is tracked afterwards, and every earlier row is kept. `WithWarIdempotent` gives the rest. |
| Store.WithNotifiedEffect | bot/src/database.ts:174-179 | Marking sets the flag on the rows with that war id and on no others. It changes no other field and is idempotent. |
| Store.WithNotified | bot/src/database.ts:174-179 | `UPDATE ... SET notified = TRUE WHERE war_id = ?`: the table keeps its length. `WithNotifiedEffect` characterises the flags. |
| Store.WithNotifiedLeavesUnnotified | bot/src/database.ts:174-185 | After marking, the unnotified rows are the earlier ones minus that war. |
| Store.SortByDateDescSpec | bot/src/database.ts:183 | The sort is a permutation and is ordered newest first. |
| Store.SortByDateDesc | bot/src/database.ts:183 | `ORDER BY war_date DESC`, ties in table order. `SortByDateDescSpec` proves it a permutation sorted newest first. |
| Store.UnnotifiedWarsSpec | bot/src/database.ts:181-185 | `getUnnotifiedWars` returns each unnotified row as often as stored, no notified row, newest first. |
| Store.UnnotifiedWars | bot/src/database.ts:181-185 | The result of `getUnnotifiedWars`, characterised by `UnnotifiedWarsSpec`. |
| Store.AllianceHistorySpec | bot/src/database.ts:187-192 | Exactly 50 rows when the alliance has more, all of its rows otherwise. Every row is of the alliance, none occurs more often than in the table, and they are newest first. |
| Store.AllianceHistory | bot/src/database.ts:187-192 | The result of `getTrackedWarsForAlliance`, characterised by `AllianceHistorySpec` and `AllianceHistoryNewest`. |
| Store.AllianceHistoryNewest | bot/src/database.ts:189 | A row of the alliance cut by the limit is no newer than any row returned. |
| Store.Retained | bot/src/database.ts:194-199 | Cleanup keeps exactly the rows created no earlier than 30 days before now, and keeps war ids unique. |
| Store.RetentionExample | bot/src/database.ts:196-198 | A row created 31 days ago is deleted; one created 29 days ago is kept. |
| Store.Database.constructor | bot/src/database.ts:25 | A new database is not initialised and its tables are empty. |
| Store.Database.Initialize | bot/src/database.ts:27-39 | After `initialize` the database accepts queries; existing rows are kept. |
| Store.Database.SetUserApiKey | bot/src/database.ts:127-132 | Rejects with "Database not initialized" before `initialize`; otherwise the user's key is replaced or inserted. |
| Store.Database.GetUserApiKey | bot/src/database.ts:134-140 | Rejects before `initialize`; otherwise the user's key or null. |
| Store.Database.AddMonitoredAlliance | bot/src/database.ts:142-147 | Rejects before `initialize`; otherwise insert-or-replace on the pair, keeping the pairs unique. |
| Store.Database.RemoveMonitoredAlliance | bot/src/database.ts:149-154 | Rejects before `initialize`; otherwise deletes the row with both ids. |
| Store.Database.GetMonitoredAlliances | bot/src/database.ts:156-165 | Rejects before `initialize`; otherwise the rows of the guild, or all rows. |
| Store.Database.AddTrackedWar | bot/src/database.ts:167-172 | Rejects before `initialize`; otherwise insert-or-ignore on the war id, keeping ids unique. |
| Store.Database.MarkWarAsNotified | bot/src/database.ts:174-179 | Rejects before `initialize`; otherwise sets the flag of that war's rows. |
| Store.Database.GetUnnotifiedWars | bot/src/database.ts:181-185 | Rejects before `initialize`; otherwise the unnotified rows, newest first. |
| Store.Database.GetTrackedWarsForAlliance | bot/src/database.ts:187-192 | Rejects before `initialize`; otherwise at most 50 rows of the alliance, newest first. |
| Store.Database.Cleanup | bot/src/database.ts:194-199 | Rejects before `initialize`; otherwise deletes the rows older than 30 days. |
| Store.Database.SetNotificationChannel | bot/src/database.ts:211-218 | Rejects before `initialize`; otherwise replaces or inserts the guild's channel, stamped with now. |
| Store.Database.GetNotificationChannel | bot/src/database.ts:220-226 | Rejects before `initialize`; otherwise the channel, with an empty id reading as null. |
| Alert.WarLines | bot/src/warMonitor.ts:163 | One bullet per war, in order, each `• **attacker** → **defender**`. |
| Alert.WarAlert | bot/src/warMonitor.ts:147-181 | `createWarNotificationEmbed`, characterised by `AlertForOneWar`, `AlertForManyWars`, `MoreOnlyWhenCut` and `AlertAlwaysLinks`. |
| Alert.AlertForOneWar | bot/src/warMonitor.ts:154-160 | For exactly one war, the alert's fields are its attacker, its defender and its start, in that order. |
| Alert.AlertForManyWars | bot/src/warMonitor.ts:161-172 | For any other count, the first field is named with the count of all wars. Its value is the first ten wars (or all, if fewer), one `• **attacker** → **defender**` bullet each, joined by newlines, followed by "...and more" exactly when there are more than ten. |
| Alert.MoreOnlyWhenCut | bot/src/warMonitor.ts:169 | The list ends with the "...and more" suffix exactly when wars were cut from it. |
| Alert.AlertAlwaysLinks | bot/src/warMonitor.ts:174-178 | Every alert is red and ends with the link to `alliance/id=<allianceId>`: 4 fields for one war, 2 otherwise. |
| Alert.ListedAreNewest | bot/src/warMonitor.ts:162 | For newest-first input, no war left off the list is newer than one on it. |
| Monitor.DefensiveWars | bot/src/warMonitor.ts:63-65 | Exactly the wars whose defender's alliance id is the monitored id: a null defender alliance, or the alliance as attacker only, is dropped. |
| Monitor.CheckAlliance | bot/src/warMonitor.ts:55-81 | `checkAllianceWars`: a failed fetch leaves the table as it was; otherwise each defensive war is inserted in upstream order. `CheckAllianceEffect` characterises it. |
| Monitor.TrackingPhase | bot/src/warMonitor.ts:23-45 | The tracking half of `checkForNewWars`, characterised by `TrackingPhaseEffect` and `TrackingIdempotent`. |
| Monitor.NotifyTable | bot/src/warMonitor.ts:83-145 | The table after `sendNewWarNotifications`, characterised by `NotifyTableEffect` and `CycleMarksSubscribedWars`. |
| Monitor.NotifyAttempts | bot/src/warMonitor.ts:103-135 | The sends of `sendNewWarNotifications`, characterised by `NotifyFanOut`, `GroupFanOut` and `CycleFanOut`. |
| Monitor.PollingCycle | bot/src/warMonitor.ts:12-53 | One whole `checkForNewWars`. `CycleWithoutSubscriptions`, `TrackingPhaseEffect`, `AlertedIff`, `CycleMarksSubscribedWars` and `CycleFanOut` characterise it, and `WarMonitor.CheckForNewWars` is proved equal to it. |
| Monitor.MonitorsMembers | bot/src/warMonitor.ts:112 | The monitors of an alliance are exactly its subscriptions. |
| Monitor.RecentWars | bot/src/warMonitor.ts:185-189 | Exactly the wars dated strictly after one day before now. |
| Monitor.SendToChannels | bot/src/warMonitor.ts:123-135 | The send loop yields one attempt per monitor, whatever earlier deliveries ended in. |
| Monitor.WarMonitor.constructor | bot/src/warMonitor.ts:6-10 | The monitor holds the database it was given. |
| Monitor.WarMonitor.CheckForNewWars | bot/src/warMonitor.ts:12-53 | The table and the attempts after a cycle are those of `PollingCycle` on the stored subscriptions and keys, and the UNIQUE constraints still hold. |
| Monitor.WarMonitor.CheckUserAlliances | bot/src/warMonitor.ts:42-44 | Checks a user's subscriptions in order, all with that user's key. |
| Monitor.WarMonitor.CheckAllianceWars | bot/src/warMonitor.ts:55-81 | A failed fetch changes nothing; otherwise each defensive war is inserted in upstream order. |
| Monitor.WarMonitor.SendNewWarNotifications | bot/src/warMonitor.ts:83-106 | Alerts each alliance of the reloaded unnotified wars in first-seen order, with the marks and attempts of `NotifyTable` and `NotifyAttempts`. |
| Monitor.WarMonitor.SendAllianceWarNotifications | bot/src/warMonitor.ts:108-145 | No monitor: nothing is sent or marked. Otherwise one alert goes to every monitoring channel and the whole group is marked. |
| Monitor.WarMonitor.MarkNotified | bot/src/warMonitor.ts:137-140 | Marks every war of the group, one update each. |
| Monitor.WarMonitor.GetWarSummary | bot/src/warMonitor.ts:183-196 | Rejects before `initialize`. Otherwise the count of the alliance's history (at most 50), the count dated within the last day (no more than that), and at most the 5 newest rows, all of the alliance, newest first. |
| CycleProperties.TrackWarsEffect | bot/src/warMonitor.ts:67-76 | The insert loop only appends rows, each the row of one of the wars. Every war ends up tracked, and ids stay unique. |
| CycleProperties.CheckAllianceEffect | bot/src/warMonitor.ts:55-81 | A checked subscription appends only rows of defensive wars that upstream reported for it. Every such war ends up tracked; a failed fetch appends nothing. |
| CycleProperties.CheckSubscriptionsEffect | bot/src/warMonitor.ts:42-44 | Over one user's subscriptions, every appended row comes from a defensive war fetched for one of them. All such wars end up tracked. |
| CycleProperties.CheckUsersEffect | bot/src/warMonitor.ts:34-45 | Over the users, appended rows come only from subscriptions whose owner has a non-empty key. Every defensive war of such a subscription ends up tracked. |
| CycleProperties.TrackingPhaseEffect | bot/src/warMonitor.ts:23-45 | The tracking phase only appends rows. Each is a defensive war of a subscription whose owner has a usable key, so keyless users' subscriptions add nothing. Every such war of every subscription is tracked, whatever other fetches did, and ids stay unique. |
| CycleProperties.TrackingIdempotent | bot/src/warMonitor.ts:67-76 | A second tracking pass over the same upstream answers, at any later time, leaves the table unchanged. |
| CycleProperties.CycleWithoutSubscriptions | bot/src/warMonitor.ts:16-21 | With no subscription, or before the database is open, a cycle changes nothing and sends nothing. |
| CycleProperties.MonitorsNonEmpty | bot/src/warMonitor.ts:111-117 | The monitor list is empty exactly when no subscription names the alliance. |
| CycleProperties.MarkAllEffect | bot/src/warMonitor.ts:137-140 | The mark loop sets the flag exactly on rows whose war is in the group, and changes nothing else. |
| CycleProperties.AllianceMarksEffect | bot/src/warMonitor.ts:114-140 | An alliance's wars are all marked when a subscription monitors it, and none otherwise. |
| CycleProperties.NotifyTableEffect | bot/src/warMonitor.ts:103-105 | Over the alliance loop, a row ends up notified iff it was, or some subscribed alliance's group holds its war. |
| CycleProperties.AlertedIff | bot/src/warMonitor.ts:84-100 | After the reload and grouping, a tracked war is alerted exactly when it was unnotified and its alliance has a subscription. |
| CycleProperties.CycleMarksSubscribedWars | bot/src/warMonitor.ts:83-145 | After a cycle, rows stay in place with only the flag changed. A row is notified iff it already was or its alliance has a subscription, so wars of unsubscribed alliances stay unnotified. |
| CycleProperties.AttemptsSpec | bot/src/warMonitor.ts:123-135 | Exactly one attempt per monitor, to its channel, all with the same embed, each keeping its own outcome. |
| CycleProperties.NotifyFanOut | bot/src/warMonitor.ts:103-105 | Over distinct alliances, the attempts for an alliance are exactly those of its own alert, or none when it is not listed. |
| CycleProperties.GroupFanOut | bot/src/warMonitor.ts:93-135 | Over the grouping, an alliance with wars gets one attempt per monitor, with its group's alert; one without wars gets none. |
| CycleProperties.CycleFanOut | bot/src/warMonitor.ts:108-135 | In a cycle, an alliance with k monitoring subscriptions and unnotified wars gets exactly k attempts, one per channel, with the same alert and independent outcomes. Without unnotified wars it gets none. |
| CycleProperties.GroupSorted | bot/src/warMonitor.ts:95-100 | Grouping keeps a newest-first order within each group. |
| CycleProperties.AlertGroupNewestFirst | bot/src/database.ts:183 | The group an alert is built from is newest first, so its first ten are the newest. |
| CycleExample.ExampleDefensive | bot/src/warMonitor.ts:63-65 | A war whose defender alliance id is "10523" is defensive for alliance 10523. |
| CycleExample.OneWarExample | bot/src/warMonitor.ts:12-53 | Alliance 10523, one subscription and one reported war: after one cycle the war is tracked and notified, and channel "C" got one alert naming "Enemy" and "Nation Beta". |
| Auth.SplitFirst | bot/src/api-server.ts:305 | The first field of `split(' ')` runs up to the first space or to the end. |
| Auth.TokenIsSecondField | bot/src/api-server.ts:305 | The token is what follows "Bearer " up to the next space or the end. |
| Auth.Token | bot/src/api-server.ts:305 | `authHeader.split(' ')[1]`, defined only after a "Bearer " prefix. `TokenIsSecondField` characterises it. |
| Auth.HasAdministratorBit | bot/src/api-server.ts:324 | Bit 3 of the permission integer in two's complement. `AdministratorBitIsMask` proves it the `& 0x8` test on 64-bit words. |
| Auth.IsAdmin | bot/src/api-server.ts:324-327 | Owner, or the administrator bit. It is the same test at lines 379 and 420, shared by all three handlers. |
| Auth.AdministratorBitIsMask | bot/src/api-server.ts:324 | On 64-bit permission words the administrator test is the mask test `p & 0x8 == 0x8`. |
| Auth.FindGuild | bot/src/api-server.ts:318 | Null exactly when no listed guild has the id; otherwise a listed guild with that id. |
| Auth.FindGuildFirst | bot/src/api-server.ts:318 | The guild found is the first one with the id. |
| Auth.AdminGuildIds | bot/src/api-server.ts:378-380 | An id is listed exactly when some administered guild has it. |
| Auth.VisibleMembers | bot/src/api-server.ts:384 | A subscription is shown exactly when its guild id is among the administered ones. |
| Auth.VisibleConcat | bot/src/api-server.ts:384 | The filter distributes over concatenation, so it keeps the stored order. |
| Auth.VisibleSingleGuild | bot/src/api-server.ts:383-384 | For one administered guild, the filter equals the store's per-guild query. |
| Auth.TextChannels | bot/src/api-server.ts:335-341 | Exactly the text-based channels that are not DM-based. |
| Auth.GuildAccess | bot/src/api-server.ts:300-327 | A missing or non-Bearer header is refused with 401. Admission means the guild has the requested id, is administered by the caller and is among Discord's guilds for the token. |
| Auth.ChannelsReply | bot/src/api-server.ts:298-349 | The channels handler, characterised by `HeaderCheckedFirst`, `NonMemberRefused`, `GrantedOnlyToAdmins`, `GuardsAgree` and `BotAbsentNotFound`. |
| Auth.MonitoringReply | bot/src/api-server.ts:352-392 | The monitoring handler, characterised by `HeaderCheckedFirst` and `MonitoringShowsAdminGuilds`. |
| Auth.ConfigReply | bot/src/api-server.ts:395-433 | The configuration handler's answer, characterised by `HeaderCheckedFirst`, `NonMemberRefused`, `GrantedOnlyToAdmins` and `GuardsAgree`. |
| Auth.ConfigureChannel | bot/src/api-server.ts:395-433 | The answer is the guard's decision. The notification channel is written exactly when the answer is a success. |
| Auth.HeaderCheckedFirst | bot/src/api-server.ts:300-303 | With a missing or non-Bearer header, all three handlers answer 401 "Authentication required", whatever else holds. |
| Auth.NonMemberRefused | bot/src/api-server.ts:318-321 | A caller not in the guild gets 403 "not a member" from both guild handlers, before the admin test. |
| Auth.NonAdminRefused | bot/src/api-server.ts:324-327 | A caller whose first listing of the guild is neither owner nor administrator gets 403 "Administrator permissions required" from both guild handlers. |
| Auth.GrantedOnlyToAdmins | bot/src/api-server.ts:324-327 | A channel list or a configuration write is granted only on a Bearer header whose token Discord accepts and whose first listing of the guild is administered by the caller. |
| Auth.GuardsAgree | bot/src/api-server.ts:415-423 | The channel and configuration handlers refuse the same requests with 403, with the same message. |
| Auth.MonitoringShowsAdminGuilds | bot/src/api-server.ts:378-386 | The monitoring answer lists exactly the subscriptions of administered guilds, in stored order. |
| Auth.BotAbsentNotFound | bot/src/api-server.ts:330-333 | An admitted caller asking for a guild the bot is not in gets 404. |

## Left out

- The war API client (`bot/src/api.ts`) is not part of this model. Its answer is the `upstream` parameter: the wars of an alliance, or a failed fetch.
- `upstream` is a function of the alliance id and the key. When one user subscribes the same alliance from two guilds, the two fetches of one cycle (`bot/src/warMonitor.ts:42-44`, `60`) therefore get the same answer. The real API may answer them differently.
- Alliance ids are modelled as unbounded integers. The source holds them in JavaScript numbers, exact only up to 2^53, and `toString` switches to exponent form from 1e21 on.
- discord.js is not modelled:
  - Fetching a channel, `isTextBased` and `send` become the `deliver` parameter.
  - `deliver` is a function of the alliance id and the channel id. Two subscriptions of one alliance that name the same channel (nothing in the store prevents it) therefore get the same outcome in one cycle, which real sends need not.
  - The `EmbedBuilder` becomes the `Embed` datatype.
  - `setTimestamp` stores `now`.
- `toLocaleString` of the war start is rendered as the decimal integer timestamp. Locale formatting is not modelled.
- Timestamps are integers:
  - `war_date` and `created_at` order as integers. The stored text's order is not modelled.
  - `CURRENT_TIMESTAMP`, `datetime('now')` and `Date.now()` become the `now` parameter.
- The `id AUTOINCREMENT` columns are represented by row position.
- Ties in `ORDER BY war_date DESC` keep table order. SQLite leaves that order unspecified.
- SQLite failures other than "not initialized" are not modelled: a failed open in `initialize`, and I/O errors on an open database. The in-memory tables never fail once open. So in the model the catch at `bot/src/warMonitor.ts:142-144` is never entered. In the program it would be entered if building the embed threw, for example if a discord.js version that limits field values to 1024 characters rejected ten long bullets. That group would then be left unmarked. Embed size limits are not modelled. The catch at `78-80` is entered only by a failed fetch (`FetchFailed`), which leaves the table unchanged. The catch at `50-52` is entered only by a query before `initialize`, which the cycle turns into "no change, nothing sent".
- `close` (`bot/src/database.ts:228-243`) is not modelled. It is connection lifecycle, and it leaves `db` set.
- `getGlobalConfig` (`bot/src/database.ts:202-209`) is not modelled. It returns a constant.
- `createTables` is not modelled as a loop. The model starts from empty tables. `CREATE TABLE IF NOT EXISTS` on an existing file keeps its rows, and such a file is simply some starting state; the lemmas hold for any table.
- Scheduling is not modelled: the cron schedule and overlapping cycles (`bot/src/index.ts`), and the slash commands. A cycle is one sequential call.
- Express routing, CORS, the OAuth token exchange and axios are not modelled. Discord's answers become `guildsOf`.
- The monitoring handler makes two Discord calls, `/users/@me` and `/users/@me/guilds`. They are folded into one `guildsOf` answer.
- The unprotected handlers at `bot/src/api-server.ts:78`, `119` and `132` are not modelled. Being registered first, they answer those paths before the guarded ones.
- Auth.UserGuild: permissions are taken as the parsed integer. A permission string that `BigInt` cannot parse would throw into the handler's catch, and that path is not modelled.
- Auth.ChannelsReply: the `{id, name, type}` projection of each channel is not modelled. It returns the filtered channels themselves.
- Auth.ConfigureChannel: request bodies without `guildId` or `channelId` are not modelled.
- Auth.GuardsAgree: compares only the 403 answers. The 401 header answer is covered by `HeaderCheckedFirst`. Discord's rejection of the token is 401 in one handler and 500 in the other, as in the source.
- Auth.AdministratorBitIsMask: states the mask equivalence for 64-bit non-negative words. For any other integer, `HasAdministratorBit` tests two's-complement bit 3 directly.
- Monitor.WarMonitor.SendNewWarNotifications: the early return on an empty reload (`bot/src/warMonitor.ts:86-88`) is not a separate branch. With no unnotified war the alliance loop runs zero times, which has the same effect.
- Monitor.WarMonitor.CheckForNewWars: requires the two UNIQUE constraints (`Database.Valid`). The constructor establishes them and every store method preserves them.
- The React dashboard, `server.js`, deployment files and `src/mockData.ts` are not modelled. They are UI and fixtures.
