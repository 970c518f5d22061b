# location-bot core, modelled in Dafny

This project models the deterministic core of location-bot. The bot is a Discord bot with a
Flask web portal. Users pick a nearby store on the portal, and the bot posts a "check-in"
embed to a channel. The model covers:

- **Store search** (`Search`, `Stores`, `StoreCache`). `search_nearby_stores_enhanced` does
  the following:
  - filters the fixed store catalogue by category;
  - visits the priority groups in ascending order;
  - tries each store's keywords until one answer is non-empty;
  - drops places outside the radius, places whose details request raised, and closed
    businesses;
  - scores quality;
  - removes duplicates by place id and by proximity (`remove_duplicate_stores`);
  - ranks the result by (priority, distance, -quality);
  - caches the result in the in-memory TTL cache (`EnhancedLocationCache`).

  The maps provider, the Haversine distance and `log10` are function parameters.
- **Check-ins** (`CheckIn`):
  - The `/location` command writes the global `LOCATION_CHANNEL_ID` and the per-(channel,
    user) record in `LOCATION_USER_INFO`.
  - Posting a check-in reads that record with a fallback to "Someone".
  - It then deletes the first earlier bot check-in among the ten newest channel messages,
    and posts the new embed.
- **Small decisions** of bot.py:
  - phone formatting and store branding (`Formatting`);
  - the role hierarchy of `check_user_permissions` (`Access`);
  - the portal URL choice and the radius check (`Portal`);
  - the `/health` verdict (`Health`).
- **config.py** (`Config`): the coordinate and radius validators, and `get_railway_url` with
  its fallback URL.
- **migrate_database.py**:
  - `BotConfig.from_env` and `BotConfig.validate` (`BotSettings`);
  - the schema migration of `migrate_database` (`Migration`). It runs on an abstract SQLite
    schema: table names, column names per table and index names.

Stateful code becomes classes whose methods are proved against specification functions:
- `StoreCache.MemoryCache` for the cache;
- `CheckIn.Registry` and `CheckIn.Channel` for the registry and the channel;
- `Migration.Database` for the open database.

Loops become `while`/`for` loops with invariants:
- `Stores.RemoveDuplicateStores`, `Search.SearchTerms`, `Search.ProcessPlaces` and
  `Search.CollectCandidates`;
- the delete loop of `MemoryCache.ClearExpired`;
- the history scan of `Channel.DeletePreviousCheckIn`;
- the migration loops under `Migration.Database`;
- the five checks of `BotSettings.Validate`.

`Seqs`, `Text` and `Wrappers` are shared helpers: order-preserving selection, ASCII string
functions, and Option/Result.

Behaviour of the code that the model keeps on purpose:
- `LOCATION_CHANNEL_ID` is one global, not one per session. A check-in is posted to the
  channel of the most recent `/location`, and the user record is looked up under that channel.
- Nothing validates the session id.
- `found_places` is not reset between store configs. When every keyword request of a config
  raises, the previous config's places are processed again under the new config
  (`Search.AllFailedKeepsPrevious`).
- SQLite runs the DDL statements of the migration outside a transaction. Python's `sqlite3`
  opens transactions only for DML. So the rollback after a failed statement undoes nothing,
  and a failed run keeps the columns, tables and indexes added before the failure
  (`Migration.MigrateSchema`, `Migration.FailureKeepsTables`).
- SQLite refuses `ADD COLUMN ... DEFAULT CURRENT_TIMESTAMP` on a table that holds rows,
  because the default is not constant. So migration 4 fails on a populated
  `user_permissions` without `last_used`, after `permissions` has been added
  (`Migration.LastUsedRefused`, `Migration.LastUsedFailureKeepsEarlier`).
- The applied-migrations list is a list of `Migration.LogLine` values. `Migration.Text` gives
  the printed text of each line.

## Model

| member | source | states |
|---|---|---|
| Access.RoleRank | bot.py:677-680 | moderator ranks 1, admin 2, superadmin 3, user 0; any other role ranks 0; no rank exceeds 3 |
| Access.CheckUserPermissions | bot.py:664-693 | a failing query or a missing record grants exactly the 'user' level; with a record, the grant holds iff the user's rank is at least the required rank; a grant whose `last_used` UPDATE raises falls to the except branch and grants only 'user' |
| Access.UserLevelAlwaysGranted | bot.py:664-693 | 'user' is granted on every path, database errors included |
| Access.GrantMonotoneInRank | bot.py:677-680 | with a stored record, a higher-ranked role is granted whatever a lower-ranked one is granted |
| Access.UnknownRequiredRole | bot.py:677-680 | for every required role outside the four known ones and every stored role: granted to a user with a record, refused to a user without one |
| Access.HierarchyOrder | bot.py:677-680 | an admin passes a moderator check, a moderator fails an admin check, and a superadmin passes a check for any required role |
| Config.Getenv | config.py:83-84 | `os.getenv(name)` is None exactly when the variable is unset, else its value (possibly empty) |
| Config.GetenvOr | config.py:85-86 | the default replaces only an unset variable, never an empty one |
| Config.ValidCoordinates | config.py:108-112 | true iff -90 ≤ lat ≤ 90 and -180 ≤ lng ≤ 180 |
| Config.ValidRadius | config.py:114-116 | true iff 1 ≤ radius ≤ 50 |
| Config.CoordinateBoundsInclusive | config.py:108-112 | all four bounds are accepted; any step past a bound is rejected |
| Config.DefaultFallbackUrl | config.py:85-89 | with project and service unset, the fallback is `https://web-production-f0220.up.railway.app` |
| Config.RailwayUrl | config.py:118-125 | a non-empty RAILWAY_STATIC_URL is returned unchanged, whatever it contains; otherwise RAILWAY_URL when it is non-empty and free of 'your-app'; otherwise the fallback URL; never empty |
| Health.HealthCheck | bot.py:2497-2550 | unhealthy (503) iff the bot is disconnected or the database probe fails; degraded (200) iff both are fine but maps is unavailable; healthy (200) iff all three are fine |
| Portal.OrElse | bot.py:1116 | Python's `a or b` on an optional string: `a` when truthy, else `b` |
| Portal.Normalize | bot.py:1118-1126 | an empty URL, or one containing 'your-app', becomes `https://{RAILWAY_PROJECT_NAME or web-production}-{RAILWAY_SERVICE_NAME or f0220}.up.railway.app`; otherwise a URL not starting with "http" gets "https://" in front, and one starting with "http" is kept; the result always starts with "http" |
| Portal.SchemeKeepsPlaceholder | bot.py:1118-1122 | the 'your-app' test gives the same answer before and after "https://" is put in front |
| Portal.PortalBaseUrlAsWritten | bot.py:1113-1126 | the first non-empty one of RAILWAY_STATIC_URL, RAILWAY_URL and PORT, normalized; the fixed default when all three are unset or empty; always starts with "http" |
| Portal.PortalBaseUrl | bot.py:999-1013 | the corrected choice: the first non-empty one of RAILWAY_STATIC_URL and RAILWAY_URL, normalized, else the fixed default; a clean http RAILWAY_STATIC_URL is used unchanged; always starts with "http" |
| Portal.DefaultPortalUrlIsClean | bot.py:1002 | the hard-coded default starts with "http" and does not contain 'your-app', so it survives normalisation |
| Portal.PortBecomesHost | bot.py:1114-1120 | as written, an environment with only PORT=8080 yields the portal URL `https://8080` |
| Portal.PortIgnoredWhenCorrected | bot.py:1114-1126 | without the PORT fallback, that environment yields the fixed default URL |
| Portal.PortalBaseUrlIgnoresPort | bot.py:999-1013 | the corrected portal URL does not depend on PORT at all |
| Portal.SessionLink | bot.py:1016 | the posted link starts with the base URL |
| Portal.SearchRadiusRejected | bot.py:1106 | `/search` rejects exactly the radii that config.py's `validate_radius` rejects |
| Text.Digits | bot.py:897 | keeps only digits, is no longer than the input, and is the identity on an all-digit string |
| Formatting.FormatPhone | bot.py:894-905 | 10 digits give `(ddd) ddd-dddd`; 11 digits starting with 1 give `+1 (ddd) ddd-dddd`; any other digit count returns the input unchanged |
| Formatting.TenDigitLayout | bot.py:900-901 | the ten-digit layout carries exactly the ten digits, in order |
| Formatting.ElevenDigitLayout | bot.py:902-903 | the eleven-digit layout carries exactly the eleven digits, in order |
| Formatting.FormatPhoneKeepsDigits | bot.py:897-905 | formatting never adds, drops or reorders a digit |
| Formatting.FormatPhoneIdempotent | bot.py:894-905 | formatting a formatted number changes nothing |
| Formatting.CategoryEmoji | bot.py:874-882 | an unknown category gets 🏢 and a known one never does |
| Formatting.CategoryColor | bot.py:884-892 | an unknown category gets 0x7289DA; every colour is a 24-bit value |
| Formatting.BaseBranding | bot.py:854-862 | a known chain gets its table entry; any other chain gets the category emoji and colour, and the description "{category} Store", or "Store" for an empty category |
| Formatting.StoreBranding | bot.py:864-872 | q ≥ 8 gives 0xFFD700, 6 ≤ q < 8 gives 0x32CD32, q < 3 gives 0xFF6B6B, 3 ≤ q < 6 keeps the base colour; emoji and description are always the base ones |
| Formatting.BrandingIgnoresQualityExceptColor | bot.py:830-872 | two quality scores give the same emoji and description |
| StoreCache.EffectiveTtl | bot.py:155 | an absent or zero ttl falls back to the default; any other ttl is used as given |
| StoreCache.Lookup | bot.py:141-147 | a read returns the data exactly when the key is present and now is strictly before its expiry |
| StoreCache.Sweep | bot.py:169-175 | keeps exactly the entries with now < expiry, each unchanged |
| StoreCache.SweepPreservesLookups | bot.py:130-177 | a sweep never changes what a read at the same or a later time returns |
| StoreCache.SweepIdempotent | bot.py:169-175 | a second sweep at the same time removes nothing more |
| StoreCache.SetThenLookup | bot.py:153-164 | data written at `now` is read back exactly during [now, now + effective ttl) |
| StoreCache.MemoryCache.constructor | bot.py:109-111 | a new cache is empty with the given default ttl |
| StoreCache.MemoryCache.Get | bot.py:130-151 | returns the lookup result; deletes the key exactly when it is present and expired; leaves everything else alone |
| StoreCache.MemoryCache.Set | bot.py:153-167 | replaces the key's entry with (data, now + effective ttl); leaves the other keys alone |
| StoreCache.MemoryCache.ClearExpired | bot.py:169-177 | the entries afterwards are exactly the sweep of the entries before |
| Stores.FirstNear | bot.py:618-635 | the index of the first kept store within 100 m (or the length when there is none); no earlier kept store is near |
| Stores.StepKeepsConsistent | bot.py:612-639 | one loop iteration keeps kept ids distinct and recorded in `seen_place_ids`, adds at most one store, which is the current one, and never forgets a seen id |
| Stores.DedupFromProperties | bot.py:606-641 | the whole loop keeps that invariant; every kept store comes from the start state or the input |
| Stores.DeduplicatedProperties | bot.py:606-641 | the output has pairwise distinct place ids, every output store is an input store, and the output is no longer than the input |
| Stores.NearPairRule | bot.py:626-635 | of two nearby stores with different ids, the later one replaces the earlier only with a strictly higher quality score; a tie keeps the earlier |
| Stores.RejectedIdNotSeen | bot.py:636-639 | a store rejected as a near duplicate does not mark its id as seen |
| Stores.NearStoresCanSurvive | bot.py:618-635 | only the first near match is compared, so the output can contain two stores within 100 m of each other (a concrete three-store input) |
| Stores.RemoveDuplicateStores | bot.py:606-641 | the loops compute `Deduplicated`; distinct ids, input stores only, no longer than the input |
| Stores.RankLeTotal | bot.py:559 | any two stores are comparable under the (priority, distance, -quality) key |
| Stores.RankLeTransitive | bot.py:559 | the key order is transitive |
| Stores.Insert | bot.py:559 | inserting into a ranked list gives a ranked list with one more occurrence of the store |
| Stores.Rank | bot.py:559 | the sorted list is in ascending key order and is a permutation of the input |
| Stores.RankKeepsDistinctIds | bot.py:558-559 | sorting the deduplicated list keeps its place ids distinct |
| Search.MatchingCategory | bot.py:430 | keeps exactly the configs whose lower-cased category equals the lower-cased argument |
| Search.FilterByCategory | bot.py:429-430 | a falsy category keeps every config; a truthy one keeps the case-insensitive matches |
| Search.NoMatchNothingSelected | bot.py:430 | with no matching config, nothing is searched |
| Search.CategorySelectsAtMostOne | bot.py:360-368 | over the catalogue, any category selects at most one store config |
| Search.MinPriority | bot.py:440 | the smallest priority present, which some config carries |
| Search.WithPriority | bot.py:433-435 | the configs of one priority level, all taken from the input |
| Search.WithoutPriority | bot.py:433-435 | the configs of every other level; strictly fewer than the input when the level is present |
| Search.PrioritySplit | bot.py:433-435 | the group at priority p together with the remaining configs is the input, as a multiset |
| Search.PriorityOrder | bot.py:433-443 | the visiting order is a permutation of the configs in ascending priority |
| Search.SinglePriorityKeepsOrder | bot.py:433-443 | with one priority level, the configs are visited in catalogue order |
| Search.CatalogSearchOrder | bot.py:428-443 | every catalogue config has priority 1, so the filtered catalogue is searched in its own order |
| Search.Terms | bot.py:445 | the config's keyword list when it is non-empty, else the one-element list of its query; so every config is searched at least once |
| Search.FirstHitWins | bot.py:447-466 | the first keyword with a non-empty answer decides `found_places`, whatever follows |
| Search.AllFailedKeepsPrevious | bot.py:447-468 | when every keyword's request raises, `found_places` keeps the previous config's value |
| Search.SearchTerms | bot.py:447-466 | the keyword loop with its `break` computes `TermsOutcome` |
| Search.QualityScore | bot.py:573-604 | never negative; for distance ≥ 0, at most the rating points plus 4; zero for a far (≥ 15 miles), bare, closed or unrated place with rating at most 1 |
| Search.PyPrefix | bot.py:472 | Python's `found_places[:n]`: a prefix of the list; of length min(n, len) for n ≥ 0; for negative n, of length len + n, or empty when that is negative |
| Search.PlaceToStore | bot.py:475-541 | a store is built iff the place is within the radius in miles, its details request succeeded, and the business is not closed; it then carries the config's chain, category and priority, the computed distance and a non-negative quality |
| Search.BuiltStoresFacts | bot.py:475-541 | every built store comes from one of the places, lies within the radius and carries the config's fields |
| Search.ProcessPlaces | bot.py:472-541 | the place loop computes `BuiltStores` over the prefix; at most `max_stores_per_type` stores, all within the radius |
| Search.ResultTtl | bot.py:564 | 1800 seconds for a non-empty result, 300 for an empty one |
| Search.FreshResultProperties | bot.py:558-559 | a fresh result has distinct place ids and is in ranking order |
| Search.CollectCandidates | bot.py:440-551 | the config loop collects `Candidates`, with `found_places` carried from config to config |
| Search.SearchNearbyStores | bot.py:410-567 | a non-empty cached result (read at the first clock reading) is returned as is; without a maps client the answer is empty; otherwise the fresh result is returned and cached from the second clock reading for 1800 s, or 300 s when empty; the expired entry is deleted first |
| Search.EmptyCachedResultIsMiss | bot.py:415-417 | a live cached empty list is falsy and does not short-circuit the search |
| CheckIn.UserKey | bot.py:1020 | the key is as long as both ids plus one character, and that character, right after the channel id, is '_' |
| CheckIn.UserKeyInjective | bot.py:1020 | for channel ids without '_', a key names exactly one (channel, user) pair |
| CheckIn.ResolveUser | bot.py:2400-2409 | a truthy user id with a record under `{LOCATION_CHANNEL_ID}_{user_id}` gives that record's name and avatar; otherwise "Someone" and no avatar |
| CheckIn.Registry.constructor | bot.py:761-762 | no channel and no records at start |
| CheckIn.Registry.StartSession | bot.py:1019-1028 | the global channel becomes this channel; the user's record under the (channel, user) key is replaced; the other records stay |
| CheckIn.OwnSessionResolves | bot.py:2404-2409 | right after a user's own `/location`, that user's check-in carries their name and avatar |
| CheckIn.LaterSessionElsewhereHidesName | bot.py:2404-2409 | after another user runs `/location` in a second channel, the first user's check-in is looked up under the second channel and shows "Someone" |
| CheckIn.TitlesVerdict | bot.py:2454 | Hit only when some embed title contains "Check-in"; Raise only when some embed has no title (so the `in` test raises); Miss only when every embed has a title without "Check-in" |
| CheckIn.FirstEmbedDecides | bot.py:2454 | the first embed that is untitled or holds "Check-in" decides: Hit iff it holds "Check-in", Raise iff it is untitled, Miss iff there is no such embed |
| CheckIn.ScanFrom | bot.py:2450-2457 | Found: the first bot message with embeds among the ten newest whose titles hit, every earlier one a miss; Raised: the first message among the ten newest that is not a miss raises, every earlier one a miss; NotFound: all ten miss |
| CheckIn.AfterDeletion | bot.py:2448-2459 | when the scan finds a message and its deletion does not raise, exactly that message is removed and the others keep their order; otherwise the history is unchanged |
| CheckIn.CheckInTitle | bot.py:2418 | the embed title `{username}'s Check-in` contains "Check-in" |
| CheckIn.Channel.DeletePreviousCheckIn | bot.py:2448-2459 | the history loop leaves exactly `AfterDeletion` of the old history |
| CheckIn.Channel.Send | bot.py:2462 | the new message becomes the newest |
| CheckIn.PostCheckIn | bot.py:2376-2494 | posted iff the bot is ready, a channel id is set, the channel exists, a store was selected and the send does not raise; the channel is untouched before those checks pass; otherwise the previous check-in is deleted and the new embed sent, even when the deletion raised |
| CheckIn.NextCheckInReplacesIt | bot.py:2448-2457 | a posted check-in is what the next check-in deletes, whoever posts next |
| CheckIn.OthersMessagesKept | bot.py:2452 | a message by anyone but the bot is never deleted |
| CheckIn.UntitledEmbedBlocksDeletion | bot.py:2450-2459 | in any history, a bot message among the ten newest whose first untitled-or-"Check-in" embed is untitled, preceded only by misses, makes the scan raise, so nothing is deleted, whether or not a deletion would raise |
| CheckIn.OlderThanTenIgnored | bot.py:2450 | messages older than the tenth newest are never deleted |
| BotSettings.ParseInt | migrate_database.py:115 | `int()` succeeds exactly on an optional sign followed by at least one ASCII digit |
| BotSettings.ParseIntRoundTrip | migrate_database.py:115 | `int(str(n)) == n` for every integer |
| BotSettings.Flag | migrate_database.py:127-130 | a flag is true when unset, and otherwise iff the value lower-cases to 'true' |
| BotSettings.FromEnv | migrate_database.py:109-131 | succeeds iff the five integer settings parse; on success every field comes from its variable (the token defaults to "", the API keys and REDIS_URL are None when unset, the five integers are their parsed texts, the four flags read their own variables, debug iff FLASK_ENV is 'development'); a failure names the first setting, in argument order, that does not parse |
| BotSettings.EmptyEnvironmentDefaults | migrate_database.py:67-131 | an empty environment gives every dataclass default |
| BotSettings.DefaultNumbersParse | migrate_database.py:115-125 | the default texts "10", "20", "1800" and "5000" parse to their values |
| BotSettings.FlagSpellings | migrate_database.py:127-130 | "TRUE" enables a flag, "1" and "yes" do not |
| BotSettings.ErrorsDistinct | migrate_database.py:137-150 | the five error messages are pairwise different |
| BotSettings.Checks | migrate_database.py:137-150 | no check fails iff the configuration is acceptable |
| BotSettings.Report | migrate_database.py:137-138 | a check contributes its message iff it fails, and at most one message |
| BotSettings.FiveReports | migrate_database.py:133-152 | five checks over distinct messages report exactly the failed checks' messages, in check order, each once |
| BotSettings.ValidationReport | migrate_database.py:133-152 | the five appends give the selection of failed checks; empty iff acceptable; each message present iff its condition holds; in fixed order; distinct; at most 5 |
| BotSettings.Validate | migrate_database.py:133-152 | `validate` returns an empty list iff the token is non-empty, the maps key is set, weather is off or its key is set, the pool size ≥ 1 and the rate limit ≥ 1; each error iff its condition (the weather error only when weather is on); in fixed order; at most once each |
| Migration.ColumnNames | migrate_database.py:208-214 | the names of the five new columns, in list order |
| Migration.MissingStep | migrate_database.py:218-219 | checking one more name appends it exactly when it is absent from the snapshot |
| Migration.MissingMembers | migrate_database.py:218-219 | a name is among the missing ones iff it is one of the checked names and absent from the snapshot |
| Migration.MissingInOrder | migrate_database.py:216-221 | the missing names are a subsequence of the list: exactly the absent names, in list order |
| Migration.NothingMissing | migrate_database.py:218-219 | nothing is missing once every name is present |
| Migration.Messages | migrate_database.py:220-221 | one log line per name, in order, each naming its name |
| Migration.AddColumn | migrate_database.py:219 | `ALTER TABLE ... ADD COLUMN` adds the column to that table only |
| Migration.ColumnsUpToFacts | migrate_database.py:216-221 | the column loop adds exactly the missing names to the table and changes no other table, no table set and no index |
| Migration.ColumnMigration | migrate_database.py:205-221 | migration 1 leaves `user_locations` with every new column, adds exactly the missing ones in list order, and touches nothing else |
| Migration.NoColumnsWithoutTable | migrate_database.py:206 | without `user_locations`, migration 1 does nothing |
| Migration.FailureSticks | migrate_database.py:230-232 | after a failed index statement no later one runs |
| Migration.IndexesUpToFacts | migrate_database.py:223-232 | migration 2 only adds the three index names and, when it passes, all three exist |
| Migration.CreatableIndexesPass | migrate_database.py:223-232 | migration 2 passes when every index's table and columns exist |
| Migration.ExistingIndexesSkipped | migrate_database.py:224-228 | with `user_locations` present and every index name existing, migration 2 changes nothing |
| Migration.IndexableTableSucceeds | migrate_database.py:223-320 | with a `user_locations` table holding user_id, timestamp, lat and lng, the whole run succeeds iff migration 4 is not refused the `last_used` column (store_category comes from migration 1) |
| Migration.MissingTableFails | migrate_database.py:223-232 | without `user_locations` the first index statement fails, whatever indexes exist, and the schema is left as it was |
| Migration.FailureKeepsTables | migrate_database.py:223-335 | a failed index statement leaves the table set and every table but `user_locations` as they were; a refused `last_used` column leaves all new tables, all three indexes and the `permissions` column in place, without `last_used` |
| Migration.FailureCauses | migrate_database.py:223-320 | a run fails iff an index statement fails or SQLite refuses the `last_used` column |
| Migration.IndexFailureKeepsTables | migrate_database.py:223-232 | after a failed index statement no table is created and no table but `user_locations` changes |
| Migration.LastUsedFailureKeepsEarlier | migrate_database.py:309-320 | after the refused `last_used` statement the new tables, the indexes and the `permissions` column stay, and `last_used` is absent |
| Migration.AfterTablesFrame | migrate_database.py:205-307 | migrations 1 to 3 leave the presence and the columns of `user_permissions`, the table set seen by migration 1, and the set of tables holding rows as they were |
| Migration.LogNeverEmpty | migrate_database.py:325-330 | a successful run logs at least the three index lines, so "No migrations needed" is never printed |
| Migration.AddsAllColumns | migrate_database.py:309-320 | adding the missing ones of a list leaves the table with all of them and changes nothing else |
| Migration.TableMigration | migrate_database.py:304-307 | migration 3 creates exactly the absent new tables, in order, and adds all five; columns unchanged |
| Migration.SuccessfulRun | migrate_database.py:199-330 | after a successful run all five new tables, both permission columns (when `user_permissions` exists) and all three indexes exist |
| Migration.ColumnsPresentUnchanged | migrate_database.py:218-219 | the column loop changes nothing when every name is already present |
| Migration.RerunFindsColumns | migrate_database.py:205-221 | with every new column present, migration 1 adds nothing |
| Migration.RerunFindsTables | migrate_database.py:223-307 | with every index and new table present, migrations 2 and 3 add nothing |
| Migration.RerunFindsPermissions | migrate_database.py:309-320 | with both permission columns present, migration 4 adds nothing |
| Migration.CompleteSchemaUnchanged | migrate_database.py:199-330 | a complete schema is left unchanged, with only the three index lines logged |
| Migration.MigratedIsComplete | migrate_database.py:199-330 | a successful run leaves a complete schema |
| Migration.Idempotent | migrate_database.py:199-330 | re-running on the schema a successful run produced changes nothing and logs only the three index lines |
| Migration.Database.constructor | migrate_database.py:195-201 | the database object holds the given schema |
| Migration.Database.AddColumnUnless | migrate_database.py:218-221 | one column: added and logged exactly when absent from the snapshot |
| Migration.Database.AddMissingColumns | migrate_database.py:216-221 | the column loop computes `ColumnsUpTo` and logs `Messages` of the missing names |
| Migration.Database.AddNewColumns | migrate_database.py:205-221 | migration 1 on the database: `AfterColumns` with its log |
| Migration.Database.CreateIndexes | migrate_database.py:223-232 | migration 2 on the database: the index set and the pass/fail verdict of `IndexesUpTo` |
| Migration.Database.CreateMissingTables | migrate_database.py:304-307 | adds exactly the names missing from the table list read at the start of the run, in list order, and logs one line for each |
| Migration.Database.UpdatePermissions | migrate_database.py:309-320 | migration 4 on the database: fails iff `user_permissions` existed, lacks `last_used` and holds rows, in which case only `permissions` has been added; otherwise the missing permission columns are added and logged |
| Migration.Database.MigrateDatabase | migrate_database.py:195-337 | ok iff the run succeeds; the database ends as `MigrateSchema` says, including after a failure; on success the log is `MigrateSchema`'s |

## Left out

- Redis: the Redis branch of `EnhancedLocationCache` and the pickle encoding are not modelled, only the memory branch.
- Cache keys: `_get_cache_key` (rounding to three decimals, key text) is left out. The key is an abstract value.
- Clock: `datetime.now()` becomes an integer parameter in seconds, one per call (`now` and `storedAt` in `Search.SearchNearbyStores`).
- Floating point: the Haversine body of `calculate_distance` is left out and distance is a function parameter. `log10` is a parameter too. Quality scores and distances are exact reals, not doubles.
- Exceptions inside the search other than the ones modelled (raised keyword search, raised details request, unbound `found_places`) are left out. So are exceptions from `calculate_distance`, which returns 999.0.
- Search.SearchNearbyStores: the outer `except` that returns [] on an unexpected error is not modelled.
- Stores.Rank: Python's sort is stable. The model proves sortedness and permutation but does not state stability.
- Stores.RemoveDuplicateStores: `list.remove` drops the first element equal to the near store. The model removes that store's index, which is the same element because kept ids are distinct.
- Display-only fields of stores, embeds and `LOCATION_USER_INFO` are left out: icon, hours, price, timestamps, embed fields and reactions.
- Discord, Flask, the HTML portal, the rate limiter, threads, `TaskManager`, the database pool and analytics logging are I/O or concurrency and are not modelled. `check_user_permissions` sees the database only as three outcomes.
- Session ids are UUIDs from `uuid.uuid4()`. They are a parameter, and nothing checks them, as in the code.
- `post_enhanced_location_to_discord`: `bot_connected` and `bot_ready` are one `ready` flag. `float()` of the coordinates and missing store keys are not modelled.
- `int()`: surrounding whitespace, underscores and non-ASCII digits are not accepted. `str.lower` and `str.isdigit` are ASCII-only.
- `create_enhanced_database`, `backup_database`, the missing-file branch and `sys.exit` of `migrate_database` are file I/O and are left out. Exit status 1 is `ok == false`.
- SQLite details that are not modelled:
  - column names compare case-sensitively here, while SQLite ignores case;
  - column types and the column lists of the five new tables are not tracked;
  - a clash between an index name and a table name is not modelled;
  - SQLite before 3.37 refuses a `CURRENT_TIMESTAMP` default in `ADD COLUMN` even on an empty
    table; the model follows later versions, which refuse it only when the table holds rows;
    which tables hold rows is an input of the schema.
- migrate_database.py lines 1-56 and 413-663 are not Python and are not modelled.
- test_railway.py and find_railway_url.py are network smoke tests and are not modelled.

## Findings

| source | as written | input that shows it | evidently intended | confidence | as-written member | corrected member |
|---|---|---|---|---|---|---|
| bot.py:1114-1116 | when RAILWAY_STATIC_URL is unset, the portal URL falls back to `RAILWAY_URL or PORT or default`. PORT is the listening port number, so it becomes the host of the link | an environment with only PORT=8080 gives the portal link base `https://8080` (the same chain is at bot.py:1000-1002) | fall back to the fixed default URL; PORT plays no part in the host name | not executed | Portal.PortalBaseUrlAsWritten / Portal.PortBecomesHost | Portal.PortalBaseUrl / Portal.PortalBaseUrlIgnoresPort / Portal.PortIgnoredWhenCorrected |
