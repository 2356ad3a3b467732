# Notion statistics bot — verified model of the Notion layer

This project models the Notion layer of a contribution-statistics bot in Dafny
and proves properties of it. The bot keeps its settings in a key/value
*configuration database* inside a Notion workspace. At start-up it finds or
creates that database and the statistics databases. It reads which source
databases to count and which of their fields matter. It then records the
property ids of those fields. Per-contributor totals are kept in a *result
database*, and members are kept in an in-memory registry.

Modules, one per source file:

- `Types` (types.ts): the enumerations, the configuration keys and their
  string names, the member and user records, and `ProjectConfiguration`.
- `Data` (data.ts): the nineteen initial configuration rows and the result
  and record database models. It also holds lemmas about these constants:
  - every key appears exactly once;
  - the default point ratios add up to 100;
  - the default source list is two well-formed ids;
  - key names are injective.
- `Text` (utils.ts `idToString` and the id-list parsing of index.ts): filtering
  characters, splitting at commas and joining, with their round-trips.
- `Paging` (utils.ts): the cursor loops over paginated answers and the
  property readers. A paginated endpoint is a `Listing`: the sequence of
  answers the store gives, one per query, where the last may be a rejected
  call.
- `Configuration` (configuration.ts): class `ConfigurationDatabase`, the table
  as a sequence of rows, with key lookup, value update and initialisation.
- `Statistics` (statistics.ts): class `ResultDatabase`, a map of pages, with
  the insert and read-modify-write increase. It also has class
  `MemberRegistry`.
- `Bootstrap` (index.ts): class `NotionStatistics`, which holds the module
  state of index.ts (`projectDBConfig`, the field-name map, the property-id
  map) and the start-up sequence. Start-up is specified by the function
  `Resolution`, which gives the ids, the configuration table and the
  databases created by the get-or-create steps, and by lemmas about what
  the table reads after each step.

What the Notion service does is an input, not an effect. The `Store` value,
the `Fault` and `rejected` flags, the `lost` row set and the `Listing`s say
what the service answers:
- which ids it hands out;
- which calls it rejects;
- which unawaited creations silently fail;
- which schemas it returns.

## Model

| member | source | states |
|---|---|---|
| Text.IdToStringSpec | src/server/notion/utils.ts:230-232 | `idToString` keeps exactly the ASCII letters and digits of the id, each as often as it occurs, and is idempotent |
| Text.IdToString | src/server/notion/utils.ts:230-232 | `idToString` yields ASCII letters and digits only, and never more characters than the id has |
| Text.Keep | src/server/notion/utils.ts:230-232 | the global replace of the complement of a character class by '' leaves only characters of the class, and never lengthens the string |
| Text.IdToStringAppend | src/server/notion/utils.ts:230-232 | the filter distributes over concatenation |
| Text.KeepCounts | src/server/notion/index.ts:142 | removing the characters outside a class keeps every character of the class with its multiplicity and drops all others |
| Text.JoinSplit | src/server/notion/index.ts:143 | joining the comma-split pieces gives the string back, and no piece contains a comma |
| Text.SplitJoin | src/server/notion/index.ts:143 | splitting a comma-join of comma-free pieces gives the pieces back |
| Text.SplitPrefix | src/server/notion/index.ts:143 | a comma-free prefix followed by a comma is split off as the first piece |
| Text.SplitFree | src/server/notion/index.ts:143 | a comma-free string splits into itself alone |
| Text.Split | src/server/notion/index.ts:143 | the comma split always yields at least one piece, as `String.prototype.split` does |
| Text.SanitizedIdListSpec | src/server/notion/index.ts:141-145 | the sanitised list has at least one id; its ids joined with commas are the letters, digits and commas of the value in order; each id is letters and digits only |
| Text.JoinedPartChars | src/server/notion/index.ts:143 | every character of a piece occurs in the joined string |
| Text.KeepAppend | src/server/notion/utils.ts:230-232 | filtering a concatenation is the concatenation of the filtered parts |
| Text.KeepAllPass | src/server/notion/index.ts:142 | a string made only of kept characters is unchanged by the filter |
| Text.KeepNone | src/server/notion/index.ts:142 | a string with no character of the class is filtered to the empty string |
| Data.KeyNameRoundTrip | src/server/notion/types.ts:118-141 | reading back a configuration key's stored name gives the key |
| Data.FieldKeyNameRoundTrip | src/server/notion/types.ts:118-141 | the name round-trip for the nine field-name keys |
| Data.TimeFieldKeyNameRoundTrip | src/server/notion/types.ts:118-141 | the name round-trip for the five time-field keys |
| Data.CountFieldKeyNameRoundTrip | src/server/notion/types.ts:118-141 | the name round-trip for the four counted-field keys |
| Data.OtherKeyNameRoundTrip | src/server/notion/types.ts:118-141 | the name round-trip for the other ten keys |
| Data.KeyNameInjective | src/server/notion/types.ts:118-141 | two keys have the same stored name exactly when they are the same key, so a lookup by title is a lookup by key |
| Data.InitDataCoversEachKeyOnce | src/server/notion/data.ts:18-114 | the initial table has nineteen rows, no key twice and every key present |
| Data.InitIndexAt | src/server/notion/data.ts:18-114 | the row at each position holds the key whose position it is |
| Data.InitRowOf | src/server/notion/data.ts:18-114 | each key's position holds that key |
| Data.TwoDigitValue | src/server/notion/data.ts:53-67 | a two-digit decimal string denotes ten times its first digit plus its second |
| Data.InformationSourceRatio | src/server/notion/data.ts:53-57 | the default information-source ratio is the decimal number 20 |
| Data.TranslationRatio | src/server/notion/data.ts:58-62 | the default translation ratio is the decimal number 50 |
| Data.ProofreadRatio | src/server/notion/data.ts:63-67 | the default proofreading ratio is the decimal number 30 |
| Data.DefaultRatiosSumTo100 | src/server/notion/data.ts:53-67 | the three default ratios are decimal numbers that add up to 100, as their descriptions require |
| Data.AutoRowsStartEmpty | src/server/notion/data.ts:19-40 | the five rows the bot fills in itself come first and start with an empty value |
| Data.ModelFieldNamesDistinct | src/server/notion/data.ts:116-176 | the field names of the result model and of the record model are pairwise distinct; the record date is stored as 'LastStatisticsDate' |
| Data.CompactIdPair | src/server/notion/index.ts:141-145 | two 32-hex-digit ids joined by a comma come out of the sanitise-and-split unchanged |
| Data.DefaultIdAIsCompact | src/server/notion/data.ts:42-46 | the first default source id is 32 hexadecimal digits |
| Data.DefaultIdBIsCompact | src/server/notion/data.ts:42-46 | the second default source id is 32 hexadecimal digits |
| Data.DefaultContributionSourcesAreTwoIds | src/server/notion/data.ts:42-46 | the default contribution source value parses into exactly two well-formed ids |
| Paging.GetDatabaseAllPages | src/server/notion/utils.ts:99-112 | the cursor loop returns every result of every batch in fetch order, or fails when a call is rejected; each query starts at the cursor of the batch before |
| Paging.FlatMembership | src/server/notion/utils.ts:99-112 | an item is among the collected results exactly when some batch holds it |
| Paging.FollowingFinds | src/server/notion/utils.ts:99-112 | querying with a batch's `next_cursor` returns the batch after it |
| Paging.FetchFollows | src/server/notion/utils.ts:99-112 | the same, from the first query on |
| Paging.FlatStep | src/server/notion/utils.ts:99-112 | collecting one more batch appends its results |
| Paging.AdminsOfSpec | src/server/notion/utils.ts:133-153 | every reported admin is a non-bot user of the list and every non-bot user is reported, with 'unname' for a missing name and '' for a missing avatar |
| Paging.NonBots | src/server/notion/utils.ts:142-150 | the reference filter: every user it keeps is a non-bot user of the list, and it is no longer than the list |
| Paging.AdminsOfNonBots | src/server/notion/utils.ts:133-153 | the admin list is the non-bot users in list order and with their multiplicity, each turned into a contributor |
| Paging.AdminsOfAppend | src/server/notion/utils.ts:142-150 | filtering two batches is filtering each and appending |
| Paging.PushAdmins | src/server/notion/utils.ts:142-150 | one batch's pass appends the filtered users of that batch to the list |
| Paging.GetAllAdmins | src/server/notion/utils.ts:133-153 | the `do … while` loop returns the filtered users of every batch in order, or fails when a call is rejected |
| Paging.GetPagePropertyValue | src/server/notion/utils.ts:162-186 | a single property item is returned as is; a paginated answer is followed to its end and its items concatenated, or the call fails |
| Paging.NumberPropertyValueSpec | src/server/notion/utils.ts:196-212 | with `isPropertyList` (`IsPropertyList`, utils.ts:234-240) taken as the non-empty-list test, a number read succeeds exactly when the consulted item is a number item, and yields its number, null included; an empty list and a wrong kind are rejected |
| Paging.GetNumberPropertyValue | src/server/notion/utils.ts:196-212 | the method answers what the number reader specifies |
| Paging.RichTextPropertyValueSpec | src/server/notion/utils.ts:220-240 | with the same non-empty-list test, a rich-text read succeeds exactly when the answer is a non-empty list whose first item is rich text, and yields its plain text; a single item and an empty list are rejected |
| Paging.GetRichTextPropertyValue | src/server/notion/utils.ts:220-228 | the method answers what the rich-text reader specifies |
| Configuration.IndexOfKey | src/server/notion/configuration.ts:135-154 | the position the lookup of `getConfigurationItemPage` (`ItemPage`) finds holds a row whose Key is the name |
| Configuration.IndexOfKeyFirst | src/server/notion/configuration.ts:135-154 | the position found is the first row whose Key is the name (`pages.results[0]`), and nothing is found only when no row has it |
| Configuration.ItemValue | src/server/notion/configuration.ts:114-126 | `getConfigurationItemValue` answers a value only for a key that has a row |
| Configuration.WithValue | src/server/notion/configuration.ts:87-112 | the table after a write has as many rows as before, and a key without a row leaves it unchanged |
| Configuration.ConfigurationDatabase.constructor | src/server/notion/configuration.ts:17-38 | a new configuration table has no rows |
| Configuration.ConfigurationDatabase.UpdateItemValue | src/server/notion/configuration.ts:87-112 | the update succeeds exactly when the key has a row and the store accepts the write; then that row's Value becomes the one segment written, otherwise nothing changes |
| Configuration.ConfigurationDatabase.InitConfigurationDatabase | src/server/notion/configuration.ts:45-77 | one row per initial entry is appended in order, minus the creations lost, and the answer is always true |
| Configuration.ConfigurationDatabase.Seed | src/server/notion/configuration.ts:69-72 | the creation loop appends one row per entry, in order, leaving out the lost creations |
| Configuration.WithValueFrame | src/server/notion/configuration.ts:87-112 | a write keeps the number of rows, every Key and every Description, and every row but the key's own |
| Configuration.IndexOfKeyUnchanged | src/server/notion/configuration.ts:135-154 | only the Key column decides which row a key finds |
| Configuration.ReadAfterWrite | src/server/notion/configuration.ts:87-126 | writing a key that has a row and then reading it gives the written value |
| Configuration.WriteLeavesOtherKeys | src/server/notion/configuration.ts:87-126 | writing one key leaves what every other key reads, and whether it has a row, unchanged |
| Configuration.WriteKeepsPages | src/server/notion/configuration.ts:87-154 | a write never adds or removes a key's row |
| Configuration.IndexOfKeyAppend | src/server/notion/configuration.ts:135-154 | appending a row changes a lookup only when no earlier row matched |
| Configuration.InitRowKey | src/server/notion/data.ts:18-114 | an initial entry carries a key exactly when it is at that key's position |
| Configuration.RowForKey | src/server/notion/configuration.ts:45-77 | a row created from an initial entry carries the Key of exactly that entry's key |
| Configuration.PageAfterAppend | src/server/notion/configuration.ts:135-154 | appending a created row leaves a key's row where it was, or makes the new row the key's row when it is the first with that Key |
| Configuration.SeededRowsLookup | src/server/notion/configuration.ts:45-77 | among seeded rows, a key finds the row made from its own entry, when that entry was seeded and not lost |
| Configuration.InitialValue | src/server/notion/configuration.ts:45-77 | after initialisation each key reads its initial value, or has no row at all when its creation was lost |
| Configuration.SeededRowsComplete | src/server/notion/configuration.ts:45-77 | with nothing lost, seeding creates one row per entry, in order, copying Key, Value and Description |
| Statistics.StoredTally | src/server/notion/statistics.ts:152-160 | the counters can be read exactly when none of the five is empty |
| Statistics.NewResultRow | src/server/notion/statistics.ts:62-104 | the row `insertResultDatabaseItem` creates reads back the given totals, is titled with the contributor's id and lists the contributor |
| Statistics.IncreaseOutcome | src/server/notion/statistics.ts:110-192 | an increase can succeed only when no call is rejected and the page exists as a full page |
| Statistics.ResultDatabase.constructor | src/server/notion/statistics.ts:19-59 | a new result database has no pages |
| Statistics.ResultDatabase.InsertResultDatabaseItem | src/server/notion/statistics.ts:62-104 | a new page titled with the contributor's id, listing the contributor, holding the five totals and the time is added; a rejected call adds nothing |
| Statistics.ResultDatabase.IncreaseResultDatabaseItem | src/server/notion/statistics.ts:110-192 | the page is replaced by its increased row when the increase can succeed; otherwise nothing changes and the error is the one the source raises |
| Statistics.IncreaseAddsDeltas | src/server/notion/statistics.ts:162-185 | a successful increase adds each delta to its stored counter, stamps the time and keeps the contributor |
| Statistics.IncreaseFailures | src/server/notion/statistics.ts:110-192 | an increase succeeds exactly when the page exists, is a full page, has no empty counter and no call is rejected; an empty counter and a partial page are user errors |
| Statistics.ZeroDeltaKeepsCounters | src/server/notion/statistics.ts:106-185 | a zero delta leaves every counter as it was |
| Statistics.IncreaseTwice | src/server/notion/statistics.ts:162-185 | two increases equal one increase by the summed deltas |
| Statistics.NewRowReadsBack | src/server/notion/statistics.ts:62-104 | an inserted row reads back its contributor and totals and can always be increased |
| Statistics.MemberRegistry.constructor | src/server/notion/statistics.ts:205-208 | the registry starts empty |
| Statistics.MemberRegistry.UpdateMemberRecord | src/server/notion/statistics.ts:215-225 | a known member has the incoming task lists appended to the lists it already has; an unknown one is registered as given |
| Statistics.AppendTasksSpec | src/server/notion/statistics.ts:218-221 | an append keeps the stored tasks as a prefix followed by the incoming ones; without a stored list nothing is added |
| Statistics.RegisteredKeys | src/server/notion/statistics.ts:215-225 | registering adds exactly the new id or keeps the key set, and leaves every other member unchanged |
| Statistics.RegisteredKeepsIdentity | src/server/notion/statistics.ts:215-225 | merging never changes a member's id, name, kind or total points |
| Statistics.Registered | src/server/notion/statistics.ts:215-225 | after `updateMemberRecord` the member is registered and every member registered before still is |
| Bootstrap.StatisticsSourceDBIdListSpec | src/server/notion/index.ts:139-149 | the source list fails exactly when its value is missing or empty, with the source's user error; otherwise it is the sanitised, comma-split list |
| Bootstrap.StatisticsSourceDBIdList | src/server/notion/index.ts:139-149 | a returned list has at least one id; every failure is the source's user error naming the key |
| Bootstrap.NoIdCharactersGiveOneEmptyId | src/server/notion/index.ts:139-149 | a value with no letter, digit or comma yields the one empty id, not an error |
| Bootstrap.SourceListsSpec | src/server/notion/index.ts:212-229 | start-up fails exactly when the contribution list is not configured; a missing bounty list becomes the empty list |
| Bootstrap.SourceLists | src/server/notion/index.ts:212-229 | a successful read has a non-empty contribution list; the only failure is the contribution list's user error |
| Bootstrap.FieldNameSpec | src/server/notion/index.ts:161-169 | a field name is read exactly when it is configured and non-empty, and otherwise fails with the source's user error |
| Bootstrap.FieldName | src/server/notion/index.ts:161-169 | a field name read is the non-empty configured value of its key; every failure is the source's user error naming the key |
| Bootstrap.FreshTableLeavesAutoKeysUnset | src/server/notion/index.ts:89-130 | on a freshly initialised table every automatically filled key is unset, so its database is created |
| Bootstrap.FreshTableLeavesAllAutoKeysUnset | src/server/notion/index.ts:89-130 | the same for all five automatically filled keys at once; the first start-up below rests on it |
| Bootstrap.WriteKeepsUnset | src/server/notion/index.ts:89-130 | writing back one created id leaves the later keys unset |
| Bootstrap.WrittenBackIdIsReused | src/server/notion/index.ts:89-130 | once a created id is written back, a later start-up reads it and creates nothing |
| Bootstrap.FieldKeysAreTheFieldKeys | src/server/notion/index.ts:241-251 | start-up reads every field-name key and no other key |
| Bootstrap.FieldNamesReadSpec | src/server/notion/index.ts:252-260 | the field-name map holds exactly the keys whose names could be read, each with its name |
| Bootstrap.FieldsOutcomeSpec | src/server/notion/index.ts:252-260 | the field reads succeed exactly when every one does; a failure is one of theirs |
| Bootstrap.PropertyIdMapSpec | src/server/notion/index.ts:277-285 | a database's map holds exactly the schema properties whose names are field names, each under its own name |
| Bootstrap.PropertyIdMapDistinct | src/server/notion/index.ts:277-285 | when the schema's property names are distinct, every property named as a field is recorded under its name |
| Bootstrap.RecordedSpec | src/server/notion/index.ts:270-289 | every listed database whose schema is known gets its map; every other entry is kept |
| Bootstrap.AssembleAsWritten | src/server/notion/index.ts:231-238 | as written, the two source lists are stored in their own slots |
| Bootstrap.CollectFieldProperties | src/server/notion/index.ts:277-285 | the inner loop builds the map the specification gives |
| Bootstrap.Assemble | src/server/notion/index.ts:231-238 | the intended assembly puts the proofreading and bounty record ids each in its own slot |
| Bootstrap.ProofeadSlotOverwritten | src/server/notion/index.ts:235-236 | as written, the proofreading slot holds the bounty record id and the bounty slot is never set; every other slot matches the intended assembly |
| Bootstrap.ProofeadOverwriteWitness | src/server/notion/index.ts:235-236 | with distinct ids "p" and "b", the as-written slots are "b" and "", the intended ones "p" and "b" |
| Bootstrap.AssembliesAgreeOnSources | src/server/notion/index.ts:237-238 | both assemblies hold the same source lists, which is all the rest of start-up reads |
| Bootstrap.AutoKeysDistinctAuto | src/server/notion/index.ts:181-210 | the five keys start-up fills in itself are automatically filled keys and pairwise distinct |
| Bootstrap.StepReads | src/server/notion/index.ts:89-130 | one get-or-create step keeps which keys have rows and every other key's value; its own key then holds the id it wrote back, in `idToString` form, or what it held |
| Bootstrap.NextStepReads | src/server/notion/index.ts:181-210 | the same for step `n` of the sequence, on the table the earlier steps reached |
| Bootstrap.AutoKeyElsewhere | src/server/notion/index.ts:181-210 | no step's key is the key of another step, and no other key is the key of a step |
| Bootstrap.AfterStepsUntouched | src/server/notion/index.ts:181-210 | a run of steps keeps which keys have rows and leaves every key that is not theirs as it was |
| Bootstrap.AfterStepsKeepOthers | src/server/notion/index.ts:181-210 | the steps keep which keys have rows, and every key outside the five reads as before them |
| Bootstrap.AfterStepsLaterKey | src/server/notion/index.ts:181-210 | the first `n` steps leave the keys of later steps unchanged, so each step reads its key as the table held it at the start |
| Bootstrap.StepKeyWritten | src/server/notion/index.ts:181-210 | after step `n`, its key holds what it wrote back, judged on the starting table |
| Bootstrap.AfterStepsEarlierKey | src/server/notion/index.ts:181-210 | after the first `n` steps, the key of each of them holds what that step wrote back |
| Bootstrap.WrittenBackFrame | src/server/notion/index.ts:89-130 | what a step writes back depends only on its key's value and on whether the key has a row |
| Bootstrap.SourceListsFrame | src/server/notion/index.ts:212-229 | tables that agree on the two list keys read the same source lists |
| Bootstrap.FieldReadsAgree | src/server/notion/index.ts:252-260 | readers that agree on the keys read give the same field names and the same outcome |
| Bootstrap.FieldNamesFrame | src/server/notion/index.ts:252-260 | tables that agree outside the five automatically filled keys give the same field names and outcome |
| Bootstrap.UnsetKeysResolveToNew | src/server/notion/index.ts:89-130 | when no key holds an id and every creation is accepted, every step creates its database, resolves to its new id, and the creations come in step order |
| Bootstrap.CreationsAllNew | src/server/notion/index.ts:181-210 | under the same conditions the first `n` steps create the first `n` databases, in order |
| Bootstrap.DefaultSourceLists | src/server/notion/index.ts:212-229 | a table holding the two default ids and an empty bounty value yields exactly those two ids and no bounty list |
| Bootstrap.FreshSourceValues | src/server/notion/configuration.ts:45-77 | a fresh table with nothing lost holds the two default ids as the contribution list and '' as the bounty list |
| Bootstrap.FirstStartUp | src/server/notion/index.ts:177-238 | on a first start-up (no search hit, every creation accepted, nothing lost) every database resolves to its new id, the contribution list is the two default ids and the bounty list is empty |
| Bootstrap.FirstStartUpCreations | src/server/notion/index.ts:177-210 | on the same first start-up the configuration database is created first and then the five others, in order |
| Bootstrap.ResolvedPrefix | src/server/notion/index.ts:181-210 | the ids of the first `n` steps, when present, are `n` of them |
| Bootstrap.Taken | src/server/notion/index.ts:181-210 | no more steps run than are asked for |
| Bootstrap.ResolvedPrefixSpec | src/server/notion/index.ts:181-210 | the ids of the first `n` steps are present exactly when each step resolves, and are then their ids in order |
| Bootstrap.TakenAfterFailure | src/server/notion/index.ts:181-210 | once step `k` fails, start-up has no ids and runs no step after it |
| Bootstrap.PrefixStep | src/server/notion/index.ts:181-210 | a resolved step appends its id to the ids before it |
| Bootstrap.TakenWhenResolved | src/server/notion/index.ts:181-210 | when every step resolves, every step runs |
| Bootstrap.TakenSpec | src/server/notion/index.ts:181-210 | all five steps run when all resolve; when step `k` is the first to fail, exactly the steps up to it run |
| Bootstrap.ResolutionIds | src/server/notion/index.ts:177-210 | the resolution succeeds exactly when the configuration database is found or created and every step resolves; its ids are the configuration id and then each step's id in order; every failure is an API error |
| Bootstrap.ResolutionTable | src/server/notion/index.ts:177-210 | the table the resolution leaves: keys with rows unchanged, every key outside the five unchanged, each key of a step that ran holding what it wrote back, the keys after a failure untouched |
| Bootstrap.ResolutionKeepsReads | src/server/notion/index.ts:177-260 | after a successful resolution the source lists and field names read as on the table it started from |
| Bootstrap.ResolutionStartIds | src/server/notion/index.ts:177-238 | when start-up gets as far as the assembly, the ids it assembles are the six resolved ids and the configured lists |
| Bootstrap.NotionStatistics.constructor | src/server/notion/index.ts:34-44 | the module state starts with empty ids, lists and maps |
| Bootstrap.NotionStatistics.GetOrCreateConfigurationDB | src/server/notion/index.ts:65-81 | the first search hit is used; with none, a new database is created and seeded with the initial rows; a rejected creation fails |
| Bootstrap.NotionStatistics.GetOrCreateDatabase | src/server/notion/index.ts:89-130 | a configured id is returned unchanged; otherwise a database is created, its raw id returned and its `idToString` form written back when the key has a row and the write is accepted |
| Bootstrap.NotionStatistics.ReadFieldNames | src/server/notion/index.ts:252-260 | every field name that can be read is stored under its key, and the outcome is the first failure |
| Bootstrap.NotionStatistics.UpdateStatisticPropertyIdMap | src/server/notion/index.ts:270-289 | the property map is recorded for every source database whose schema is known; the call succeeds exactly when every schema was retrieved |
| Bootstrap.NotionStatistics.ResolveDatabases | src/server/notion/index.ts:177-210 | the outcome, the table it leaves and the databases it creates are those of the resolution specification (`Resolution`, `StartCreations`), whose ids, table and creations the lemmas above characterise; on a search hit the table is the one found |
| Bootstrap.NotionStatistics.ResolveStep | src/server/notion/index.ts:89-130 | one step resolves exactly when its specification does, to the same id, advances the table by that step and adds the database it creates, if any; a failure is an API error |
| Bootstrap.NotionStatistics.ResolveDerived | src/server/notion/index.ts:183-210 | the five steps succeed exactly when each resolves, with their ids in order; the table and creations are those of the steps that ran, up to and including the first failure |
| Bootstrap.NotionStatistics.Configure | src/server/notion/index.ts:211-263 | a missing contribution list fails before anything is stored; otherwise the corrected assembly is stored, the readable field names are added, and the property maps are recorded only when every field name was read; the answer is then the assembled ids exactly when every source schema is known |
| Bootstrap.NotionStatistics.InitNotionStatistics | src/server/notion/index.ts:177-264 | when a database cannot be resolved or the contribution list is missing, start-up fails and stores nothing; otherwise the six resolved ids and the configured lists are stored with the corrected assembly, field names and property maps are read from the configuration table, a field failure leaves the maps as they were, and the answer is those ids; the configuration table it leaves is the resolution's, with the created ids written back, and is the database found on a search hit; the databases created are the resolution's, in order |

## Left out

- Network I/O, timing and the Notion client are not modelled. Their answers are parameters: `Store`, `Listing`, `Fault`, and the `rejected`, `updateFails` and `lost` inputs.
- Configuration.ItemValue: reads the Value segments of the row directly. A failing property query inside `getConfigurationItemValue` and `getConfigurationItemPage` is not modelled.
- The 100-result page size of Notion queries is not modelled. A key lookup sees the whole table.
- record.ts (`createRecordDatabase`) is not part of this model. A created record database is a `CreatedDatabase` entry without its schema.
- `createResultDatabase` is modelled only as the empty `ResultDatabase`. Its schema is described by `Data.ResultDatabaseModel`.
- `Promise.all` fan-outs are modelled as sequential loops. Each branch still runs after another one fails, as in JavaScript; the interleaving of branches is not modelled.
- Logging, environment variables, `getNotionClient`, `testNotion` and the commented-out statistics stages are not part of this model.
- `getAllContributor` is never run: the loader at statistics.ts:206-208 is an arrow function that is never called. The registry therefore starts empty.
- Statistics.MemberRegistry.UpdateMemberRecord: a registered member is stored by value. Later in-place changes to the caller's `memberInfo` object, through aliasing, are not reflected.
- JavaScript numbers are modelled as unbounded integers. Floating-point rounding of very large totals is not captured.
- Statistics.ResultDatabase.IncreaseResultDatabaseItem: a counter property of the wrong kind is not modelled. The result schema makes all five counters number columns.
- `searchDatabase`, `getDatabaseProperties` and `hasPropertyInDatabase` are store answers (`searchHits`, `schemas`), not modelled operations. `getPageAllProperties` and `searchPage` are not used by the modelled core.
- The five get-or-create calls of index.ts:183-210 differ only in their key and database name, and `getOrCreateStatisticsResultDB` (index.ts:89-105) and `getOrCreateRecordDB` (index.ts:114-130) have the same body. They are modelled as one step, `ResolveStep`, run by `ResolveDerived` over the five (key, name) pairs in source order. `initNotionStatistics` is likewise split into `ResolveDatabases` (index.ts:177-210) and `Configure` (index.ts:211-263).
- The order of the initial rows is an abstraction. `initConfigurationDatabase` fires its nineteen creations at once (configuration.ts:69-72), so the store's row order is not guaranteed; the model appends them in the order of the initial data. No read depends on that order, since every key occurs in exactly one initial row.
- The unawaited creations of `initConfigurationDatabase` (configuration.ts:69-72) may not have settled when start-up reads the table right after. A row in `lost` therefore stands both for a creation that failed and for one not yet visible to that start-up's reads. For a single start-up the effect is the same, since the five automatically filled rows start empty either way.
- A paginated answer whose `next_cursor` is the empty string is excluded by `Paging.WellFormed`. On such an answer `getDatabaseAllPages` would send no cursor (utils.ts:105) yet keep looping while the cursor is not null (utils.ts:110), restarting from the first batch forever, whereas `getAllAdmins` stops (utils.ts:152). The model assumes the store never answers so, and `GetDatabaseAllPages` terminates only under that assumption.
- Page ids handed out by the store are parameters. The UUID format of Notion ids is not modelled.

## Findings

| source | as written | input that shows it | evidently intended | confidence | as-written member | corrected member |
|---|---|---|---|---|---|---|
| src/server/notion/index.ts:235-236 | the bounty record id is assigned to `ProofeadRecordDBId`, overwriting the proofreading record id; `BountyRecordDBId` is never set | proofreading record "p", bounty record "b": the configuration ends with proofreading slot "b" and bounty slot "" | line 236 sets `BountyRecordDBId` | high, not executed | Bootstrap.ProofeadOverwriteWitness | Bootstrap.Assemble |

`Bootstrap.AssembleAsWritten` is the assembly as written, and `Bootstrap.ProofeadSlotOverwritten` states its effect for all inputs. `InitNotionStatistics` stores the ids as `Bootstrap.Assemble` does, each in its own slot. `AssembliesAgreeOnSources` shows that the source lists, which are all the rest of start-up reads, are the same under both assemblies.
