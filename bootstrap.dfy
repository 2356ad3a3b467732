/** index.ts: resolving, at start-up, the databases of the project from the
    configuration table, creating those that do not exist yet, and recording
    which schema properties of each source database are to be counted. */
module Bootstrap {
  import opened Types
  import Text
  import Data
  import opened Configuration

  /** What the store answers during start-up: the hits of the search for the
      configuration database (none when the search fails), the id it gives
      each database it creates (none when the creation is rejected), the
      write-backs it rejects, the initial rows whose creation is silently
      lost, and the schema of each database it can retrieve. */
  datatype Store = Store(
    searchHits: Option<seq<string>>,
    newIds: map<DatabaseName, string>,
    rejectedWrites: set<ConfigItem>,
    lostRows: set<nat>,
    schemas: map<string, seq<BaseType>>)

  /** A database created under the parent page during start-up. */
  datatype CreatedDatabase = CreatedDatabase(id: string, name: DatabaseName)

  /** The ids start-up resolves, in the order it resolves them. */
  datatype ResolvedIds = ResolvedIds(
    configurationId: string,
    resultId: string,
    sourceRecordId: string,
    transRecordId: string,
    proofeadRecordId: string,
    bountyRecordId: string,
    contributionList: seq<string>,
    bountyList: seq<string>)

  /** A configured value counts as present when it is neither missing nor
      the empty string (JavaScript truthiness of a string). */
  predicate Truthy(v: Option<string>)
  {
    v.Some? && v.value != ""
  }

  function SourceMissing(k: ConfigItem): string
  {
    "getStatisticsSourceDBIdList:\t 读取" + KeyName(k) + "数据库失败. 请提供信息源,否则无法统计"
  }

  function FieldMissing(k: ConfigItem): string
  {
    "getFiledNameFromConfigurationDB:\t 读取" + KeyName(k) + "字段失败,请检查数据库"
  }

  /** `getStatisticsSourceDBIdList`: the configured id list with everything
      but letters, digits and commas removed, split at the commas. */
  function StatisticsSourceDBIdList(rows: seq<ConfigRow>, k: ConfigItem): (r: Result<seq<string>>)
    ensures r.Success? ==> |r.value| >= 1
    ensures r.Failure? ==> r.error == UserError(SourceMissing(k))
  {
    var sourceListStr := ItemValue(rows, k);
    if Truthy(sourceListStr) then
      var sourceList := Text.Split(Text.Keep(sourceListStr.value, Text.IsIdListChar), ',');
      if |sourceList| > 0 then Success(sourceList) else Failure(UserError(SourceMissing(k)))
    else Failure(UserError(SourceMissing(k)))
  }

  /** `getFiledNameFromConfigurationDB`: the configured name of a field. */
  function FieldName(rows: seq<ConfigRow>, k: ConfigItem): (r: Result<string>)
    ensures r.Success? ==> r.value != "" && ItemValue(rows, k) == Some(r.value)
    ensures r.Failure? ==> r.error == UserError(FieldMissing(k))
  {
    var result := ItemValue(rows, k);
    if Truthy(result) then Success(result.value) else Failure(UserError(FieldMissing(k)))
  }

  /** The list fails exactly when the configured value is missing or empty,
      always with a `UserError`. A present value never fails, since a split
      has at least one piece: the pieces are made of letters and digits only
      and, joined with commas, give back the letters, digits and commas of
      the value in order. */
  lemma StatisticsSourceDBIdListSpec(rows: seq<ConfigRow>, k: ConfigItem)
    ensures StatisticsSourceDBIdList(rows, k).Success? <==> Truthy(ItemValue(rows, k))
    ensures StatisticsSourceDBIdList(rows, k).Failure? ==>
      StatisticsSourceDBIdList(rows, k).error == UserError(SourceMissing(k))
    ensures StatisticsSourceDBIdList(rows, k).Success? ==>
      var ids := StatisticsSourceDBIdList(rows, k).value;
      ids == Text.SanitizedIdList(ItemValue(rows, k).value)
      && Text.Join(ids, ',') == Text.Keep(ItemValue(rows, k).value, Text.IsIdListChar)
      && forall i :: 0 <= i < |ids| ==> Text.IdToString(ids[i]) == ids[i]
  {
    if Truthy(ItemValue(rows, k)) {
      Text.SanitizedIdListSpec(ItemValue(rows, k).value);
    }
  }

  /** The two source lists of start-up: a failure to read the contribution
      list fails, a failure to read the bounty list is caught and leaves the
      empty list. */
  function SourceLists(rows: seq<ConfigRow>): (r: Result<(seq<string>, seq<string>)>)
    ensures r.Success? ==> |r.value.0| >= 1
    ensures r.Failure? ==> r.error == UserError(SourceMissing(StatisticsSource_ContributionDBIdList))
  {
    match StatisticsSourceDBIdList(rows, StatisticsSource_ContributionDBIdList)
    case Failure(e) => Failure(e)
    case Success(contributions) =>
      var bounties := match StatisticsSourceDBIdList(rows, StatisticsSource_BountyDBIdList)
        case Success(ids) => ids
        case Failure(_) => [];
      Success((contributions, bounties))
  }

  /** Start-up fails on the contribution list exactly when it is not
      configured; the bounty list is the configured one, or empty when it is
      not configured. */
  lemma SourceListsSpec(rows: seq<ConfigRow>)
    ensures SourceLists(rows).Failure? <==> !Truthy(ItemValue(rows, StatisticsSource_ContributionDBIdList))
    ensures SourceLists(rows).Failure? ==>
      SourceLists(rows).error == UserError(SourceMissing(StatisticsSource_ContributionDBIdList))
    ensures SourceLists(rows).Success? ==>
      SourceLists(rows).value.0 == Text.SanitizedIdList(ItemValue(rows, StatisticsSource_ContributionDBIdList).value)
    ensures SourceLists(rows).Success? ==>
      SourceLists(rows).value.1 == if Truthy(ItemValue(rows, StatisticsSource_BountyDBIdList))
                                   then Text.SanitizedIdList(ItemValue(rows, StatisticsSource_BountyDBIdList).value)
                                   else []
  {
    StatisticsSourceDBIdListSpec(rows, StatisticsSource_ContributionDBIdList);
    StatisticsSourceDBIdListSpec(rows, StatisticsSource_BountyDBIdList);
  }

  /** A present value without a single letter, digit or comma is not an
      error: it yields the one empty id. */
  lemma NoIdCharactersGiveOneEmptyId(rows: seq<ConfigRow>, k: ConfigItem)
    requires Truthy(ItemValue(rows, k))
    requires forall i :: 0 <= i < |ItemValue(rows, k).value| ==> !Text.IsIdListChar(ItemValue(rows, k).value[i])
    ensures StatisticsSourceDBIdList(rows, k) == Success([""])
  {
    Text.KeepNone(ItemValue(rows, k).value, Text.IsIdListChar);
  }

  /** A field name is read exactly when it is configured and non-empty. */
  lemma FieldNameSpec(rows: seq<ConfigRow>, k: ConfigItem)
    ensures FieldName(rows, k).Success? <==> Truthy(ItemValue(rows, k))
    ensures FieldName(rows, k).Success? ==> Some(FieldName(rows, k).value) == ItemValue(rows, k)
    ensures FieldName(rows, k).Failure? ==> FieldName(rows, k).error == UserError(FieldMissing(k))
  {
  }

  /** A freshly initialised configuration table leaves every automatically
      filled key unset, so every derived database is created on the first
      start-up. */
  lemma FreshTableLeavesAutoKeysUnset(lost: set<nat>, k: ConfigItem)
    requires Data.IsAutoKey(k)
    ensures !Truthy(ItemValue(InitialRows(lost), k))
  {
    InitialValue(lost, k);
    Data.AutoRowsStartEmpty();
  }

  /** The keys whose values start-up fills in itself, in the order it
      resolves them. */
  const AutoKeys: seq<ConfigItem> := [Auto_ResultDBId, Auto_InformationSourceRecordDBId, Auto_TranslationRecordDBId,
                                      Auto_ProofeadRecordDBId, Auto_BountyRecordDBId]

  /** None of the keys `ks` has a present value in `rows`. */
  predicate AllUnset(rows: seq<ConfigRow>, ks: seq<ConfigItem>)
  {
    forall i :: 0 <= i < |ks| ==> !Truthy(ItemValue(rows, ks[i]))
  }

  /** On a fresh table all five automatically filled keys are unset. */
  lemma FreshTableLeavesAllAutoKeysUnset(lost: set<nat>)
    ensures AllUnset(InitialRows(lost), AutoKeys)
  {
    forall i | 0 <= i < |AutoKeys| ensures !Truthy(ItemValue(InitialRows(lost), AutoKeys[i])) {
      FreshTableLeavesAutoKeysUnset(lost, AutoKeys[i]);
    }
  }

  /** Writing a key outside `ks` leaves every key of `ks` unset: the
      write-back of one created id does not hide that the later keys still
      need their databases. */
  lemma WriteKeepsUnset(rows: seq<ConfigRow>, key: ConfigItem, value: string, ks: seq<ConfigItem>)
    requires AllUnset(rows, ks) && key !in ks
    ensures AllUnset(WithValue(rows, key, value), ks)
  {
    forall i | 0 <= i < |ks| ensures !Truthy(ItemValue(WithValue(rows, key, value), ks[i])) {
      WriteLeavesOtherKeys(rows, key, value, ks[i]);
    }
  }

  /** Once a created id has been written back, a later start-up finds it and
      returns it in its sanitised form, without creating anything. */
  lemma WrittenBackIdIsReused(rows: seq<ConfigRow>, k: ConfigItem, newId: string)
    requires ItemPage(rows, k).Some?
    requires Text.IdToString(newId) != ""
    ensures Truthy(ItemValue(WithValue(rows, k, Text.IdToString(newId)), k))
    ensures ItemValue(WithValue(rows, k, Text.IdToString(newId)), k).value == Text.IdToString(newId)
  {
    ReadAfterWrite(rows, k, Text.IdToString(newId));
  }

  /** The configuration keys whose values name the fields to count, in the
      order start-up reads them. */
  const FieldKeys: seq<ConfigItem> := [
    Filed_InformationSourceFiledName,
    Filed_TranslationFiledName,
    Filed_ProofreadFiledName,
    Filed_TotalPointsFiledName,
    Filed_InformationSourceEndTimeFiledName,
    Filed_TranslationStartTimeFiledName,
    Filed_TranslationEndTimeFiledName,
    Filed_ProofreadStartTimeFiledName,
    Filed_ProofreadonEndTimeFiledName
  ]

  /** Start-up reads every field key, and nothing else. */
  lemma FieldKeysAreTheFieldKeys(k: ConfigItem)
    ensures k in FieldKeys <==> Data.IsFieldKey(k)
  {
  }

  /** `getFiledNameFromConfigurationDB` against the table `rows`. */
  function FieldReader(rows: seq<ConfigRow>): ConfigItem -> Result<string>
  {
    k => FieldName(rows, k)
  }

  /** The names `read` gives for the first `n` of `keys`, by key; a key whose
      read fails is left out. */
  function FieldNamesRead(read: ConfigItem -> Result<string>, keys: seq<ConfigItem>, n: nat): map<ConfigItem, string>
    requires n <= |keys|
  {
    if n == 0 then map[]
    else
      var prev := FieldNamesRead(read, keys, n - 1);
      match read(keys[n - 1])
      case Success(v) => prev[keys[n - 1] := v]
      case Failure(_) => prev
  }

  /** The outcome of reading the first `n` of `keys`: the first failure in
      list order, if any. */
  function FieldsOutcome(read: ConfigItem -> Result<string>, keys: seq<ConfigItem>, n: nat): Result<()>
    requires n <= |keys|
  {
    if n == 0 then Success(())
    else match FieldsOutcome(read, keys, n - 1)
      case Failure(e) => Failure(e)
      case Success(_) =>
        match read(keys[n - 1])
        case Success(_) => Success(())
        case Failure(e) => Failure(e)
  }

  /** The names map holds exactly the readable keys among those read, each
      with the name read for it. */
  lemma {:induction false} FieldNamesReadSpec(read: ConfigItem -> Result<string>, keys: seq<ConfigItem>, n: nat)
    requires n <= |keys|
    ensures forall k :: k in FieldNamesRead(read, keys, n) <==> k in keys[..n] && read(k).Success?
    ensures forall k :: k in FieldNamesRead(read, keys, n) ==> FieldNamesRead(read, keys, n)[k] == read(k).value
  {
    if n > 0 {
      FieldNamesReadSpec(read, keys, n - 1);
      assert keys[..n] == keys[..n - 1] + [keys[n - 1]];
    }
  }

  /** The reads succeed exactly when every key read succeeds, and a failure
      is the failure of one of them. */
  lemma {:induction false} FieldsOutcomeSpec(read: ConfigItem -> Result<string>, keys: seq<ConfigItem>, n: nat)
    requires n <= |keys|
    ensures FieldsOutcome(read, keys, n).Success? <==> forall i :: 0 <= i < n ==> read(keys[i]).Success?
    ensures FieldsOutcome(read, keys, n).Failure? ==>
      exists i :: 0 <= i < n && read(keys[i]) == Failure(FieldsOutcome(read, keys, n).error)
  {
    if n > 0 {
      FieldsOutcomeSpec(read, keys, n - 1);
    }
  }

  /** The schema properties of one database whose names are among `names`,
      by name; a later property of the same name replaces an earlier one. */
  function PropertyIdMap(props: seq<BaseType>, names: set<string>): map<string, BaseType>
  {
    if props == [] then map[]
    else
      var prev := PropertyIdMap(props[..|props| - 1], names);
      var obj := props[|props| - 1];
      if obj.name in names then prev[obj.name := obj] else prev
  }

  /** The keys are exactly the property names found among `names`, and each
      is mapped to a property of that name from the schema. */
  lemma {:induction false} PropertyIdMapSpec(props: seq<BaseType>, names: set<string>)
    ensures forall n :: n in PropertyIdMap(props, names) <==>
      n in names && exists i :: 0 <= i < |props| && props[i].name == n
    ensures forall n :: n in PropertyIdMap(props, names) ==>
      PropertyIdMap(props, names)[n].name == n && PropertyIdMap(props, names)[n] in props
  {
    if props != [] {
      var init := props[..|props| - 1];
      PropertyIdMapSpec(init, names);
      assert forall i :: 0 <= i < |init| ==> init[i] == props[i];
      assert props == init + [props[|props| - 1]];
    }
  }

  /** When the schema's names are distinct, each property whose name is
      among `names` is the one recorded under its name. */
  lemma {:induction false} PropertyIdMapDistinct(props: seq<BaseType>, names: set<string>)
    requires forall i, j :: 0 <= i < j < |props| ==> props[i].name != props[j].name
    ensures forall i :: 0 <= i < |props| && props[i].name in names ==>
      props[i].name in PropertyIdMap(props, names) && PropertyIdMap(props, names)[props[i].name] == props[i]
  {
    if props != [] {
      var init := props[..|props| - 1];
      PropertyIdMapDistinct(init, names);
      assert forall i :: 0 <= i < |init| ==> init[i] == props[i];
    }
  }

  /** The property maps recorded for the databases `ids` over `m`; a
      database whose schema cannot be retrieved records nothing. */
  function Recorded(m: map<string, map<string, BaseType>>, ids: seq<string>,
                    schemas: map<string, seq<BaseType>>, names: set<string>): map<string, map<string, BaseType>>
  {
    if ids == [] then m
    else
      var prev := Recorded(m, ids[..|ids| - 1], schemas, names);
      var dbId := ids[|ids| - 1];
      if dbId in schemas then prev[dbId := PropertyIdMap(schemas[dbId], names)] else prev
  }

  /** Recording adds an entry for every listed database whose schema is known,
      holding its properties among `names`, and keeps every other entry. */
  lemma {:induction false} RecordedSpec(m: map<string, map<string, BaseType>>, ids: seq<string>,
                                        schemas: map<string, seq<BaseType>>, names: set<string>)
    ensures forall d :: d in Recorded(m, ids, schemas, names) <==> d in m || (d in ids && d in schemas)
    ensures forall d :: d in ids && d in schemas ==>
      Recorded(m, ids, schemas, names)[d] == PropertyIdMap(schemas[d], names)
    ensures forall d :: d in m && !(d in ids && d in schemas) ==>
      Recorded(m, ids, schemas, names)[d] == m[d]
  {
    if ids != [] {
      var init := ids[..|ids| - 1];
      RecordedSpec(m, init, schemas, names);
      assert ids == init + [ids[|ids| - 1]];
    }
  }

  /** `projectDBConfig` after the field-by-field assignment of start-up, as
      written: the bounty record id is assigned to the proofreading slot a
      second time, and the bounty slot is never assigned. */
  function AssembleAsWritten(cfg: ProjectConfiguration, ids: ResolvedIds): (r: ProjectConfiguration)
    ensures r.StatisticsContributionDBIdList == ids.contributionList
    ensures r.StatisticsBountyDBIdList == ids.bountyList
  {
    cfg.(ConfigurationDatabaseId := ids.configurationId)
       .(StatisticsResultDBId := ids.resultId)
       .(InformationSourceRecordDBId := ids.sourceRecordId)
       .(TranslationRecordDBId := ids.transRecordId)
       .(ProofeadRecordDBId := ids.proofeadRecordId)
       .(ProofeadRecordDBId := ids.bountyRecordId)
       .(StatisticsContributionDBIdList := ids.contributionList)
       .(StatisticsBountyDBIdList := ids.bountyList)
  }

  /** `projectDBConfig` as intended: every resolved id in its own slot. */
  function Assemble(ids: ResolvedIds): (cfg: ProjectConfiguration)
    ensures cfg.ProofeadRecordDBId == ids.proofeadRecordId
    ensures cfg.BountyRecordDBId == ids.bountyRecordId
  {
    ProjectConfiguration(ids.configurationId, ids.resultId, ids.sourceRecordId, ids.transRecordId,
                         ids.proofeadRecordId, ids.bountyRecordId, ids.contributionList, ids.bountyList)
  }

  /** As written, the proofreading slot holds the bounty record id and the
      bounty slot keeps its earlier value, the empty string after a first
      start-up; every other slot agrees with the intended assembly. */
  lemma ProofeadSlotOverwritten(cfg: ProjectConfiguration, ids: ResolvedIds)
    ensures AssembleAsWritten(cfg, ids).ProofeadRecordDBId == ids.bountyRecordId
    ensures AssembleAsWritten(cfg, ids).BountyRecordDBId == cfg.BountyRecordDBId
    ensures AssembleAsWritten(cfg, ids) ==
      Assemble(ids).(ProofeadRecordDBId := ids.bountyRecordId, BountyRecordDBId := cfg.BountyRecordDBId)
    ensures cfg == EmptyProjectConfiguration ==> AssembleAsWritten(cfg, ids).BountyRecordDBId == ""
  {
  }

  /** Two distinct record ids that show the discrepancy: the proofreading id
      is lost and the bounty id lands in the wrong slot. */
  lemma ProofeadOverwriteWitness()
    ensures var ids := ResolvedIds("c", "r", "s", "t", "p", "b", [], []);
            AssembleAsWritten(EmptyProjectConfiguration, ids).ProofeadRecordDBId == "b"
            && AssembleAsWritten(EmptyProjectConfiguration, ids).BountyRecordDBId == ""
            && Assemble(ids).ProofeadRecordDBId == "p"
            && Assemble(ids).BountyRecordDBId == "b"
  {
  }

  /** The two assemblies agree on everything the rest of start-up reads: the
      list of databases to count. */
  lemma AssembliesAgreeOnSources(cfg: ProjectConfiguration, ids: ResolvedIds)
    ensures AssembleAsWritten(cfg, ids).StatisticsContributionDBIdList == Assemble(ids).StatisticsContributionDBIdList
    ensures AssembleAsWritten(cfg, ids).StatisticsBountyDBIdList == Assemble(ids).StatisticsBountyDBIdList
  {
  }

  /** The properties of one schema whose names are among `names`: the inner
      loop of `updateStatisticPropertyIdMap`. */
  method CollectFieldProperties(props: seq<BaseType>, names: set<string>) returns (m: map<string, BaseType>)
    ensures m == PropertyIdMap(props, names)
  {
    m := map[];
    for i := 0 to |props|
      invariant m == PropertyIdMap(props[..i], names)
    {
      assert props[..i + 1][..i] == props[..i];
      var obj := props[i];
      if obj.name in names {
        m := m[obj.name := obj];
      }
    }
    assert props[..|props|] == props;
  }

  /** The databases resolved after the configuration database, in the order
      start-up resolves them, each with the key that stores its id. */
  const DerivedNames: seq<DatabaseName> := [ResultDBName, SourceRecordDBName, TranslationRecordDBName,
                                            ProofeadRecordDBName, BountyRecordDBName]

  /** What the table `rows` holds under the five keys, in step order. */
  function Stored(rows: seq<ConfigRow>): seq<Option<string>>
  {
    seq(|AutoKeys|, i requires 0 <= i < |AutoKeys| => ItemValue(rows, AutoKeys[i]))
  }

  /** The id step `i` of the derived resolution yields when its key holds
      `stored[i]`: the stored id when it is present, else the id of a new
      database, none when its creation is rejected. */
  function Resolved(stored: seq<Option<string>>, i: nat, store: Store): Option<string>
    requires i < |stored| == |AutoKeys|
  {
    if Truthy(stored[i]) then Some(stored[i].value)
    else if DerivedNames[i] in store.newIds then Some(store.newIds[DerivedNames[i]])
    else None
  }

  /** The database step `i` creates, if any. */
  function CreatedAt(stored: seq<Option<string>>, i: nat, store: Store): seq<CreatedDatabase>
    requires i < |stored| == |AutoKeys|
  {
    if !Truthy(stored[i]) && DerivedNames[i] in store.newIds
    then [CreatedDatabase(store.newIds[DerivedNames[i]], DerivedNames[i])]
    else []
  }

  /** The databases the first `n` steps create, in order. */
  function Creations(stored: seq<Option<string>>, store: Store, n: nat): seq<CreatedDatabase>
    requires n <= |stored| == |AutoKeys|
  {
    if n == 0 then [] else Creations(stored, store, n - 1) + CreatedAt(stored, n - 1, store)
  }

  /** Whether step `i` on the table `rows` writes a new id back: it creates a
      database, the key has a row and the store accepts the write. */
  predicate WritesBack(rows: seq<ConfigRow>, i: nat, store: Store)
    requires i < |AutoKeys|
  {
    !Truthy(ItemValue(rows, AutoKeys[i])) && DerivedNames[i] in store.newIds
    && ItemPage(rows, AutoKeys[i]).Some? && AutoKeys[i] !in store.rejectedWrites
  }

  /** What the table holds under the key of step `i` once that step is done:
      the new id, in its `idToString` form, when the step writes it back;
      else what it held. */
  function WrittenBack(rows: seq<ConfigRow>, i: nat, store: Store): Option<string>
    requires i < |AutoKeys|
  {
    if WritesBack(rows, i, store) then Some(Text.IdToString(store.newIds[DerivedNames[i]]))
    else ItemValue(rows, AutoKeys[i])
  }

  /** Every step resolves. */
  predicate AllResolved(stored: seq<Option<string>>, store: Store)
    requires |stored| == |AutoKeys|
  {
    forall i :: 0 <= i < |AutoKeys| ==> Resolved(stored, i, store).Some?
  }

  /** Step `n` is the first one that does not resolve. */
  predicate FailsFirstAt(stored: seq<Option<string>>, store: Store, n: nat)
    requires |stored| == |AutoKeys|
  {
    n < |AutoKeys| && Resolved(stored, n, store).None?
    && forall i :: 0 <= i < n ==> Resolved(stored, i, store).Some?
  }

  /** The five keys are automatically filled keys and pairwise distinct. */
  lemma AutoKeysDistinctAuto()
    ensures forall i :: 0 <= i < |AutoKeys| ==> Data.IsAutoKey(AutoKeys[i])
    ensures forall i, j :: 0 <= i < j < |AutoKeys| ==> AutoKeys[i] != AutoKeys[j]
  {
  }

  /** The table after step `i` on the current table `rows`: the new id is
      written back when the step creates a database, the key has a row and
      the store accepts the write. */
  function AfterStep(rows: seq<ConfigRow>, i: nat, store: Store): seq<ConfigRow>
    requires i < |AutoKeys|
  {
    if WritesBack(rows, i, store) then WithValue(rows, AutoKeys[i], Text.IdToString(store.newIds[DerivedNames[i]]))
    else rows
  }

  /** The table the first `n` steps reach from `rows0`. */
  function AfterSteps(rows0: seq<ConfigRow>, store: Store, n: nat): seq<ConfigRow>
    requires n <= |AutoKeys|
  {
    if n == 0 then rows0 else AfterStep(AfterSteps(rows0, store, n - 1), n - 1, store)
  }

  /** Step `i` keeps which keys have rows, every key outside the five
      automatically filled keys and the keys of the other steps; its own key
      then holds what it writes back. */
  lemma StepReads(rows: seq<ConfigRow>, i: nat, store: Store, k: ConfigItem)
    requires i < |AutoKeys|
    ensures ItemPage(AfterStep(rows, i, store), k).Some? == ItemPage(rows, k).Some?
    ensures k != AutoKeys[i] ==> ItemValue(AfterStep(rows, i, store), k) == ItemValue(rows, k)
    ensures ItemValue(AfterStep(rows, i, store), AutoKeys[i]) == WrittenBack(rows, i, store)
  {
    if WritesBack(rows, i, store) {
      var v := Text.IdToString(store.newIds[DerivedNames[i]]);
      WriteKeepsPages(rows, AutoKeys[i], v, k);
      ReadAfterWrite(rows, AutoKeys[i], v);
      if k != AutoKeys[i] {
        WriteLeavesOtherKeys(rows, AutoKeys[i], v, k);
      }
    }
  }

  /** Step `n` of the steps from `rows0`, in terms of the tables before and
      after it: `StepReads` at the table the first `n` steps reach. */
  lemma NextStepReads(rows0: seq<ConfigRow>, store: Store, n: nat, k: ConfigItem)
    requires n < |AutoKeys|
    ensures ItemPage(AfterSteps(rows0, store, n + 1), k).Some? == ItemPage(AfterSteps(rows0, store, n), k).Some?
    ensures k != AutoKeys[n] ==> ItemValue(AfterSteps(rows0, store, n + 1), k) == ItemValue(AfterSteps(rows0, store, n), k)
  {
    StepReads(AfterSteps(rows0, store, n), n, store, k);
  }

  /** The key of step `i` is not the key of any other step, and no key
      outside the five is the key of a step. */
  lemma AutoKeyElsewhere(i: nat, m: nat, n: nat)
    requires i < |AutoKeys| && m <= n <= |AutoKeys|
    ensures i < m || n <= i ==> AutoKeys[i] !in AutoKeys[m..n]
    ensures forall k :: !Data.IsAutoKey(k) ==> k !in AutoKeys[m..n]
  {
    AutoKeysDistinctAuto();
  }

  /** Steps `m` to `n` keep which keys have rows, and leave every key that
      is not theirs as it was. */
  lemma {:induction false} AfterStepsUntouched(rows0: seq<ConfigRow>, store: Store, m: nat, n: nat, k: ConfigItem)
    requires m <= n <= |AutoKeys|
    ensures ItemPage(AfterSteps(rows0, store, n), k).Some? == ItemPage(AfterSteps(rows0, store, m), k).Some?
    ensures k !in AutoKeys[m..n] ==> ItemValue(AfterSteps(rows0, store, n), k) == ItemValue(AfterSteps(rows0, store, m), k)
  {
    if m < n {
      assert AutoKeys[m..n] == AutoKeys[m..n - 1] + [AutoKeys[n - 1]];
      AfterStepsUntouched(rows0, store, m, n - 1, k);
      NextStepReads(rows0, store, n - 1, k);
    }
  }

  /** The steps keep which keys have rows, and every key outside the five
      automatically filled keys reads as it did before them. */
  lemma AfterStepsKeepOthers(rows0: seq<ConfigRow>, store: Store, n: nat, k: ConfigItem)
    requires n <= |AutoKeys|
    ensures ItemPage(AfterSteps(rows0, store, n), k).Some? == ItemPage(rows0, k).Some?
    ensures !Data.IsAutoKey(k) ==> ItemValue(AfterSteps(rows0, store, n), k) == ItemValue(rows0, k)
  {
    AutoKeyElsewhere(0, 0, n);
    AfterStepsUntouched(rows0, store, 0, n, k);
  }

  /** The first `n` steps leave the keys of the later steps as they were. */
  lemma AfterStepsLaterKey(rows0: seq<ConfigRow>, store: Store, n: nat, i: nat)
    requires n <= i < |AutoKeys|
    ensures ItemValue(AfterSteps(rows0, store, n), AutoKeys[i]) == ItemValue(rows0, AutoKeys[i])
  {
    AutoKeyElsewhere(i, 0, n);
    AfterStepsUntouched(rows0, store, 0, n, AutoKeys[i]);
  }

  /** Step `n` leaves its key holding what it writes back, judged on the
      table it started from. */
  lemma StepKeyWritten(rows0: seq<ConfigRow>, store: Store, n: nat)
    requires n < |AutoKeys|
    ensures ItemValue(AfterSteps(rows0, store, n + 1), AutoKeys[n]) == WrittenBack(rows0, n, store)
  {
    var rows := AfterSteps(rows0, store, n);
    StepReads(rows, n, store, AutoKeys[n]);
    AfterStepsLaterKey(rows0, store, n, n);
    AfterStepsKeepOthers(rows0, store, n, AutoKeys[n]);
    WrittenBackFrame(rows, rows0, n, store);
  }

  /** After the first `n` steps, the key of each of them holds what that
      step wrote back. */
  lemma AfterStepsEarlierKey(rows0: seq<ConfigRow>, store: Store, n: nat, i: nat)
    requires i < n <= |AutoKeys|
    ensures ItemValue(AfterSteps(rows0, store, n), AutoKeys[i]) == WrittenBack(rows0, i, store)
  {
    StepKeyWritten(rows0, store, i);
    AutoKeyElsewhere(i, i + 1, n);
    AfterStepsUntouched(rows0, store, i + 1, n, AutoKeys[i]);
  }

  /** What step `i` writes back depends only on what its key holds and
      whether it has a row. */
  lemma WrittenBackFrame(rows: seq<ConfigRow>, rows0: seq<ConfigRow>, i: nat, store: Store)
    requires i < |AutoKeys|
    requires ItemValue(rows, AutoKeys[i]) == ItemValue(rows0, AutoKeys[i])
    requires ItemPage(rows, AutoKeys[i]).Some? == ItemPage(rows0, AutoKeys[i]).Some?
    ensures WrittenBack(rows, i, store) == WrittenBack(rows0, i, store)
  {
  }

  /** The configuration database start-up works with: the first search hit
      with its existing table `existingRows`, else a new database seeded with
      the initial rows; none when its creation is rejected. */
  function Start(store: Store, existingRows: seq<ConfigRow>): Option<(string, seq<ConfigRow>)>
  {
    if store.searchHits.Some? && |store.searchHits.value| > 0 then Some((store.searchHits.value[0], existingRows))
    else if ConfigDBName in store.newIds then Some((store.newIds[ConfigDBName], InitialRows(store.lostRows)))
    else None
  }

  /** The configuration database created, if any. */
  function ConfigCreation(store: Store): seq<CreatedDatabase>
  {
    if store.searchHits.Some? && |store.searchHits.value| > 0 then []
    else if ConfigDBName in store.newIds then [CreatedDatabase(store.newIds[ConfigDBName], ConfigDBName)]
    else []
  }

  /** Every database is found or created and the contribution list is
      configured: start-up gets as far as assembling the configuration. */
  predicate Configured(store: Store, existingRows: seq<ConfigRow>)
  {
    Start(store, existingRows).Some? && AllResolved(Stored(Start(store, existingRows).value.1), store)
    && SourceLists(Start(store, existingRows).value.1).Success?
  }

  /** The ids start-up assembles when it gets that far. */
  function StartIds(store: Store, existingRows: seq<ConfigRow>): ResolvedIds
    requires Configured(store, existingRows)
  {
    var (configurationId, rows) := Start(store, existingRows).value;
    var lists := SourceLists(rows).value;
    var stored := Stored(rows);
    ResolvedIds(configurationId, Resolved(stored, 0, store).value, Resolved(stored, 1, store).value,
                Resolved(stored, 2, store).value, Resolved(stored, 3, store).value, Resolved(stored, 4, store).value,
                lists.0, lists.1)
  }

  /** Tables that agree on the two source-list keys give the same lists. */
  lemma SourceListsFrame(a: seq<ConfigRow>, b: seq<ConfigRow>)
    requires ItemValue(a, StatisticsSource_ContributionDBIdList) == ItemValue(b, StatisticsSource_ContributionDBIdList)
    requires ItemValue(a, StatisticsSource_BountyDBIdList) == ItemValue(b, StatisticsSource_BountyDBIdList)
    ensures SourceLists(a) == SourceLists(b)
  {
  }

  /** Two readers that agree on the first `n` keys read the same names and
      the same outcome. */
  lemma {:induction false} FieldReadsAgree(read1: ConfigItem -> Result<string>, read2: ConfigItem -> Result<string>,
                                           keys: seq<ConfigItem>, n: nat)
    requires n <= |keys|
    requires forall i :: 0 <= i < n ==> read1(keys[i]) == read2(keys[i])
    ensures FieldNamesRead(read1, keys, n) == FieldNamesRead(read2, keys, n)
    ensures FieldsOutcome(read1, keys, n) == FieldsOutcome(read2, keys, n)
  {
    if n > 0 {
      FieldReadsAgree(read1, read2, keys, n - 1);
    }
  }

  /** Tables that agree outside the five automatically filled keys give the
      same field names. */
  lemma FieldNamesFrame(a: seq<ConfigRow>, b: seq<ConfigRow>)
    requires forall k :: !Data.IsAutoKey(k) ==> ItemValue(a, k) == ItemValue(b, k)
    ensures FieldNamesRead(FieldReader(a), FieldKeys, |FieldKeys|) == FieldNamesRead(FieldReader(b), FieldKeys, |FieldKeys|)
    ensures FieldsOutcome(FieldReader(a), FieldKeys, |FieldKeys|) == FieldsOutcome(FieldReader(b), FieldKeys, |FieldKeys|)
  {
    forall i | 0 <= i < |FieldKeys| ensures FieldReader(a)(FieldKeys[i]) == FieldReader(b)(FieldKeys[i]) {
      assert !Data.IsAutoKey(FieldKeys[i]);
    }
    FieldReadsAgree(FieldReader(a), FieldReader(b), FieldKeys, |FieldKeys|);
  }

  /** When none of the five keys holds an id and every creation is
      accepted, every step creates its database and resolves to its id. */
  lemma UnsetKeysResolveToNew(stored: seq<Option<string>>, store: Store)
    requires |stored| == |AutoKeys|
    requires forall i :: 0 <= i < |AutoKeys| ==> !Truthy(stored[i])
    requires forall i :: 0 <= i < |DerivedNames| ==> DerivedNames[i] in store.newIds
    ensures AllResolved(stored, store)
    ensures forall i :: 0 <= i < |AutoKeys| ==> Resolved(stored, i, store) == Some(store.newIds[DerivedNames[i]])
    ensures |Creations(stored, store, |AutoKeys|)| == |AutoKeys|
    ensures forall i :: 0 <= i < |AutoKeys| ==>
      Creations(stored, store, |AutoKeys|)[i] == CreatedDatabase(store.newIds[DerivedNames[i]], DerivedNames[i])
  {
    CreationsAllNew(stored, store, |AutoKeys|);
  }

  /** Under the same conditions the first `n` steps create the first `n`
      derived databases, in order. */
  lemma {:induction false} CreationsAllNew(stored: seq<Option<string>>, store: Store, n: nat)
    requires n <= |stored| == |AutoKeys|
    requires forall i :: 0 <= i < |AutoKeys| ==> !Truthy(stored[i])
    requires forall i :: 0 <= i < |DerivedNames| ==> DerivedNames[i] in store.newIds
    ensures |Creations(stored, store, n)| == n
    ensures forall i :: 0 <= i < n ==>
      Creations(stored, store, n)[i] == CreatedDatabase(store.newIds[DerivedNames[i]], DerivedNames[i])
  {
    if n > 0 {
      CreationsAllNew(stored, store, n - 1);
      assert CreatedAt(stored, n - 1, store) == [CreatedDatabase(store.newIds[DerivedNames[n - 1]], DerivedNames[n - 1])];
    }
  }

  /** A table holding the two default ids as the contribution list and an
      empty bounty list yields exactly those two ids and no bounty list. */
  lemma DefaultSourceLists(rows: seq<ConfigRow>)
    requires ItemValue(rows, StatisticsSource_ContributionDBIdList)
             == Some(Data.DefaultContributionIdA + [','] + Data.DefaultContributionIdB)
    requires ItemValue(rows, StatisticsSource_BountyDBIdList) == Some("")
    ensures SourceLists(rows) == Success(([Data.DefaultContributionIdA, Data.DefaultContributionIdB], []))
  {
    Data.DefaultIdAIsCompact();
    Data.DefaultIdBIsCompact();
    Data.CompactIdPair(Data.DefaultContributionIdA, Data.DefaultContributionIdB);
  }

  /** On a fresh table with nothing lost, the source lists read their
      initial values. */
  lemma FreshSourceValues()
    ensures ItemValue(InitialRows({}), StatisticsSource_ContributionDBIdList)
            == Some(Data.DefaultContributionIdA + [','] + Data.DefaultContributionIdB)
    ensures ItemValue(InitialRows({}), StatisticsSource_BountyDBIdList) == Some("")
  {
    InitialValue({}, StatisticsSource_ContributionDBIdList);
    InitialValue({}, StatisticsSource_BountyDBIdList);
  }

  /** The first start-up on a fresh workspace: nothing is found, every
      creation is accepted and nothing is lost. Every database is resolved to
      its new id, the contribution list is the two default ids and the
      bounty list is empty. */
  lemma FirstStartUp(store: Store, existingRows: seq<ConfigRow>)
    requires store.searchHits.None? || store.searchHits.value == []
    requires store.lostRows == {}
    requires ConfigDBName in store.newIds
    requires forall i :: 0 <= i < |DerivedNames| ==> DerivedNames[i] in store.newIds
    ensures Configured(store, existingRows)
    ensures StartIds(store, existingRows) ==
      ResolvedIds(store.newIds[ConfigDBName], store.newIds[DerivedNames[0]], store.newIds[DerivedNames[1]],
                  store.newIds[DerivedNames[2]], store.newIds[DerivedNames[3]], store.newIds[DerivedNames[4]],
                  [Data.DefaultContributionIdA, Data.DefaultContributionIdB], [])
  {
    var rows := InitialRows({});
    FreshTableLeavesAllAutoKeysUnset({});
    UnsetKeysResolveToNew(Stored(rows), store);
    FreshSourceValues();
    DefaultSourceLists(rows);
  }

  /** On the same first start-up every database is created, the
      configuration database first and then the others in order. */
  lemma FirstStartUpCreations(store: Store, existingRows: seq<ConfigRow>)
    requires store.searchHits.None? || store.searchHits.value == []
    requires store.lostRows == {}
    requires ConfigDBName in store.newIds
    requires forall i :: 0 <= i < |DerivedNames| ==> DerivedNames[i] in store.newIds
    ensures |StartCreations(store, existingRows)| == 1 + |AutoKeys|
    ensures StartCreations(store, existingRows)[0] == CreatedDatabase(store.newIds[ConfigDBName], ConfigDBName)
    ensures forall i :: 0 <= i < |AutoKeys| ==>
      StartCreations(store, existingRows)[i + 1] == CreatedDatabase(store.newIds[DerivedNames[i]], DerivedNames[i])
  {
    var rows := InitialRows({});
    FreshTableLeavesAllAutoKeysUnset({});
    UnsetKeysResolveToNew(Stored(rows), store);
    TakenSpec(Stored(rows), store);
  }

  /** The ids the first `n` steps resolve, in order; none as soon as one of
      them does not resolve. */
  function ResolvedPrefix(stored: seq<Option<string>>, store: Store, n: nat): (ids: Option<seq<string>>)
    requires n <= |stored| == |AutoKeys|
    ensures ids.Some? ==> |ids.value| == n
  {
    if n == 0 then Some([])
    else match ResolvedPrefix(stored, store, n - 1)
      case None => None
      case Some(ids) =>
        match Resolved(stored, n - 1, store)
        case None => None
        case Some(id) => Some(ids + [id])
  }

  /** How many of the first `n` steps run: up to and including the first one
      that does not resolve. */
  function Taken(stored: seq<Option<string>>, store: Store, n: nat): (t: nat)
    requires n <= |stored| == |AutoKeys|
    ensures t <= n
  {
    if n == 0 then 0
    else if ResolvedPrefix(stored, store, n - 1).None? then Taken(stored, store, n - 1)
    else n
  }

  /** The prefix is present exactly when each of its steps resolves, and then
      holds their ids in order. */
  lemma {:induction false} ResolvedPrefixSpec(stored: seq<Option<string>>, store: Store, n: nat)
    requires n <= |stored| == |AutoKeys|
    ensures ResolvedPrefix(stored, store, n).Some? <==> forall i :: 0 <= i < n ==> Resolved(stored, i, store).Some?
    ensures ResolvedPrefix(stored, store, n).Some? ==>
      |ResolvedPrefix(stored, store, n).value| == n
      && forall i :: 0 <= i < n ==> Some(ResolvedPrefix(stored, store, n).value[i]) == Resolved(stored, i, store)
  {
    if n > 0 {
      ResolvedPrefixSpec(stored, store, n - 1);
    }
  }

  /** Once a step fails, the prefix stays absent and no later step runs. */
  lemma {:induction false} TakenAfterFailure(stored: seq<Option<string>>, store: Store, k: nat, n: nat)
    requires k < n <= |stored| == |AutoKeys|
    requires ResolvedPrefix(stored, store, k).Some? && Resolved(stored, k, store).None?
    ensures ResolvedPrefix(stored, store, n).None?
    ensures Taken(stored, store, n) == k + 1
  {
    if n > k + 1 {
      TakenAfterFailure(stored, store, k, n - 1);
    }
  }

  lemma PrefixStep(stored: seq<Option<string>>, store: Store, i: nat, ids: seq<string>, id: string)
    requires i < |stored| == |AutoKeys|
    requires ResolvedPrefix(stored, store, i) == Some(ids) && Resolved(stored, i, store) == Some(id)
    ensures ResolvedPrefix(stored, store, i + 1) == Some(ids + [id])
  {
  }

  /** When the first `n` steps all resolve, all of them run. */
  lemma TakenWhenResolved(stored: seq<Option<string>>, store: Store, n: nat)
    requires n <= |stored| == |AutoKeys|
    requires ResolvedPrefix(stored, store, n).Some?
    ensures Taken(stored, store, n) == n
  {
  }

  /** All five steps run when all resolve; when step `k` is the first that
      does not, the steps up to and including it run. */
  lemma TakenSpec(stored: seq<Option<string>>, store: Store)
    requires |stored| == |AutoKeys|
    ensures AllResolved(stored, store) ==> Taken(stored, store, |AutoKeys|) == |AutoKeys|
    ensures forall k: nat :: FailsFirstAt(stored, store, k) ==> Taken(stored, store, |AutoKeys|) == k + 1
  {
    ResolvedPrefixSpec(stored, store, |AutoKeys|);
    forall k: nat | FailsFirstAt(stored, store, k) ensures Taken(stored, store, |AutoKeys|) == k + 1 {
      ResolvedPrefixSpec(stored, store, k);
      TakenAfterFailure(stored, store, k, |AutoKeys|);
    }
  }

  /** What the database resolution of start-up yields from the workspace
      `store` and the table `existingRows` of the configuration database the
      search finds: the outcome, with the configuration id first, and the
      configuration table as the steps leave it. */
  function Resolution(store: Store, existingRows: seq<ConfigRow>): (Result<seq<string>>, seq<ConfigRow>)
  {
    match Start(store, existingRows)
    case None => (Failure(ApiError), existingRows)
    case Some((configurationId, rows0)) =>
      var stored0 := Stored(rows0);
      var rows := AfterSteps(rows0, store, Taken(stored0, store, |AutoKeys|));
      match ResolvedPrefix(stored0, store, |AutoKeys|)
      case None => (Failure(ApiError), rows)
      case Some(ids) => (Success([configurationId] + ids), rows)
  }

  /** The databases the resolution creates, in order. */
  function StartCreations(store: Store, existingRows: seq<ConfigRow>): seq<CreatedDatabase>
  {
    match Start(store, existingRows)
    case None => []
    case Some((_, rows0)) =>
      ConfigCreation(store) + Creations(Stored(rows0), store, Taken(Stored(rows0), store, |AutoKeys|))
  }

  /** The resolution succeeds exactly when the configuration database is
      found or created and each of the five steps resolves; its ids are then
      the configuration id followed by the five steps' ids, in order. */
  lemma ResolutionIds(store: Store, existingRows: seq<ConfigRow>)
    ensures Resolution(store, existingRows).0.Success? <==>
      Start(store, existingRows).Some? && AllResolved(Stored(Start(store, existingRows).value.1), store)
    ensures Resolution(store, existingRows).0.Failure? ==> Resolution(store, existingRows).0.error == ApiError
    ensures Resolution(store, existingRows).0.Success? ==>
      var ids := Resolution(store, existingRows).0.value;
      var stored0 := Stored(Start(store, existingRows).value.1);
      |ids| == 1 + |AutoKeys| && ids[0] == Start(store, existingRows).value.0
      && forall i :: 0 <= i < |AutoKeys| ==> Some(ids[i + 1]) == Resolved(stored0, i, store)
  {
    if Start(store, existingRows).Some? {
      ResolvedPrefixSpec(Stored(Start(store, existingRows).value.1), store, |AutoKeys|);
    }
  }

  /** The table the resolution leaves: the one the search found when no
      configuration database is at hand; otherwise the table `Start` names,
      with the same keys having rows, every key outside the five reading as
      before, the key of each step that ran holding what it wrote back, and
      the keys of the steps after a failure untouched. */
  lemma ResolutionTable(store: Store, existingRows: seq<ConfigRow>, k: ConfigItem, i: nat)
    requires i < |AutoKeys|
    ensures Start(store, existingRows).None? ==> Resolution(store, existingRows).1 == existingRows
    ensures Start(store, existingRows).Some? ==>
      var (rows, rows0) := (Resolution(store, existingRows).1, Start(store, existingRows).value.1);
      var ran := Taken(Stored(rows0), store, |AutoKeys|);
      && ItemPage(rows, k).Some? == ItemPage(rows0, k).Some?
      && (!Data.IsAutoKey(k) ==> ItemValue(rows, k) == ItemValue(rows0, k))
      && (i < ran ==> ItemValue(rows, AutoKeys[i]) == WrittenBack(rows0, i, store))
      && (ran <= i ==> ItemValue(rows, AutoKeys[i]) == ItemValue(rows0, AutoKeys[i]))
  {
    if Start(store, existingRows).Some? {
      var rows0 := Start(store, existingRows).value.1;
      var ran := Taken(Stored(rows0), store, |AutoKeys|);
      assert Resolution(store, existingRows).1 == AfterSteps(rows0, store, ran);
      AfterStepsKeepOthers(rows0, store, ran, k);
      if i < ran {
        AfterStepsEarlierKey(rows0, store, ran, i);
      } else {
        AfterStepsLaterKey(rows0, store, ran, i);
      }
    }
  }

  /** When the resolution succeeds, the table it leaves reads the same source
      lists and field names as the table it started from: the steps write
      only the five automatically filled keys. */
  lemma ResolutionKeepsReads(store: Store, existingRows: seq<ConfigRow>)
    requires Resolution(store, existingRows).0.Success?
    ensures Start(store, existingRows).Some?
    ensures var (rows, rows0) := (Resolution(store, existingRows).1, Start(store, existingRows).value.1);
      && SourceLists(rows) == SourceLists(rows0)
      && FieldNamesRead(FieldReader(rows), FieldKeys, |FieldKeys|) == FieldNamesRead(FieldReader(rows0), FieldKeys, |FieldKeys|)
      && FieldsOutcome(FieldReader(rows), FieldKeys, |FieldKeys|) == FieldsOutcome(FieldReader(rows0), FieldKeys, |FieldKeys|)
  {
    var rows0 := Start(store, existingRows).value.1;
    var stored0 := Stored(rows0);
    var n := Taken(stored0, store, |AutoKeys|);
    var rows := AfterSteps(rows0, store, n);
    assert Resolution(store, existingRows).1 == rows;
    AfterStepsKeepOthers(rows0, store, n, StatisticsSource_ContributionDBIdList);
    AfterStepsKeepOthers(rows0, store, n, StatisticsSource_BountyDBIdList);
    forall k | !Data.IsAutoKey(k) ensures ItemValue(rows, k) == ItemValue(rows0, k) {
      AfterStepsKeepOthers(rows0, store, n, k);
    }
    SourceListsFrame(rows, rows0);
    FieldNamesFrame(rows, rows0);
  }

  /** When start-up gets as far as assembling the configuration, the ids it
      assembles are the resolution's six ids and the lists of the table the
      resolution leaves. */
  lemma ResolutionStartIds(store: Store, existingRows: seq<ConfigRow>)
    requires Configured(store, existingRows)
    ensures Resolution(store, existingRows).0.Success?
    ensures var (ids, rows) := (Resolution(store, existingRows).0.value, Resolution(store, existingRows).1);
      |ids| == 1 + |AutoKeys| && SourceLists(rows).Success?
      && StartIds(store, existingRows) ==
         ResolvedIds(ids[0], ids[1], ids[2], ids[3], ids[4], ids[5], SourceLists(rows).value.0, SourceLists(rows).value.1)
  {
    ResolutionIds(store, existingRows);
    ResolutionKeepsReads(store, existingRows);
    var ids := Resolution(store, existingRows).0.value;
    var stored0 := Stored(Start(store, existingRows).value.1);
    assert Some(ids[1]) == Resolved(stored0, 0, store) && Some(ids[2]) == Resolved(stored0, 1, store)
      && Some(ids[3]) == Resolved(stored0, 2, store) && Some(ids[4]) == Resolved(stored0, 3, store)
      && Some(ids[5]) == Resolved(stored0, 4, store);
  }

  lemma SeqAppendAssoc<T>(a: seq<T>, b: seq<T>, c: seq<T>)
    ensures a + b + c == a + (b + c)
  {
  }

  /** The module-level state of index.ts. */
  class NotionStatistics {
    var projectDBConfig: ProjectConfiguration
    /** Configured field names, by field key. */
    var fieldNameConfig: map<ConfigItem, string>
    /** For each source database, its counted properties by name. */
    var statisticPropertyIdMap: map<string, map<string, BaseType>>
    /** The databases start-up has created, in order. */
    var created: seq<CreatedDatabase>

    constructor ()
      ensures projectDBConfig == EmptyProjectConfiguration
      ensures fieldNameConfig == map[] && statisticPropertyIdMap == map[] && created == []
    {
      projectDBConfig := EmptyProjectConfiguration;
      fieldNameConfig := map[];
      statisticPropertyIdMap := map[];
      created := [];
    }

    /** `getOrCreateConfigurationDB`: the first database the search finds
        (`existing` is its table); when there is none, a new table is
        created and filled with the initial rows. */
    method GetOrCreateConfigurationDB(store: Store, existing: ConfigurationDatabase)
      returns (r: Result<string>, db: ConfigurationDatabase)
      modifies this`created
      ensures store.searchHits.Some? && |store.searchHits.value| > 0 ==>
        r == Success(store.searchHits.value[0]) && db == existing && created == old(created)
      ensures !(store.searchHits.Some? && |store.searchHits.value| > 0) && ConfigDBName !in store.newIds ==>
        r == Failure(ApiError) && created == old(created)
      ensures !(store.searchHits.Some? && |store.searchHits.value| > 0) && ConfigDBName in store.newIds ==>
        r == Success(store.newIds[ConfigDBName]) && fresh(db) && db.rows == InitialRows(store.lostRows)
        && created == old(created) + [CreatedDatabase(store.newIds[ConfigDBName], ConfigDBName)]
      ensures r.Failure? <==> Start(store, old(existing.rows)).None?
      ensures r.Failure? ==> r.error == ApiError && db == existing && created == old(created)
      ensures r.Success? ==> (r.value, db.rows) == Start(store, old(existing.rows)).value
                             && created == old(created) + ConfigCreation(store)
    {
      var configDB := store.searchHits;
      if configDB.Some? && |configDB.value| > 0 {
        return Success(configDB.value[0]), existing;
      }
      if ConfigDBName !in store.newIds {
        return Failure(ApiError), existing;
      }
      var configurationId := store.newIds[ConfigDBName];
      created := created + [CreatedDatabase(configurationId, ConfigDBName)];
      db := new ConfigurationDatabase();
      var _ := db.InitConfigurationDatabase(store.lostRows);
      return Success(configurationId), db;
    }

    /** `getOrCreateStatisticsResultDB` and `getOrCreateRecordDB`: the id
        configured under `key` when it is present; otherwise a new database
        titled after `name`, whose id is written back through `idToString`.
        The raw id is returned; a rejected write-back is ignored. */
    method GetOrCreateDatabase(db: ConfigurationDatabase, key: ConfigItem, name: DatabaseName, store: Store)
      returns (r: Result<string>)
      modifies this`created, db
      ensures Truthy(ItemValue(old(db.rows), key)) ==>
        r == Success(ItemValue(old(db.rows), key).value) && db.rows == old(db.rows) && created == old(created)
      ensures !Truthy(ItemValue(old(db.rows), key)) && name !in store.newIds ==>
        r == Failure(ApiError) && db.rows == old(db.rows) && created == old(created)
      ensures !Truthy(ItemValue(old(db.rows), key)) && name in store.newIds ==>
        r == Success(store.newIds[name])
        && created == old(created) + [CreatedDatabase(store.newIds[name], name)]
        && db.rows == if ItemPage(old(db.rows), key).Some? && key !in store.rejectedWrites
                      then WithValue(old(db.rows), key, Text.IdToString(store.newIds[name]))
                      else old(db.rows)
    {
      var id := ItemValue(db.rows, key);
      if Truthy(id) {
        return Success(id.value);
      }
      if name !in store.newIds {
        return Failure(ApiError);
      }
      var newId := store.newIds[name];
      created := created + [CreatedDatabase(newId, name)];
      var _ := db.UpdateItemValue(key, Text.IdToString(newId), key in store.rejectedWrites);
      return Success(newId);
    }

    /** The field-name reads of start-up: `read` applied to every key of
        `keys`. A read that fails does not stop the others; the first
        failure is reported. */
    method ReadFieldNames(read: ConfigItem -> Result<string>, keys: seq<ConfigItem>) returns (r: Result<()>)
      modifies this`fieldNameConfig
      ensures fieldNameConfig == old(fieldNameConfig) + FieldNamesRead(read, keys, |keys|)
      ensures r == FieldsOutcome(read, keys, |keys|)
    {
      r := Success(());
      for i := 0 to |keys|
        invariant fieldNameConfig == old(fieldNameConfig) + FieldNamesRead(read, keys, i)
        invariant r == FieldsOutcome(read, keys, i)
      {
        var result := read(keys[i]);
        if result.Success? {
          fieldNameConfig := fieldNameConfig[keys[i] := result.value];
        } else if r.Success? {
          r := Failure(result.error);
        }
      }
    }

    /** `updateStatisticPropertyIdMap`: for every source database, record its
        schema properties whose names are configured field names. A schema
        that cannot be retrieved fails the whole call, after the others have
        been recorded. */
    method UpdateStatisticPropertyIdMap(store: Store) returns (r: Result<map<string, map<string, BaseType>>>)
      modifies this`statisticPropertyIdMap
      ensures statisticPropertyIdMap == Recorded(old(statisticPropertyIdMap), projectDBConfig.StatisticsContributionDBIdList,
                                                 store.schemas, fieldNameConfig.Values)
      ensures r.Success? <==> forall i :: 0 <= i < |projectDBConfig.StatisticsContributionDBIdList| ==>
                                projectDBConfig.StatisticsContributionDBIdList[i] in store.schemas
      ensures r.Success? ==> r.value == statisticPropertyIdMap
      ensures r.Failure? ==> r.error == ApiError
    {
      var filedNameList := fieldNameConfig.Values;
      var dbIds := projectDBConfig.StatisticsContributionDBIdList;
      var failed := false;
      for i := 0 to |dbIds|
        invariant statisticPropertyIdMap == Recorded(old(statisticPropertyIdMap), dbIds[..i], store.schemas, filedNameList)
        invariant failed <==> exists j :: 0 <= j < i && dbIds[j] !in store.schemas
      {
        assert dbIds[..i + 1][..i] == dbIds[..i];
        var dbId := dbIds[i];
        if dbId in store.schemas {
          var property2IdMap := CollectFieldProperties(store.schemas[dbId], filedNameList);
          statisticPropertyIdMap := statisticPropertyIdMap[dbId := property2IdMap];
        } else {
          failed := true;
        }
      }
      assert dbIds[..|dbIds|] == dbIds;
      if failed {
        return Failure(ApiError);
      }
      return Success(statisticPropertyIdMap);
    }

    /** The first part of `initNotionStatistics`: the configuration database,
        then the result database and the four record databases, each found
        or created in turn; the first failure stops start-up. The table the
        derived steps start from is the one `Start` names. */
    method ResolveDatabases(store: Store, existing: ConfigurationDatabase)
      returns (r: Result<seq<string>>, db: ConfigurationDatabase)
      modifies this`created, existing
      ensures r == Resolution(store, old(existing.rows)).0
      ensures db.rows == Resolution(store, old(existing.rows)).1
      ensures store.searchHits.Some? && |store.searchHits.value| > 0 ==> db == existing
      ensures created == old(created) + StartCreations(store, old(existing.rows))
    {
      var configurationId;
      configurationId, db := GetOrCreateConfigurationDB(store, existing);
      if configurationId.Failure? {
        return Failure(configurationId.error), db;
      }
      ghost var mid := created;
      ghost var stored0 := Stored(db.rows);
      var derived := ResolveDerived(db, store);
      ghost var more := Creations(stored0, store, Taken(stored0, store, |AutoKeys|));
      SeqAppendAssoc(old(created), ConfigCreation(store), more);
      if derived.Failure? {
        return Failure(derived.error), db;
      }
      return Success([configurationId.value] + derived.value), db;
    }

    /** Step `i` of the derived resolution, on a table the earlier steps
        reached from `rows0`: the database of `DerivedNames[i]` is found or
        created through its key `AutoKeys[i]`. */
    method ResolveStep(db: ConfigurationDatabase, i: nat, store: Store, ghost rows0: seq<ConfigRow>)
      returns (r: Result<string>)
      requires i < |AutoKeys| && db.rows == AfterSteps(rows0, store, i)
      modifies this`created, db
      ensures r.Success? <==> Resolved(Stored(rows0), i, store).Some?
      ensures r.Success? ==> r.value == Resolved(Stored(rows0), i, store).value
      ensures r.Failure? ==> r.error == ApiError
      ensures db.rows == AfterSteps(rows0, store, i + 1)
      ensures created == old(created) + CreatedAt(Stored(rows0), i, store)
    {
      ghost var before := db.rows;
      AfterStepsLaterKey(rows0, store, i, i);
      r := GetOrCreateDatabase(db, AutoKeys[i], DerivedNames[i], store);
      assert db.rows == AfterStep(before, i, store);
    }

    /** The result database and the four record databases, found or created
        in turn through the configuration table `db`; the first failure
        stops. The five calls of index.ts differ only in the key and the
        name, so they are taken here as the steps over `AutoKeys` and
        `DerivedNames`, in the same order. */
    method ResolveDerived(db: ConfigurationDatabase, store: Store) returns (r: Result<seq<string>>)
      modifies this`created, db
      ensures r.Success? <==> ResolvedPrefix(Stored(old(db.rows)), store, |AutoKeys|).Some?
      ensures r.Success? ==> r.value == ResolvedPrefix(Stored(old(db.rows)), store, |AutoKeys|).value
      ensures r.Failure? ==> r.error == ApiError
      ensures db.rows == AfterSteps(old(db.rows), store, Taken(Stored(old(db.rows)), store, |AutoKeys|))
      ensures created == old(created) + Creations(Stored(old(db.rows)), store, Taken(Stored(old(db.rows)), store, |AutoKeys|))
    {
      ghost var rows0 := db.rows;
      ghost var stored0 := Stored(rows0);
      var ids := [];
      for i := 0 to |AutoKeys|
        invariant ResolvedPrefix(stored0, store, i) == Some(ids)
        invariant db.rows == AfterSteps(rows0, store, i)
        invariant created == old(created) + Creations(stored0, store, i)
      {
        var id := ResolveStep(db, i, store, rows0);
        SeqAppendAssoc(old(created), Creations(stored0, store, i), CreatedAt(stored0, i, store));
        if id.Failure? {
          TakenAfterFailure(stored0, store, i, |AutoKeys|);
          return Failure(id.error);
        }
        PrefixStep(stored0, store, i, ids, id.value);
        ids := ids + [id.value];
      }
      TakenWhenResolved(stored0, store, |AutoKeys|);
      return Success(ids);
    }

    /** The second part of `initNotionStatistics`, on the configuration
        table `rows` and the six resolved ids `dbIds`: read the source lists,
        store the corrected assembly, read the field names, then record the
        counted properties. A missing contribution list fails before
        anything is stored; a missing bounty list leaves the empty list. */
    method Configure(rows: seq<ConfigRow>, dbIds: seq<string>, store: Store) returns (r: Result<ResolvedIds>)
      requires |dbIds| == 1 + |AutoKeys|
      modifies this`projectDBConfig, this`fieldNameConfig, this`statisticPropertyIdMap
      ensures SourceLists(rows).Failure? ==>
        r == Failure(SourceLists(rows).error) && projectDBConfig == old(projectDBConfig)
        && fieldNameConfig == old(fieldNameConfig) && statisticPropertyIdMap == old(statisticPropertyIdMap)
      ensures SourceLists(rows).Success? ==>
        var ids := ResolvedIds(dbIds[0], dbIds[1], dbIds[2], dbIds[3], dbIds[4], dbIds[5],
                               SourceLists(rows).value.0, SourceLists(rows).value.1);
        var fields := FieldsOutcome(FieldReader(rows), FieldKeys, |FieldKeys|);
        && projectDBConfig == Assemble(ids)
        && fieldNameConfig == old(fieldNameConfig) + FieldNamesRead(FieldReader(rows), FieldKeys, |FieldKeys|)
        && (fields.Failure? ==> r == Failure(fields.error) && statisticPropertyIdMap == old(statisticPropertyIdMap))
        && (fields.Success? ==>
              statisticPropertyIdMap == Recorded(old(statisticPropertyIdMap), ids.contributionList, store.schemas,
                                                 fieldNameConfig.Values)
              && (r.Success? <==> forall i :: 0 <= i < |ids.contributionList| ==> ids.contributionList[i] in store.schemas)
              && (r.Success? ==> r.value == ids)
              && (r.Failure? ==> r.error == ApiError))
    {
      var lists := SourceLists(rows);
      if lists.Failure? {
        return Failure(lists.error);
      }
      var statisticsContributionList := lists.value.0;
      var statisticsBountyList := lists.value.1;

      projectDBConfig := projectDBConfig.(ConfigurationDatabaseId := dbIds[0]);
      projectDBConfig := projectDBConfig.(StatisticsResultDBId := dbIds[1]);
      projectDBConfig := projectDBConfig.(InformationSourceRecordDBId := dbIds[2]);
      projectDBConfig := projectDBConfig.(TranslationRecordDBId := dbIds[3]);
      projectDBConfig := projectDBConfig.(ProofeadRecordDBId := dbIds[4]);
      projectDBConfig := projectDBConfig.(BountyRecordDBId := dbIds[5]);
      projectDBConfig := projectDBConfig.(StatisticsContributionDBIdList := statisticsContributionList);
      projectDBConfig := projectDBConfig.(StatisticsBountyDBIdList := statisticsBountyList);

      var ids := ResolvedIds(dbIds[0], dbIds[1], dbIds[2], dbIds[3], dbIds[4], dbIds[5],
                             statisticsContributionList, statisticsBountyList);
      assert projectDBConfig == Assemble(ids);
      var fields := ReadFieldNames(FieldReader(rows), FieldKeys);
      if fields.Failure? {
        return Failure(fields.error);
      }
      var recorded := UpdateStatisticPropertyIdMap(store);
      if recorded.Failure? {
        return Failure(recorded.error);
      }
      return Success(ids);
    }

    /** `initNotionStatistics`: resolve or create every database, read the
        source lists and the field names, then record the counted properties.
        The resolved ids are stored with the corrected assembly, each in its
        own slot. Lists and field names are read from the table `Start`
        names, as the derived steps left it; those steps write only the five
        automatically filled keys. */
    method InitNotionStatistics(store: Store, existing: ConfigurationDatabase)
      returns (r: Result<ResolvedIds>, db: ConfigurationDatabase)
      modifies this, existing
      ensures !Configured(store, old(existing.rows)) ==>
        r.Failure? && projectDBConfig == old(projectDBConfig)
        && fieldNameConfig == old(fieldNameConfig) && statisticPropertyIdMap == old(statisticPropertyIdMap)
      ensures Start(store, old(existing.rows)).Some? && AllResolved(Stored(Start(store, old(existing.rows)).value.1), store)
              && SourceLists(Start(store, old(existing.rows)).value.1).Failure? ==>
        r == Failure(SourceLists(Start(store, old(existing.rows)).value.1).error)
      ensures Configured(store, old(existing.rows)) ==>
        var rows0 := Start(store, old(existing.rows)).value.1;
        var ids := StartIds(store, old(existing.rows));
        var fields := FieldsOutcome(FieldReader(rows0), FieldKeys, |FieldKeys|);
        && projectDBConfig == Assemble(ids)
        && fieldNameConfig == old(fieldNameConfig) + FieldNamesRead(FieldReader(rows0), FieldKeys, |FieldKeys|)
        && (fields.Failure? ==> r == Failure(fields.error) && statisticPropertyIdMap == old(statisticPropertyIdMap))
        && (fields.Success? ==>
              statisticPropertyIdMap == Recorded(old(statisticPropertyIdMap), ids.contributionList, store.schemas,
                                                 fieldNameConfig.Values)
              && (r.Success? <==> forall i :: 0 <= i < |ids.contributionList| ==> ids.contributionList[i] in store.schemas)
              && (r.Failure? ==> r.error == ApiError))
      ensures r.Success? ==> Configured(store, old(existing.rows)) && r.value == StartIds(store, old(existing.rows))
      ensures db.rows == Resolution(store, old(existing.rows)).1
      ensures store.searchHits.Some? && |store.searchHits.value| > 0 ==> db == existing
      ensures created == old(created) + StartCreations(store, old(existing.rows))
    {
      var resolved;
      resolved, db := ResolveDatabases(store, existing);
      ResolutionIds(store, old(existing.rows));
      if resolved.Failure? {
        return Failure(resolved.error), db;
      }
      ResolutionKeepsReads(store, old(existing.rows));
      if Configured(store, old(existing.rows)) {
        ResolutionStartIds(store, old(existing.rows));
      }
      r := Configure(db.rows, resolved.value, store);
    }
  }
}
