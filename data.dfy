/** The constant tables of data.ts: the rows a new configuration database is
    seeded with, and the field models of the result and record databases. */
module Data {
  import opened Types
  import Text

  /** The two ids of the default contribution source list. */
  const DefaultContributionIdA := "f52c45ea79764c84b02d78bbd4139772"
  const DefaultContributionIdB := "0f8b2217d0a94966813c79cde52e7e11"

  const AutoDescription := "!!!程序自动填写,除非Value为空,否则不要修改"

  /** `configurationInitData`, in declaration order. */
  const ConfigurationInitData: seq<ConfigEntry> := [
    ConfigEntry(Auto_ResultDBId, "", AutoDescription),
    ConfigEntry(Auto_InformationSourceRecordDBId, "", AutoDescription),
    ConfigEntry(Auto_TranslationRecordDBId, "", AutoDescription),
    ConfigEntry(Auto_ProofeadRecordDBId, "", AutoDescription),
    ConfigEntry(Auto_BountyRecordDBId, "", AutoDescription),
    ConfigEntry(StatisticsSource_ContributionDBIdList,
      DefaultContributionIdA + "," + DefaultContributionIdB,
      "填入所有想要统计工作量的列表(每个列表格式需要一致): !!!**用”,”分隔不同列表Id**!!!"),
    ConfigEntry(StatisticsSource_BountyDBIdList, "",
      "填入所有想要统计的赏金任务列表(每个列表格式需要一致): !!!**用”,”分隔不同列表Id**!!!"),
    ConfigEntry(PointRatio_InformationSource, "20",
      "信源占总积分的百分比, 直接写数字,不要写百分号(信源+翻译+校对=100)"),
    ConfigEntry(PointRatio_TranslationPointRatio, "50",
      "翻译占总积分的百分比, 直接写数字,不要写百分号(信源+翻译+校对=100)"),
    ConfigEntry(PointRatio_ProofreadRatio, "30",
      "校对占总积分的百分比, 直接写数字,不要写百分号(信源+翻译+校对=100)"),
    ConfigEntry(Filed_TotalPointsFiledName, "积分",
      "[总积分]在统计源数据库中的字段名称(总积分列应该是number类型)"),
    ConfigEntry(Filed_InformationSourceFiledName, "信源",
      "[信源]在统计源数据库中的字段名称(信源列应该是people类型)"),
    ConfigEntry(Filed_TranslationFiledName, "翻译",
      "[翻译]在统计源数据库中的字段名称(翻译列应该是people类型)"),
    ConfigEntry(Filed_ProofreadFiledName, "校对",
      "[校对]在统计源数据库中的字段名称(校对列应该是people类型)"),
    ConfigEntry(Filed_InformationSourceEndTimeFiledName, "信源完成时间",
      "[信源完成时间]在统计源数据库中的字段名称(应该是Date类型)"),
    ConfigEntry(Filed_TranslationStartTimeFiledName, "翻译启动时间",
      "[翻译启动时间]在统计源数据库中的字段名称(应该是Date类型)"),
    ConfigEntry(Filed_TranslationEndTimeFiledName, "翻译完成时间",
      "[翻译完成时间]在统计源数据库中的字段名称(应该是Date类型)"),
    ConfigEntry(Filed_ProofreadStartTimeFiledName, "校对启动时间",
      "[校对启动时间]在统计源数据库中的字段名称(应该是Date类型)"),
    ConfigEntry(Filed_ProofreadonEndTimeFiledName, "校对完成时间",
      "[校对完成时间]在统计源数据库中的字段名称(应该是Date类型)")
  ]

  /** The field model of the statistics result database. */
  datatype ResultDatabaseModel = ResultDatabaseModel(
    ContributorId: DatabaseItem, Contributor: DatabaseItem,
    InformationSource: DatabaseItem, Translation: DatabaseItem,
    Proofead: DatabaseItem, Bounty: DatabaseItem,
    Points: DatabaseItem, LastUpdateDate: DatabaseItem)
  {
    function Names(): seq<string>
    {
      [ContributorId.name, Contributor.name, InformationSource.name, Translation.name,
       Proofead.name, Bounty.name, Points.name, LastUpdateDate.name]
    }
  }

  /** The field model of the contribution record databases. */
  datatype RecordDatabaseModel = RecordDatabaseModel(
    TaskId: DatabaseItem, FromDatabaseId: DatabaseItem,
    ContributorId: DatabaseItem, Contributor: DatabaseItem,
    Points: DatabaseItem, LastRecordDate: DatabaseItem)
  {
    function Names(): seq<string>
    {
      [TaskId.name, FromDatabaseId.name, ContributorId.name, Contributor.name,
       Points.name, LastRecordDate.name]
    }
  }

  const ResultDatabaseModelData := ResultDatabaseModel(
    DatabaseItem("ContributorId", Title),
    DatabaseItem("Contributor", People),
    DatabaseItem("InformationSource", Number),
    DatabaseItem("Translation", Number),
    DatabaseItem("Proofead", Number),
    DatabaseItem("Bounty", Number),
    DatabaseItem("Points", Number),
    DatabaseItem("LastUpdateDate", Date))

  const RecordDatabaseModelData := RecordDatabaseModel(
    DatabaseItem("TaskId", Title),
    DatabaseItem("FromDatabaseId", RichText),
    DatabaseItem("ContributorId", RichText),
    DatabaseItem("Contributor", People),
    DatabaseItem("Points", Number),
    DatabaseItem("LastStatisticsDate", Date))

  predicate Distinct<T(==)>(s: seq<T>)
  {
    forall i, j :: 0 <= i < j < |s| ==> s[i] != s[j]
  }

  /** The key stored under a name, if any: the reverse of `KeyName`. The
      names are first told apart by their length, so that deciding a name
      compares it with at most three of the nineteen literals rather than
      with each of them in turn; the result is the same as a direct match. */
  function KeyOfName(s: string): Option<ConfigItem>
  {
    if |s| == 15 then
      if s == "Auto_ResultDBId" then Some(Auto_ResultDBId) else None
    else if |s| == 21 then
      if s == "Auto_BountyRecordDBId" then Some(Auto_BountyRecordDBId) else None
    else if |s| == 23 then
      if s == "Auto_ProofeadRecordDBId" then Some(Auto_ProofeadRecordDBId) else None
    else if |s| == 24 then
      if s == "Filed_ProofreadFiledName" then Some(Filed_ProofreadFiledName) else None
    else if |s| == 25 then
      if s == "PointRatio_ProofreadRatio" then Some(PointRatio_ProofreadRatio) else None
    else if |s| == 26 then
      if s == "Auto_TranslationRecordDBId" then Some(Auto_TranslationRecordDBId) else if s == "Filed_TranslationFiledName" then Some(Filed_TranslationFiledName) else if s == "Filed_TotalPointsFiledName" then Some(Filed_TotalPointsFiledName) else None
    else if |s| == 28 then
      if s == "PointRatio_InformationSource" then Some(PointRatio_InformationSource) else None
    else if |s| == 31 then
      if s == "StatisticsSource_BountyDBIdList" then Some(StatisticsSource_BountyDBIdList) else None
    else if |s| == 32 then
      if s == "Auto_InformationSourceRecordDBId" then Some(Auto_InformationSourceRecordDBId) else if s == "PointRatio_TranslationPointRatio" then Some(PointRatio_TranslationPointRatio) else if s == "Filed_InformationSourceFiledName" then Some(Filed_InformationSourceFiledName) else None
    else if |s| == 33 then
      if s == "Filed_TranslationEndTimeFiledName" then Some(Filed_TranslationEndTimeFiledName) else if s == "Filed_ProofreadStartTimeFiledName" then Some(Filed_ProofreadStartTimeFiledName) else if s == "Filed_ProofreadonEndTimeFiledName" then Some(Filed_ProofreadonEndTimeFiledName) else None
    else if |s| == 35 then
      if s == "Filed_TranslationStartTimeFiledName" then Some(Filed_TranslationStartTimeFiledName) else None
    else if |s| == 37 then
      if s == "StatisticsSource_ContributionDBIdList" then Some(StatisticsSource_ContributionDBIdList) else None
    else if |s| == 39 then
      if s == "Filed_InformationSourceEndTimeFiledName" then Some(Filed_InformationSourceEndTimeFiledName) else None
    else None
  }

  /** The keys whose values the bot fills in itself. */
  predicate IsAutoKey(k: ConfigItem)
  {
    k.Auto_ResultDBId? || k.Auto_InformationSourceRecordDBId? || k.Auto_TranslationRecordDBId?
    || k.Auto_ProofeadRecordDBId? || k.Auto_BountyRecordDBId?
  }

  predicate IsFieldKey(k: ConfigItem)
  {
    k.Filed_InformationSourceFiledName? || k.Filed_TranslationFiledName? || k.Filed_ProofreadFiledName?
    || k.Filed_TotalPointsFiledName? || k.Filed_InformationSourceEndTimeFiledName?
    || k.Filed_TranslationStartTimeFiledName? || k.Filed_TranslationEndTimeFiledName?
    || k.Filed_ProofreadStartTimeFiledName? || k.Filed_ProofreadonEndTimeFiledName?
  }

  /** The keys naming the start and end time fields. */
  predicate IsTimeFieldKey(k: ConfigItem)
  {
    k.Filed_InformationSourceEndTimeFiledName?
    || k.Filed_TranslationStartTimeFiledName? || k.Filed_TranslationEndTimeFiledName?
    || k.Filed_ProofreadStartTimeFiledName? || k.Filed_ProofreadonEndTimeFiledName?
  }

  lemma TimeFieldKeyNameRoundTrip(k: ConfigItem)
    requires IsTimeFieldKey(k)
    ensures KeyOfName(KeyName(k)) == Some(k)
  {
  }

  lemma CountFieldKeyNameRoundTrip(k: ConfigItem)
    requires IsFieldKey(k) && !IsTimeFieldKey(k)
    ensures KeyOfName(KeyName(k)) == Some(k)
  {
  }

  lemma FieldKeyNameRoundTrip(k: ConfigItem)
    requires IsFieldKey(k)
    ensures KeyOfName(KeyName(k)) == Some(k)
  {
    if IsTimeFieldKey(k) {
      TimeFieldKeyNameRoundTrip(k);
    } else {
      CountFieldKeyNameRoundTrip(k);
    }
  }

  lemma OtherKeyNameRoundTrip(k: ConfigItem)
    requires !IsFieldKey(k)
    ensures KeyOfName(KeyName(k)) == Some(k)
  {
  }

  /** Reading a key's name back gives the key. */
  lemma KeyNameRoundTrip(k: ConfigItem)
    ensures KeyOfName(KeyName(k)) == Some(k)
  {
    if IsFieldKey(k) {
      FieldKeyNameRoundTrip(k);
    } else {
      OtherKeyNameRoundTrip(k);
    }
  }

  /** The string form of a key determines the key, so a lookup by name is a
      lookup by key. */
  lemma KeyNameInjective(a: ConfigItem, b: ConfigItem)
    ensures KeyName(a) == KeyName(b) <==> a == b
  {
    KeyNameRoundTrip(a);
    KeyNameRoundTrip(b);
  }

  /** The position of each key's row in the initial table. */
  function InitIndex(k: ConfigItem): (i: nat)
    ensures i < 19
  {
    match k
    case Auto_ResultDBId => 0
    case Auto_InformationSourceRecordDBId => 1
    case Auto_TranslationRecordDBId => 2
    case Auto_ProofeadRecordDBId => 3
    case Auto_BountyRecordDBId => 4
    case StatisticsSource_ContributionDBIdList => 5
    case StatisticsSource_BountyDBIdList => 6
    case PointRatio_InformationSource => 7
    case PointRatio_TranslationPointRatio => 8
    case PointRatio_ProofreadRatio => 9
    case Filed_TotalPointsFiledName => 10
    case Filed_InformationSourceFiledName => 11
    case Filed_TranslationFiledName => 12
    case Filed_ProofreadFiledName => 13
    case Filed_InformationSourceEndTimeFiledName => 14
    case Filed_TranslationStartTimeFiledName => 15
    case Filed_TranslationEndTimeFiledName => 16
    case Filed_ProofreadStartTimeFiledName => 17
    case Filed_ProofreadonEndTimeFiledName => 18
  }

  lemma InitIndexAt(i: nat)
    requires i < |ConfigurationInitData|
    ensures InitIndex(ConfigurationInitData[i].key) == i
  {
  }

  lemma InitRowOf(k: ConfigItem)
    ensures ConfigurationInitData[InitIndex(k)].key == k
  {
  }

  /** The initial table has exactly one row per configuration key: nineteen
      rows, no key twice, every key present. */
  lemma InitDataCoversEachKeyOnce()
    ensures |ConfigurationInitData| == 19
    ensures forall i, j :: 0 <= i < j < |ConfigurationInitData| ==>
              ConfigurationInitData[i].key != ConfigurationInitData[j].key
    ensures forall k: ConfigItem :: ConfigurationInitData[InitIndex(k)].key == k
  {
    forall i, j | 0 <= i < j < |ConfigurationInitData|
      ensures ConfigurationInitData[i].key != ConfigurationInitData[j].key
    {
      InitIndexAt(i);
      InitIndexAt(j);
    }
    forall k: ConfigItem ensures ConfigurationInitData[InitIndex(k)].key == k {
      InitRowOf(k);
    }
  }

  /** The value of a decimal digit string, None for anything else. */
  function DecimalValue(s: string): (r: Option<nat>)
    ensures s == [] ==> r == None
  {
    if s == [] || !(forall i :: 0 <= i < |s| ==> '0' <= s[i] <= '9') then None
    else Some(DigitsValue(s))
  }

  function DigitsValue(s: string): nat
    requires forall i :: 0 <= i < |s| ==> '0' <= s[i] <= '9'
  {
    if s == [] then 0
    else 10 * DigitsValue(s[..|s| - 1]) + (s[|s| - 1] as int - '0' as int)
  }

  lemma TwoDigitValue(s: string, tens: nat, ones: nat)
    requires |s| == 2 && '0' <= s[0] <= '9' && '0' <= s[1] <= '9'
    requires s[0] as int - '0' as int == tens && s[1] as int - '0' as int == ones
    ensures DecimalValue(s) == Some(10 * tens + ones)
  {
    assert s[..1] == [s[0]];
    assert s[..1][..0] == [];
    assert DigitsValue(s[..1]) == tens;
  }

  lemma InformationSourceRatio()
    ensures ConfigurationInitData[7].key == PointRatio_InformationSource
    ensures DecimalValue(ConfigurationInitData[7].value) == Some(20)
  {
    TwoDigitValue("20", 2, 0);
  }

  lemma TranslationRatio()
    ensures ConfigurationInitData[8].key == PointRatio_TranslationPointRatio
    ensures DecimalValue(ConfigurationInitData[8].value) == Some(50)
  {
    TwoDigitValue("50", 5, 0);
  }

  lemma ProofreadRatio()
    ensures ConfigurationInitData[9].key == PointRatio_ProofreadRatio
    ensures DecimalValue(ConfigurationInitData[9].value) == Some(30)
  {
    TwoDigitValue("30", 3, 0);
  }

  /** The three default point ratios are decimal numbers that add up to 100,
      as each of their descriptions demands. */
  lemma DefaultRatiosSumTo100()
    ensures ConfigurationInitData[7].key == PointRatio_InformationSource
    ensures ConfigurationInitData[8].key == PointRatio_TranslationPointRatio
    ensures ConfigurationInitData[9].key == PointRatio_ProofreadRatio
    ensures DecimalValue(ConfigurationInitData[7].value).Some?
    ensures DecimalValue(ConfigurationInitData[8].value).Some?
    ensures DecimalValue(ConfigurationInitData[9].value).Some?
    ensures DecimalValue(ConfigurationInitData[7].value).value
          + DecimalValue(ConfigurationInitData[8].value).value
          + DecimalValue(ConfigurationInitData[9].value).value == 100
  {
    InformationSourceRatio();
    TranslationRatio();
    ProofreadRatio();
  }

  /** The five automatically filled rows come first and start out empty. */
  lemma AutoRowsStartEmpty()
    ensures forall i :: 0 <= i < 5 ==> ConfigurationInitData[i].value == ""
    ensures forall i :: 0 <= i < |ConfigurationInitData| ==>
              (IsAutoKey(ConfigurationInitData[i].key) <==> i < 5)
  {
  }

  /** The field names of each model are pairwise distinct, and the record
      model keeps its date under the name 'LastStatisticsDate'. */
  lemma ModelFieldNamesDistinct()
    ensures Distinct(ResultDatabaseModelData.Names())
    ensures Distinct(RecordDatabaseModelData.Names())
    ensures RecordDatabaseModelData.LastRecordDate.name == "LastStatisticsDate"
  {
  }

  /** Two compact ids joined by a comma come back out of the sanitise-and-split
      unchanged. */
  lemma CompactIdPair(a: string, b: string)
    requires Text.IsCompactId(a) && Text.IsCompactId(b)
    ensures Text.SanitizedIdList(a + [','] + b) == [a, b]
  {
    var v := a + [','] + b;
    forall i | 0 <= i < |v| ensures Text.IsIdListChar(v[i]) {
      if i < |a| { assert v[i] == a[i]; } else if i > |a| { assert v[i] == b[i - |a| - 1]; }
    }
    Text.KeepAllPass(v, Text.IsIdListChar);
    Text.SplitFree(b, ',');
    Text.SplitPrefix(a, b, ',');
  }

  lemma DefaultIdAIsCompact()
    ensures Text.IsCompactId(DefaultContributionIdA)
  {
  }

  lemma DefaultIdBIsCompact()
    ensures Text.IsCompactId(DefaultContributionIdB)
  {
  }

  /** The default contribution source value sanitises and splits into
      exactly two ids of 32 hexadecimal digits. */
  lemma DefaultContributionSourcesAreTwoIds()
    ensures ConfigurationInitData[5].key == StatisticsSource_ContributionDBIdList
    ensures |Text.SanitizedIdList(ConfigurationInitData[5].value)| == 2
    ensures Text.IsCompactId(Text.SanitizedIdList(ConfigurationInitData[5].value)[0])
    ensures Text.IsCompactId(Text.SanitizedIdList(ConfigurationInitData[5].value)[1])
  {
    DefaultIdAIsCompact();
    DefaultIdBIsCompact();
    CompactIdPair(DefaultContributionIdA, DefaultContributionIdB);
  }
}
