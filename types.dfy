/** Shared vocabulary of the statistics bot: results and errors, property kinds,
    the configuration keys, database titles and the records the bot keeps. */
module Types {

  datatype Option<+T> = None | Some(value: T)

  datatype Result<+T> = Success(value: T) | Failure(error: Error)

  /** What a call can fail with: the bot's own `UserError`, or a rejected call
      to the store (network failure, unknown id, invalid cursor). */
  datatype Error = UserError(message: string) | ApiError

  /** An ISO-8601 time stamp as the bot writes it; the clock is an input. */
  type Timestamp = string

  /** The property kinds of the store's schemas. */
  datatype PropertyType =
    | Title | RichText | Number | Select | MultiSelect | Date | People | Files
    | Checkbox | Url | Email | PhoneNumber | Formula | Relation | Rollup
    | CreatedTime | CreatedBy | LastEditedTime | LastEditedBy | Status

  /** A schema property: its id, its display name and its kind. */
  datatype BaseType = BaseType(id: string, name: string, kind: PropertyType)

  /** A field of one of the bot's own database models. */
  datatype DatabaseItem = DatabaseItem(name: string, kind: PropertyType)

  /** The titles of the databases the bot searches for or creates. */
  datatype DatabaseName =
    | ResultDBName | ConfigDBName | SourceRecordDBName
    | TranslationRecordDBName | ProofeadRecordDBName | BountyRecordDBName

  function DatabaseTitle(n: DatabaseName): string
  {
    match n
    case ResultDBName => "StatisticsResultDB"
    case ConfigDBName => "ConfigurationDB"
    case SourceRecordDBName => "InformationSourceRecordDB"
    case TranslationRecordDBName => "TranslationRecordDB"
    case ProofeadRecordDBName => "ProofeadRecordDB"
    case BountyRecordDBName => "BountyRecordDB"
  }

  /** The keys of the configuration table. */
  datatype ConfigItem =
    | Auto_ResultDBId
    | Auto_InformationSourceRecordDBId
    | Auto_TranslationRecordDBId
    | Auto_ProofeadRecordDBId
    | Auto_BountyRecordDBId
    | StatisticsSource_ContributionDBIdList
    | StatisticsSource_BountyDBIdList
    | PointRatio_InformationSource
    | PointRatio_TranslationPointRatio
    | PointRatio_ProofreadRatio
    | Filed_InformationSourceFiledName
    | Filed_TranslationFiledName
    | Filed_ProofreadFiledName
    | Filed_TotalPointsFiledName
    | Filed_InformationSourceEndTimeFiledName
    | Filed_TranslationStartTimeFiledName
    | Filed_TranslationEndTimeFiledName
    | Filed_ProofreadStartTimeFiledName
    | Filed_ProofreadonEndTimeFiledName

  /** The string a key is stored under in the Key column. */
  function KeyName(k: ConfigItem): string
  {
    match k
    case Auto_ResultDBId => "Auto_ResultDBId"
    case Auto_InformationSourceRecordDBId => "Auto_InformationSourceRecordDBId"
    case Auto_TranslationRecordDBId => "Auto_TranslationRecordDBId"
    case Auto_ProofeadRecordDBId => "Auto_ProofeadRecordDBId"
    case Auto_BountyRecordDBId => "Auto_BountyRecordDBId"
    case StatisticsSource_ContributionDBIdList => "StatisticsSource_ContributionDBIdList"
    case StatisticsSource_BountyDBIdList => "StatisticsSource_BountyDBIdList"
    case PointRatio_InformationSource => "PointRatio_InformationSource"
    case PointRatio_TranslationPointRatio => "PointRatio_TranslationPointRatio"
    case PointRatio_ProofreadRatio => "PointRatio_ProofreadRatio"
    case Filed_InformationSourceFiledName => "Filed_InformationSourceFiledName"
    case Filed_TranslationFiledName => "Filed_TranslationFiledName"
    case Filed_ProofreadFiledName => "Filed_ProofreadFiledName"
    case Filed_TotalPointsFiledName => "Filed_TotalPointsFiledName"
    case Filed_InformationSourceEndTimeFiledName => "Filed_InformationSourceEndTimeFiledName"
    case Filed_TranslationStartTimeFiledName => "Filed_TranslationStartTimeFiledName"
    case Filed_TranslationEndTimeFiledName => "Filed_TranslationEndTimeFiledName"
    case Filed_ProofreadStartTimeFiledName => "Filed_ProofreadStartTimeFiledName"
    case Filed_ProofreadonEndTimeFiledName => "Filed_ProofreadonEndTimeFiledName"
  }

  /** One entry of the initial configuration table: Key, Value, Description. */
  datatype ConfigEntry = ConfigEntry(key: ConfigItem, value: string, description: string)

  /** A finished task credited to a member. */
  datatype Task = Task(id: string, date: Timestamp, points: int)

  /** A contributor with optional per-stage task lists. */
  datatype Member = Member(
    id: string,
    name: string,
    kind: PropertyType,
    informationSourceList: Option<seq<Task>>,
    translationList: Option<seq<Task>>,
    proofeadList: Option<seq<Task>>,
    bountyList: Option<seq<Task>>,
    totalPoints: int)

  /** A workspace user as listed by the store. */
  datatype UserKind = Person | Bot
  datatype User = User(id: string, kind: UserKind, name: Option<string>, avatarUrl: Option<string>)

  /** A workspace member as the bot reports it. */
  datatype Contributor = Contributor(id: string, name: string, avatarUrl: string)

  /** The resolved database ids of one project. */
  datatype ProjectConfiguration = ProjectConfiguration(
    ConfigurationDatabaseId: string,
    StatisticsResultDBId: string,
    InformationSourceRecordDBId: string,
    TranslationRecordDBId: string,
    ProofeadRecordDBId: string,
    BountyRecordDBId: string,
    StatisticsContributionDBIdList: seq<string>,
    StatisticsBountyDBIdList: seq<string>)

  /** The value the configuration holds before start-up fills it in. */
  const EmptyProjectConfiguration := ProjectConfiguration("", "", "", "", "", "", [], [])
}
