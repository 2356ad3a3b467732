/** statistics.ts: the per-contributor totals kept in the result database, and
    the in-memory registry of members. */
module Statistics {
  import opened Types

  /** The five totals of a contributor, in the order of the result schema. */
  datatype Tally = Tally(informationSource: int, translation: int, proofead: int, bounty: int, points: int)

  const ZeroTally := Tally(0, 0, 0, 0, 0)

  function Add(a: Tally, b: Tally): (r: Tally)
  {
    Tally(a.informationSource + b.informationSource, a.translation + b.translation,
          a.proofead + b.proofead, a.bounty + b.bounty, a.points + b.points)
  }

  /** One row of the result database. A number property of the store may be
      empty, so each stored counter is optional. */
  datatype ResultRow = ResultRow(
    contributorId: string,
    contributor: seq<User>,
    informationSource: Option<int>,
    translation: Option<int>,
    proofead: Option<int>,
    bounty: Option<int>,
    points: Option<int>,
    lastUpdateDate: Option<Timestamp>)

  /** What a page retrieval yields: a full page with its properties, or a
      partial object without them. */
  datatype ResultPage = PartialPage | FullPage(row: ResultRow)

  /** The five stored counters, when none of them is empty. */
  function StoredTally(row: ResultRow): (t: Option<Tally>)
    ensures t.Some? <==> row.informationSource.Some? && row.translation.Some?
                         && row.proofead.Some? && row.bounty.Some? && row.points.Some?
  {
    if row.informationSource.Some? && row.translation.Some? && row.proofead.Some?
       && row.bounty.Some? && row.points.Some?
    then Some(Tally(row.informationSource.value, row.translation.value, row.proofead.value,
                    row.bounty.value, row.points.value))
    else None
  }

  /** The row `insertResultDatabaseItem` creates. */
  function NewResultRow(contributor: User, t: Tally, now: Timestamp): (r: ResultRow)
    ensures StoredTally(r) == Some(t)
    ensures r.contributorId == contributor.id && r.contributor == [contributor]
  {
    ResultRow(contributor.id, [contributor], Some(t.informationSource), Some(t.translation),
              Some(t.proofead), Some(t.bounty), Some(t.points), Some(now))
  }

  /** The row after the read-modify-write of `increaseResultDatabaseItem`. */
  function IncreaseRow(row: ResultRow, t: Tally, delta: Tally, now: Timestamp): ResultRow
  {
    row.(informationSource := Some(delta.informationSource + t.informationSource),
         translation := Some(delta.translation + t.translation),
         proofead := Some(delta.proofead + t.proofead),
         bounty := Some(delta.bounty + t.bounty),
         points := Some(delta.points + t.points),
         lastUpdateDate := Some(now))
  }

  const UnreadableCounters := "increaseResultDatabaseItem数据读取错误"

  function PageNotFound(pageId: string): string
  {
    "没有找到当前页" + pageId
  }

  /** Which call to the store, if any, is rejected during an increase. */
  datatype Fault = NoFault | RetrieveRejected | ReadRejected | UpdateRejected

  /** The outcome of an increase of the page `pageId` of `pages`: the new row,
      or the error the call fails with. */
  function IncreaseOutcome(pages: map<string, ResultPage>, pageId: string, delta: Tally,
                           now: Timestamp, fault: Fault): (r: Result<ResultRow>)
    ensures r.Success? ==> fault.NoFault? && pageId in pages && pages[pageId].FullPage?
  {
    if pageId !in pages || fault == RetrieveRejected then Failure(ApiError)
    else match pages[pageId]
      case PartialPage => Failure(UserError(PageNotFound(pageId)))
      case FullPage(row) =>
        if fault == ReadRejected then Failure(ApiError)
        else match StoredTally(row)
          case None => Failure(UserError(UnreadableCounters))
          case Some(t) =>
            if fault == UpdateRejected then Failure(ApiError)
            else Success(IncreaseRow(row, t, delta, now))
  }

  class ResultDatabase {
    /** The pages of the database, by page id. */
    var pages: map<string, ResultPage>

    constructor ()
      ensures pages == map[]
    {
      pages := map[];
    }

    /** `insertResultDatabaseItem`: create a page for the contributor with
        the given totals. The store assigns the id `newPageId`, or rejects
        the call (`rejected`) and nothing is created. */
    method InsertResultDatabaseItem(newPageId: string, contributor: User, t: Tally, now: Timestamp,
                                    rejected: bool) returns (r: Result<string>)
      requires newPageId !in pages
      modifies this
      ensures r == if rejected then Failure(ApiError) else Success("resultPage")
      ensures pages == if rejected then old(pages)
                       else old(pages)[newPageId := FullPage(NewResultRow(contributor, t, now))]
    {
      if rejected {
        return Failure(ApiError);
      }
      pages := pages[newPageId := FullPage(NewResultRow(contributor, t, now))];
      return Success("resultPage");
    }

    /** `increaseResultDatabaseItem`: read the five counters of the page and
        write back each plus its delta, with the time of the update. The
        contributor id is accepted and not used, as in the source. */
    method IncreaseResultDatabaseItem(itemPageId: string, contributorId: string, delta: Tally,
                                      now: Timestamp, fault: Fault) returns (r: Result<string>)
      modifies this
      ensures r.Success? <==> IncreaseOutcome(old(pages), itemPageId, delta, now, fault).Success?
      ensures r.Success? ==> r.value == "resultPage"
      ensures r.Failure? ==> r.error == IncreaseOutcome(old(pages), itemPageId, delta, now, fault).error
      ensures pages == if r.Success?
                       then old(pages)[itemPageId := FullPage(IncreaseOutcome(old(pages), itemPageId, delta, now, fault).value)]
                       else old(pages)
    {
      if itemPageId !in pages || fault == RetrieveRejected {
        return Failure(ApiError);
      }
      var current := pages[itemPageId];
      if current.FullPage? {
        if fault == ReadRejected {
          return Failure(ApiError);
        }
        var currentSource := current.row.informationSource;
        var currentTranslation := current.row.translation;
        var currentProofead := current.row.proofead;
        var currentBounty := current.row.bounty;
        var currentPoints := current.row.points;
        if currentSource.None? || currentTranslation.None? || currentProofead.None?
           || currentBounty.None? || currentPoints.None? {
          return Failure(UserError(UnreadableCounters));
        }
        if fault == UpdateRejected {
          return Failure(ApiError);
        }
        var updated := current.row.(
          informationSource := Some(delta.informationSource + currentSource.value),
          translation := Some(delta.translation + currentTranslation.value),
          proofead := Some(delta.proofead + currentProofead.value),
          bounty := Some(delta.bounty + currentBounty.value),
          points := Some(delta.points + currentPoints.value),
          lastUpdateDate := Some(now));
        pages := pages[itemPageId := FullPage(updated)];
      } else {
        return Failure(UserError(PageNotFound(itemPageId)));
      }
      return Success("resultPage");
    }
  }

  /** A successful increase adds each delta to its stored counter, stamps the
      row with the time of the update and keeps the contributor. */
  lemma IncreaseAddsDeltas(pages: map<string, ResultPage>, pageId: string, delta: Tally, now: Timestamp, fault: Fault)
    requires IncreaseOutcome(pages, pageId, delta, now, fault).Success?
    ensures pageId in pages && pages[pageId].FullPage? && StoredTally(pages[pageId].row).Some?
    ensures StoredTally(IncreaseOutcome(pages, pageId, delta, now, fault).value)
            == Some(Add(StoredTally(pages[pageId].row).value, delta))
    ensures IncreaseOutcome(pages, pageId, delta, now, fault).value.contributorId == pages[pageId].row.contributorId
    ensures IncreaseOutcome(pages, pageId, delta, now, fault).value.contributor == pages[pageId].row.contributor
    ensures IncreaseOutcome(pages, pageId, delta, now, fault).value.lastUpdateDate == Some(now)
  {
  }

  /** The increase succeeds exactly when the page exists, is a full page,
      has no empty counter and no call is rejected; an empty counter or a
      partial page is reported as a `UserError`. */
  lemma IncreaseFailures(pages: map<string, ResultPage>, pageId: string, delta: Tally, now: Timestamp, fault: Fault)
    ensures IncreaseOutcome(pages, pageId, delta, now, fault).Success? <==>
      pageId in pages && pages[pageId].FullPage? && StoredTally(pages[pageId].row).Some? && fault == NoFault
    ensures pageId in pages && fault != RetrieveRejected && pages[pageId].PartialPage? ==>
      IncreaseOutcome(pages, pageId, delta, now, fault) == Failure(UserError(PageNotFound(pageId)))
    ensures pageId in pages && pages[pageId].FullPage? && StoredTally(pages[pageId].row).None?
            && (fault == NoFault || fault == UpdateRejected) ==>
      IncreaseOutcome(pages, pageId, delta, now, fault) == Failure(UserError(UnreadableCounters))
  {
  }

  /** "Unchanged fields write 0": a zero delta leaves every counter as it was. */
  lemma ZeroDeltaKeepsCounters(row: ResultRow, now: Timestamp)
    requires StoredTally(row).Some?
    ensures StoredTally(IncreaseRow(row, StoredTally(row).value, ZeroTally, now)) == StoredTally(row)
  {
  }

  /** Two increases add up to one increase by the summed deltas. */
  lemma IncreaseTwice(row: ResultRow, d1: Tally, d2: Tally, now1: Timestamp, now2: Timestamp)
    requires StoredTally(row).Some?
    ensures var once := IncreaseRow(row, StoredTally(row).value, d1, now1);
            StoredTally(once).Some?
            && IncreaseRow(once, StoredTally(once).value, d2, now2)
               == IncreaseRow(row, StoredTally(row).value, Add(d1, d2), now2)
  {
  }

  /** An inserted row is titled with the contributor's id, lists the
      contributor, holds the given totals and can always be increased. */
  lemma NewRowReadsBack(contributor: User, t: Tally, now: Timestamp, delta: Tally, later: Timestamp)
    ensures NewResultRow(contributor, t, now).contributorId == contributor.id
    ensures NewResultRow(contributor, t, now).contributor == [contributor]
    ensures StoredTally(NewResultRow(contributor, t, now)) == Some(t)
    ensures StoredTally(IncreaseRow(NewResultRow(contributor, t, now), t, delta, later)) == Some(Add(t, delta))
  {
  }

  /** Appending the items of `incoming` to the stored list, which happens
      only when the stored list exists (`?.push`). */
  function AppendTasks(stored: Option<seq<Task>>, incoming: Option<seq<Task>>): Option<seq<Task>>
  {
    if stored.Some? && incoming.Some? then Some(stored.value + incoming.value) else stored
  }

  /** The stored member after `updateMemberRecord` has merged `info` into it. */
  function Merge(stored: Member, info: Member): Member
  {
    stored.(informationSourceList := AppendTasks(stored.informationSourceList, info.informationSourceList),
            translationList := AppendTasks(stored.translationList, info.translationList),
            proofeadList := AppendTasks(stored.proofeadList, info.proofeadList),
            bountyList := AppendTasks(stored.bountyList, info.bountyList))
  }

  /** The registry after `updateMemberRecord(info)`. */
  function Registered(members: map<string, Member>, info: Member): (r: map<string, Member>)
    ensures info.id in r && members.Keys <= r.Keys
  {
    if info.id in members then members[info.id := Merge(members[info.id], info)]
    else members[info.id := info]
  }

  class MemberRegistry {
    /** The module-level `members` map, keyed by member id. */
    var members: map<string, Member>

    /** The registry starts empty: the loader that would fill it is never run. */
    constructor ()
      ensures members == map[]
    {
      members := map[];
    }

    /** `updateMemberRecord`: append the incoming task lists to a known member, or
        register an unknown one. */
    method UpdateMemberRecord(info: Member)
      modifies this
      ensures members == Registered(old(members), info)
    {
      if info.id in members {
        var member := members[info.id];
        if info.informationSourceList.Some? && member.informationSourceList.Some? {
          member := member.(informationSourceList := Some(member.informationSourceList.value + info.informationSourceList.value));
        }
        if info.translationList.Some? && member.translationList.Some? {
          member := member.(translationList := Some(member.translationList.value + info.translationList.value));
        }
        if info.proofeadList.Some? && member.proofeadList.Some? {
          member := member.(proofeadList := Some(member.proofeadList.value + info.proofeadList.value));
        }
        if info.bountyList.Some? && member.bountyList.Some? {
          member := member.(bountyList := Some(member.bountyList.value + info.bountyList.value));
        }
        members := members[info.id := member];
      } else {
        members := members[info.id := info];
      }
    }
  }

  /** An append keeps the stored items as a prefix and puts the incoming ones
      after them in order; without a stored list the items are dropped. */
  lemma AppendTasksSpec(stored: Option<seq<Task>>, incoming: Option<seq<Task>>)
    ensures AppendTasks(stored, incoming).Some? == stored.Some?
    ensures stored.Some? && incoming.Some? ==>
      |AppendTasks(stored, incoming).value| == |stored.value| + |incoming.value|
      && AppendTasks(stored, incoming).value[..|stored.value|] == stored.value
      && AppendTasks(stored, incoming).value[|stored.value|..] == incoming.value
    ensures stored.None? || incoming.None? ==> AppendTasks(stored, incoming) == stored
  {
  }

  /** Registering an unknown id adds exactly that entry; a known id keeps the
      key set, and every other entry is unchanged in both cases. */
  lemma RegisteredKeys(members: map<string, Member>, info: Member)
    ensures info.id !in members ==>
      Registered(members, info).Keys == members.Keys + {info.id} && Registered(members, info)[info.id] == info
    ensures info.id in members ==> Registered(members, info).Keys == members.Keys
    ensures forall id :: id in members && id != info.id ==> Registered(members, info)[id] == members[id]
  {
  }

  /** Merging never changes a known member's id, name, kind or total points. */
  lemma RegisteredKeepsIdentity(members: map<string, Member>, info: Member)
    requires info.id in members
    ensures var m := Registered(members, info)[info.id];
            m.id == members[info.id].id && m.name == members[info.id].name
            && m.kind == members[info.id].kind && m.totalPoints == members[info.id].totalPoints
  {
  }
}
