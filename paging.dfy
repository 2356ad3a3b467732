/** The cursor loops and property readers of utils.ts. A paginated endpoint
    of the store is abstracted as the sequence of responses it hands out, in
    the order a client following `next_cursor` receives them. */
module Paging {
  import opened Types

  /** One response of a paginated endpoint: a batch of results with the
      cursor of the next batch (None for `next_cursor: null`), or a call
      that was rejected. */
  datatype Response<T> = Batch(results: seq<T>, nextCursor: Option<string>) | CallFailed

  type Listing<T> = seq<Response<T>>

  /** What the store promises of a listing: every batch but the last names a
      non-empty cursor for the next one, the last names none (or the call for
      it fails), and no cursor is handed out twice. */
  predicate WellFormed<T>(l: Listing<T>)
  {
    && |l| > 0
    && (forall i :: 0 <= i < |l| - 1 ==> l[i].Batch? && l[i].nextCursor.Some? && l[i].nextCursor.value != "")
    && (l[|l| - 1].Batch? ==> l[|l| - 1].nextCursor.None?)
    && (forall i, j :: 0 <= i < j < |l| - 1 ==> l[i].nextCursor != l[j].nextCursor)
  }

  /** The store answering a query: without a start cursor, the first
      response; with one, the response that follows the batch which handed
      the cursor out; an unknown cursor is rejected. */
  function Fetch<T>(l: Listing<T>, start: Option<string>): Response<T>
  {
    match start
    case None => if |l| > 0 then l[0] else CallFailed
    case Some(c) => Following(l, c, 0)
  }

  function Following<T>(l: Listing<T>, c: string, from: nat): Response<T>
    decreases |l| - from
  {
    if from + 1 >= |l| then CallFailed
    else if l[from].Batch? && l[from].nextCursor == Some(c) then l[from + 1]
    else Following(l, c, from + 1)
  }

  lemma {:induction false} FollowingFinds<T>(l: Listing<T>, i: nat, from: nat)
    requires WellFormed(l) && from <= i < |l| - 1
    ensures Following(l, l[i].nextCursor.value, from) == l[i + 1]
    decreases i - from
  {
    if from < i {
      assert l[from].nextCursor != l[i].nextCursor;
      FollowingFinds(l, i, from + 1);
    }
  }

  /** Following a handed-out cursor yields the next response. */
  lemma FetchFollows<T>(l: Listing<T>, i: nat)
    requires WellFormed(l) && i < |l| - 1
    ensures Fetch(l, l[i].nextCursor) == l[i + 1]
  {
    FollowingFinds(l, i, 0);
  }

  function NextOf<T>(r: Response<T>): Option<string>
  {
    if r.Batch? then r.nextCursor else None
  }

  function Results<T>(r: Response<T>): seq<T>
  {
    if r.Batch? then r.results else []
  }

  /** The results of the responses, concatenated in fetch order. */
  function Flat<T>(l: Listing<T>): seq<T>
  {
    if l == [] then [] else Flat(l[..|l| - 1]) + Results(l[|l| - 1])
  }

  /** What a loop that follows every cursor ends with: every result in fetch
      order, or the failure of the call that was rejected. */
  function Collect<T>(l: Listing<T>): Result<seq<T>>
  {
    if |l| > 0 && l[|l| - 1].CallFailed? then Failure(ApiError) else Success(Flat(l))
  }

  /** The start cursor of each query a cursor loop issues: none for the
      first, then the `next_cursor` of the batch before. */
  function StartCursors<T>(l: Listing<T>): seq<Option<string>>
  {
    seq(|l|, k requires 0 <= k < |l| => if k == 0 then None else NextOf(l[k - 1]))
  }

  /** An element is collected exactly when some batch holds it. */
  lemma {:induction false} FlatMembership<T>(l: Listing<T>, x: T)
    ensures x in Flat(l) <==> exists i :: 0 <= i < |l| && x in Results(l[i])
  {
    if l != [] {
      var init := l[..|l| - 1];
      FlatMembership(init, x);
      if x in Flat(l) && x !in Results(l[|l| - 1]) {
        var i :| 0 <= i < |init| && x in Results(init[i]);
        assert l[i] == init[i];
      }
      if x !in Flat(l) {
        forall i | 0 <= i < |l| ensures x !in Results(l[i]) {
          if i < |init| { assert l[i] == init[i]; }
        }
      }
    }
  }

  lemma FlatStep<T>(l: Listing<T>, i: nat)
    requires i < |l|
    ensures Flat(l[..i + 1]) == Flat(l[..i]) + Results(l[i])
  {
    assert l[..i + 1][..i] == l[..i];
  }

  /** The query issued for batch `i` of a well-formed listing starts at
      the cursor that `StartCursors` names for it. */
  lemma StartCursorsStep<T>(l: Listing<T>, i: nat, start: Option<string>)
    requires WellFormed(l) && i < |l|
    requires start == if i == 0 then None else l[i - 1].nextCursor
    ensures StartCursors(l)[..i + 1] == StartCursors(l)[..i] + [start]
  {
    assert StartCursors(l)[..i + 1][..i] == StartCursors(l)[..i];
  }

  /** `getDatabaseAllPages`: query without a cursor, then with each returned
      `next_cursor`, concatenating the results, until `next_cursor` is null. */
  method GetDatabaseAllPages<T>(l: Listing<T>) returns (r: Result<seq<T>>, ghost starts: seq<Option<string>>)
    requires WellFormed(l)
    ensures r == Collect(l)
    ensures starts == StartCursors(l)
  {
    var pages: seq<T> := [];
    var cursor: Option<string> := None;
    ghost var i := 0;
    starts := [];
    while true
      invariant 0 <= i < |l|
      invariant cursor == if i == 0 then None else l[i - 1].nextCursor
      invariant pages == Flat(l[..i])
      invariant starts == StartCursors(l)[..i]
      decreases |l| - i
    {
      var start := if cursor.Some? && cursor.value != "" then cursor else None;
      if i > 0 { FetchFollows(l, i - 1); }
      var ret := Fetch(l, start);
      StartCursorsStep(l, i, start);
      starts := starts + [start];
      if ret.CallFailed? {
        assert i == |l| - 1;
        assert StartCursors(l)[..|l|] == StartCursors(l);
        return Failure(ApiError), starts;
      }
      FlatStep(l, i);
      pages := pages + ret.results;
      cursor := ret.nextCursor;
      if cursor.None? {
        break;
      }
      i := i + 1;
    }
    assert i == |l| - 1;
    assert l[..|l|] == l;
    assert StartCursors(l)[..|l|] == StartCursors(l);
    r := Success(pages);
  }

  /** A workspace user as `getAllAdmins` reports it: a missing name becomes
      'unname' and a missing avatar ''. */
  function AsContributor(u: User): Contributor
  {
    Contributor(u.id, match u.name case Some(n) => n case None => "unname",
                match u.avatarUrl case Some(a) => a case None => "")
  }

  /** What one user contributes to the admin list: nothing for a bot. */
  function AdminOf(u: User): seq<Contributor>
  {
    if u.kind == Bot then [] else [AsContributor(u)]
  }

  /** The non-bot users of a list, as contributors, in list order. */
  function AdminsOf(users: seq<User>): seq<Contributor>
  {
    if users == [] then [] else AdminOf(users[0]) + AdminsOf(users[1..])
  }

  lemma {:induction false} AdminsOfAppend(a: seq<User>, b: seq<User>)
    ensures AdminsOf(a + b) == AdminsOf(a) + AdminsOf(b)
  {
    if a == [] {
      assert a + b == b;
    } else {
      var ab := a + b;
      assert ab[0] == a[0] && ab[1..] == a[1..] + b;
      AdminsOfAppend(a[1..], b);
      assert AdminsOf(ab) == AdminOf(a[0]) + (AdminsOf(a[1..]) + AdminsOf(b));
    }
  }

  /** Every reported admin is a non-bot user of the list, and every non-bot
      user of the list is reported, with the defaults filled in. */
  lemma {:induction false} AdminsOfSpec(users: seq<User>)
    ensures forall c :: c in AdminsOf(users) ==> exists u :: u in users && u.kind != Bot && c == AsContributor(u)
    ensures forall u :: u in users && u.kind != Bot ==> AsContributor(u) in AdminsOf(users)
    ensures |AdminsOf(users)| <= |users|
  {
    if users != [] {
      AdminsOfSpec(users[1..]);
      assert users == [users[0]] + users[1..];
    }
  }

  /** The non-bot users of a list, in list order: the filter of
      `getAllAdmins`, defined from the end of the list. */
  function NonBots(users: seq<User>): (r: seq<User>)
    ensures |r| <= |users|
    ensures forall i :: 0 <= i < |r| ==> r[i].kind != Bot && r[i] in users
  {
    if users == [] then []
    else
      var last := users[|users| - 1];
      NonBots(users[..|users| - 1]) + (if last.kind == Bot then [] else [last])
  }

  /** The admin list is the non-bot users, in order and with their
      multiplicity, each turned into a contributor. */
  lemma {:induction false} AdminsOfNonBots(users: seq<User>)
    ensures |AdminsOf(users)| == |NonBots(users)|
    ensures forall i :: 0 <= i < |AdminsOf(users)| ==> AdminsOf(users)[i] == AsContributor(NonBots(users)[i])
  {
    if users != [] {
      var init := users[..|users| - 1];
      var last := users[|users| - 1];
      assert users == init + [last];
      AdminsOfNonBots(init);
      AdminsOfAppend(init, [last]);
      assert AdminsOf([last]) == AdminOf(last) + AdminsOf([]);
    }
  }

  /** The callback of `getAllAdmins` over one batch: push every non-bot
      user, with defaults filled in. */
  method PushAdmins(userList: seq<Contributor>, results: seq<User>) returns (r: seq<Contributor>)
    ensures r == userList + AdminsOf(results)
  {
    r := userList;
    for k := 0 to |results|
      invariant r == userList + AdminsOf(results[..k])
    {
      var user := results[k];
      AdminsOfAppend(results[..k], [user]);
      assert results[..k + 1] == results[..k] + [user];
      if user.kind != Bot {
        r := r + [AsContributor(user)];
      }
    }
    assert results[..|results|] == results;
  }

  /** `getAllAdmins`: list users page by page while the cursor is truthy,
      keeping the non-bot users. */
  method GetAllAdmins(l: Listing<User>) returns (r: Result<seq<Contributor>>)
    requires WellFormed(l)
    ensures r == match Collect(l) case Success(users) => Success(AdminsOf(users)) case Failure(e) => Failure(e)
  {
    var nextCursor: Option<string> := None;
    var userList: seq<Contributor> := [];
    ghost var i := 0;
    while true
      invariant 0 <= i < |l|
      invariant nextCursor == if i == 0 then None else l[i - 1].nextCursor
      invariant userList == AdminsOf(Flat(l[..i]))
      decreases |l| - i
    {
      if i > 0 { FetchFollows(l, i - 1); }
      var users := Fetch(l, nextCursor);
      if users.CallFailed? {
        assert i == |l| - 1;
        return Failure(ApiError);
      }
      nextCursor := users.nextCursor;
      userList := PushAdmins(userList, users.results);
      FlatStep(l, i);
      AdminsOfAppend(Flat(l[..i]), users.results);
      if !(nextCursor.Some? && nextCursor.value != "") {
        break;
      }
      i := i + 1;
    }
    assert i == |l| - 1;
    assert l[..|l|] == l;
    r := Success(userList);
  }

  /** The value of one property item, by kind. */
  datatype PropertyItem =
    | NumberItem(number: Option<int>)
    | RichTextItem(plainText: string)
    | OtherItem(kind: PropertyType)

  /** What `pages.properties.retrieve` answers first: a single
      `property_item`, or the first batch of a paginated list. */
  datatype PropertyEndpoint =
    | PropertyItemObject(item: PropertyItem)
    | PropertyItemList(pages: Listing<PropertyItem>)

  datatype PropertyResponse = Item(item: PropertyItem) | ItemList(items: seq<PropertyItem>)

  predicate EndpointWellFormed(ep: PropertyEndpoint)
  {
    ep.PropertyItemList? ==> WellFormed(ep.pages)
  }

  /** What `getPagePropertyValue` yields for an endpoint. */
  function PropertyValue(ep: PropertyEndpoint): Result<PropertyResponse>
  {
    match ep
    case PropertyItemObject(item) => Success(Item(item))
    case PropertyItemList(l) =>
      match Collect(l)
      case Success(items) => Success(ItemList(items))
      case Failure(e) => Failure(e)
  }

  /** `getPagePropertyValue`: a single item is returned as it is; a list is
      followed cursor by cursor while `next_cursor` is not null. */
  method GetPagePropertyValue(ep: PropertyEndpoint) returns (r: Result<PropertyResponse>)
    requires EndpointWellFormed(ep)
    ensures r == PropertyValue(ep)
  {
    if ep.PropertyItemObject? {
      return Success(Item(ep.item));
    }
    var l := ep.pages;
    var first := Fetch(l, None);
    if first.CallFailed? {
      return Failure(ApiError);
    }
    var nextCursor := first.nextCursor;
    var results := first.results;
    FlatStep(l, 0);
    ghost var i := 1;
    while nextCursor.Some?
      invariant 1 <= i <= |l|
      invariant l[i - 1].Batch?
      invariant nextCursor == l[i - 1].nextCursor
      invariant results == Flat(l[..i])
      decreases |l| - i
    {
      FetchFollows(l, i - 1);
      var propertyItem := Fetch(l, nextCursor);
      if propertyItem.CallFailed? {
        assert i == |l| - 1;
        return Failure(ApiError);
      }
      nextCursor := propertyItem.nextCursor;
      FlatStep(l, i);
      results := results + propertyItem.results;
      i := i + 1;
    }
    assert i == |l|;
    assert l[..|l|] == l;
    r := Success(ItemList(results));
  }

  /** `isPropertyList`: the answer is a non-empty array. */
  predicate IsPropertyList(resp: PropertyResponse)
  {
    resp.ItemList? && |resp.items| > 0
  }

  /** The number (possibly null) of the single item or of the first listed
      item; anything that is not a number item, including an empty list, is
      a `UserError`. */
  function NumberValue(resp: PropertyResponse): Result<Option<int>>
  {
    if IsPropertyList(resp) then
      if resp.items[0].NumberItem? then Success(resp.items[0].number)
      else Failure(UserError("getNumberPropertyValue: 返回值类型错误,不是number"))
    else if resp.Item? && resp.item.NumberItem? then Success(resp.item.number)
    else Failure(UserError("getNumberPropertyValue: 返回值类型错误,不是number"))
  }

  /** The plain text of the first listed item when it is rich text; anything
      else, a single item included, is a `UserError`. */
  function RichTextValue(resp: PropertyResponse): Result<string>
  {
    if IsPropertyList(resp) && resp.items[0].RichTextItem? then Success(resp.items[0].plainText)
    else Failure(UserError("返回值类型错误,不是rich_text"))
  }

  function NumberPropertyValue(ep: PropertyEndpoint): Result<Option<int>>
  {
    match PropertyValue(ep)
    case Success(resp) => NumberValue(resp)
    case Failure(e) => Failure(e)
  }

  function RichTextPropertyValue(ep: PropertyEndpoint): Result<string>
  {
    match PropertyValue(ep)
    case Success(resp) => RichTextValue(resp)
    case Failure(e) => Failure(e)
  }

  /** `getNumberPropertyValue`. */
  method GetNumberPropertyValue(ep: PropertyEndpoint) returns (r: Result<Option<int>>)
    requires EndpointWellFormed(ep)
    ensures r == NumberPropertyValue(ep)
  {
    var result := GetPagePropertyValue(ep);
    if result.Failure? {
      return Failure(result.error);
    }
    r := NumberValue(result.value);
  }

  /** `getRichTextPropertyValue`. */
  method GetRichTextPropertyValue(ep: PropertyEndpoint) returns (r: Result<string>)
    requires EndpointWellFormed(ep)
    ensures r == RichTextPropertyValue(ep)
  {
    var result := GetPagePropertyValue(ep);
    if result.Failure? {
      return Failure(result.error);
    }
    r := RichTextValue(result.value);
  }

  /** A number read succeeds exactly when the item consulted (the single
      item, or the first of a non-empty complete list) is a number item, and
      then yields its number, null included. */
  lemma NumberPropertyValueSpec(ep: PropertyEndpoint)
    ensures ep.PropertyItemObject? ==>
      (NumberPropertyValue(ep).Success? <==> ep.item.NumberItem?)
      && (ep.item.NumberItem? ==> NumberPropertyValue(ep) == Success(ep.item.number))
    ensures ep.PropertyItemList? && Collect(ep.pages).Success? ==>
      var items := Collect(ep.pages).value;
      (NumberPropertyValue(ep).Success? <==> |items| > 0 && items[0].NumberItem?)
      && (|items| > 0 && items[0].NumberItem? ==> NumberPropertyValue(ep) == Success(items[0].number))
    ensures ep.PropertyItemList? && Collect(ep.pages).Failure? ==> NumberPropertyValue(ep) == Failure(ApiError)
  {
  }

  /** A rich-text read succeeds exactly when the answer is a complete,
      non-empty list whose first item is rich text, and then yields that
      item's plain text; a single item, even a rich-text one, and an empty
      list are rejected. */
  lemma RichTextPropertyValueSpec(ep: PropertyEndpoint)
    ensures ep.PropertyItemObject? ==> RichTextPropertyValue(ep).Failure?
    ensures ep.PropertyItemList? && Collect(ep.pages).Success? ==>
      var items := Collect(ep.pages).value;
      (RichTextPropertyValue(ep).Success? <==> |items| > 0 && items[0].RichTextItem?)
      && (|items| > 0 && items[0].RichTextItem? ==> RichTextPropertyValue(ep) == Success(items[0].plainText))
    ensures ep.PropertyItemList? && Collect(ep.pages).Failure? ==>
      RichTextPropertyValue(ep) == Failure(Collect(ep.pages).error)
  {
  }
}
