/**
 * The circle API: the public listing (a filtered, paginated read) and the
 * create, update and delete handlers, over a table of circles keyed by id.
 */
module CirclesRoute {
  import opened Common
  import opened ApiResponse
  import opened Validations
  import opened ApiHandler

  /**
   * A stored circle: the validated fields, the id the store assigned, the
   * recruiting flag, the creation time and the two review aggregates.
   */
  datatype Circle = Circle(
    id: string,
    data: CircleInput,
    isRecruiting: bool,
    createdAt: int,
    averageRating: real,
    reviewCount: nat)

  // ---------------------------------------------------------------------
  // GET: the where clause
  // ---------------------------------------------------------------------

  /** One entry of the `AND` list; `Empty` is the `{}` an unused filter contributes. */
  datatype Cond =
    | Empty
    | NameOrDescription(term: string)
    | PrefectureIs(prefecture: string)
    | SkillLevelHas(level: string)
    | RecruitingOnly

  /** Whether a circle satisfies one condition; `{}` is satisfied by every row. */
  predicate Holds(c: Cond, circle: Circle) {
    match c
    case Empty => true
    case NameOrDescription(term) =>
      ContainsInsensitive(circle.data.name, term) || ContainsInsensitive(circle.data.description, term)
    case PrefectureIs(p) => circle.data.prefecture == p
    case SkillLevelHas(level) => level in circle.data.skillLevel
    case RecruitingOnly => circle.isRecruiting
  }

  /** `Object.keys(condition).length > 0`. */
  predicate NonEmpty(c: Cond) {
    !c.Empty?
  }

  predicate AllHold(conds: seq<Cond>, circle: Circle) {
    forall i :: 0 <= i < |conds| ==> Holds(conds[i], circle)
  }

  /** A query string that is present and not empty (the test `value ? … : {}`). */
  predicate Given(value: Option<string>) {
    value.Some? && value.value != []
  }

  /** The four entries of the `AND` list before the empty ones are dropped. */
  function Candidates(q: QueryParams): seq<Cond> {
    [ if q.search != [] then NameOrDescription(q.search) else Empty,
      if Given(q.prefecture) then PrefectureIs(q.prefecture.value) else Empty,
      if Given(q.skillLevel) then SkillLevelHas(q.skillLevel.value) else Empty,
      RecruitingOnly ]
  }

  /** `[…].filter(condition => Object.keys(condition).length > 0)`. */
  function Where(q: QueryParams): (w: seq<Cond>)
    ensures Empty !in w
    ensures RecruitingOnly in w
    ensures IsSubsequence(w, Candidates(q))
  {
    var all := Candidates(q);
    FilterKeeps(all, NonEmpty, RecruitingOnly);
    FilterIsSubsequence(all, NonEmpty);
    Filter(all, NonEmpty)
  }

  /** Dropping `{}` entries from an `AND` list does not change which rows it accepts. */
  lemma DropEmptyKeepsMeaning(conds: seq<Cond>, circle: Circle)
    ensures AllHold(Filter(conds, NonEmpty), circle) <==> AllHold(conds, circle)
  {
    var kept := Filter(conds, NonEmpty);
    if AllHold(kept, circle) {
      forall i | 0 <= i < |conds|
        ensures Holds(conds[i], circle)
      {
        if !conds[i].Empty? {
          FilterKeeps(conds, NonEmpty, conds[i]);
          var j :| 0 <= j < |kept| && kept[j] == conds[i];
        }
      }
    }
    if AllHold(conds, circle) {
      forall i | 0 <= i < |kept|
        ensures Holds(kept[i], circle)
      {
        assert kept[i] in conds;
      }
    }
  }

  /** A circle is listed when it satisfies every condition of the where clause. */
  predicate Listed(q: QueryParams, circle: Circle) {
    AllHold(Where(q), circle)
  }

  /**
   * The listing filter: a circle is listed exactly when it is recruiting,
   * its name or description contains the search term (ignoring case) when
   * one is given, its prefecture is the requested one when one is given, and
   * its levels include the requested level when one is given.
   */
  lemma {:induction false} ListedIff(q: QueryParams, circle: Circle)
    ensures Listed(q, circle) <==>
      && circle.isRecruiting
      && (q.search == [] || ContainsInsensitive(circle.data.name, q.search) || ContainsInsensitive(circle.data.description, q.search))
      && (!Given(q.prefecture) || circle.data.prefecture == q.prefecture.value)
      && (!Given(q.skillLevel) || q.skillLevel.value in circle.data.skillLevel)
  {
    ListedAllCandidates(q, circle);
    CandidatesHold(q, circle);
  }

  /** The listing accepts a circle exactly when all four candidate entries hold, the empty ones included. */
  lemma ListedAllCandidates(q: QueryParams, circle: Circle)
    ensures Listed(q, circle) <==> AllHold(Candidates(q), circle)
  {
    DropEmptyKeepsMeaning(Candidates(q), circle);
  }

  /** The four candidate entries, one by one. */
  lemma CandidatesHold(q: QueryParams, circle: Circle)
    ensures AllHold(Candidates(q), circle) <==>
      && circle.isRecruiting
      && (q.search == [] || ContainsInsensitive(circle.data.name, q.search) || ContainsInsensitive(circle.data.description, q.search))
      && (!Given(q.prefecture) || circle.data.prefecture == q.prefecture.value)
      && (!Given(q.skillLevel) || q.skillLevel.value in circle.data.skillLevel)
  {
    var all := Candidates(q);
    assert AllHold(all, circle) <==> Holds(all[0], circle) && Holds(all[1], circle) && Holds(all[2], circle) && Holds(all[3], circle);
  }

  /** With no filters the where clause is just the recruiting condition. */
  lemma NoFiltersOnlyRecruiting(q: QueryParams)
    requires q.search == [] && !Given(q.prefecture) && !Given(q.skillLevel)
    ensures Where(q) == [RecruitingOnly]
  {
    var all := Candidates(q);
    assert all == [Empty, Empty, Empty, RecruitingOnly];
    calc {
      Filter(all, NonEmpty);
      { assert all[1..] == [Empty, Empty, RecruitingOnly]; }
      Filter([Empty, Empty, RecruitingOnly], NonEmpty);
      { assert [Empty, Empty, RecruitingOnly][1..] == [Empty, RecruitingOnly]; }
      Filter([Empty, RecruitingOnly], NonEmpty);
      { assert [Empty, RecruitingOnly][1..] == [RecruitingOnly]; }
      Filter([RecruitingOnly], NonEmpty);
      { assert [RecruitingOnly][1..] == []; }
      [RecruitingOnly];
    }
  }

  // ---------------------------------------------------------------------
  // GET: pagination
  // ---------------------------------------------------------------------

  /** `Math.ceil(total / limit)` for a positive limit. */
  function CeilDiv(total: nat, limit: int): (pages: nat)
    requires limit > 0
    ensures (pages - 1) * limit < total <= pages * limit || (total == 0 && pages == 0)
  {
    (total + limit - 1) / limit
  }

  function Min(a: int, b: int): int {
    if a <= b then a else b
  }

  /** `skip`/`take` on a result list. */
  function Page<T>(rows: seq<T>, skip: nat, take: nat): (r: seq<T>)
    ensures |r| <= take
    ensures skip >= |rows| ==> r == []
    ensures skip < |rows| ==> |r| == Min(take, |rows| - skip)
    ensures forall i :: 0 <= i < |r| ==> skip + i < |rows| && r[i] == rows[skip + i]
  {
    rows[Min(skip, |rows|)..Min(skip + take, |rows|)]
  }

  /**
   * Pages `1 .. pages` are the non-empty ones: each of them holds at least
   * one row and every later page is empty.
   */
  lemma PagesCover<T>(rows: seq<T>, limit: int, page: int)
    requires limit > 0 && page >= 1
    ensures page <= CeilDiv(|rows|, limit) ==> |Page(rows, (page - 1) * limit, limit)| > 0
    ensures page > CeilDiv(|rows|, limit) ==> Page(rows, (page - 1) * limit, limit) == []
  {
    var pages := CeilDiv(|rows|, limit);
    var skip := (page - 1) * limit;
    if page <= pages {
      MultiplyMonotone(page - 1, pages - 1, limit);
      assert skip < |rows|;
    } else {
      MultiplyMonotone(pages, page - 1, limit);
      assert skip >= |rows|;
    }
  }

  /** A page holds rows of the list it is cut from. */
  lemma PageWithin<T>(rows: seq<T>, skip: nat, take: nat)
    ensures forall x :: x in Page(rows, skip, take) ==> x in rows
  {
    forall x | x in Page(rows, skip, take)
      ensures x in rows
    {
      var i :| 0 <= i < |Page(rows, skip, take)| && Page(rows, skip, take)[i] == x;
    }
  }

  /** Every circle on the requested page of the listing is a listed circle of the table. */
  lemma ListedPageWithin(q: QueryParams, ordered: seq<Circle>)
    requires PageRequestOk(q)
    ensures forall c :: c in Page(ListedRows(q, ordered), (q.page.value - 1) * q.limit.value, q.limit.value) ==>
                          c in ordered && Listed(q, c)
  {
    var rows := ListedRows(q, ordered);
    PageWithin(rows, (q.page.value - 1) * q.limit.value, q.limit.value);
  }

  lemma MultiplyMonotone(a: int, b: int, c: int)
    requires 0 <= a <= b && c > 0
    ensures a * c <= b * c
  {
    assert b * c == a * c + (b - a) * c;
  }

  /** The block that tells a client how many pages there are. */
  datatype Pagination = Pagination(total: nat, pages: Option<nat>, current: int, limit: int)

  datatype Listing = Listing(circles: seq<Circle>, pagination: Pagination)

  const ListedMessage: string := "サークル一覧を取得しました"
  const ListFailedMessage: string := "サークル情報の取得に失敗しました"

  /** The store accepts a page request when both numbers are numbers and neither is negative. */
  predicate PageRequestOk(q: QueryParams) {
    q.page.Some? && q.limit.Some? && q.limit.value >= 0 && (q.page.value - 1) * q.limit.value >= 0
  }

  /** The circles on the requested page, newest first when `ordered` is. */
  function ListedRows(q: QueryParams, ordered: seq<Circle>): (r: seq<Circle>)
    ensures forall c :: c in r <==> c in ordered && Listed(q, c)
    ensures IsSubsequence(r, ordered)
  {
    FilterIsSubsequence(ordered, c => Listed(q, c));
    forall c | c in ordered && Listed(q, c)
      ensures c in Filter(ordered, c => Listed(q, c))
    {
      FilterKeeps(ordered, c => Listed(q, c), c);
    }
    Filter(ordered, c => Listed(q, c))
  }

  /**
   * The requested page of the listed circles and the pagination block:
   * `skip = (page - 1) * limit`, `take = limit`, the number of listed circles
   * as the total, and `Math.ceil(total / limit)` pages, which is `null` in
   * the JSON for a limit of zero.
   */
  function ListPage(q: QueryParams, ordered: seq<Circle>): (l: Listing)
    requires PageRequestOk(q)
    ensures |l.circles| <= q.limit.value
    ensures forall c :: c in l.circles ==> c in ordered && Listed(q, c)
    ensures l.pagination.total == |ListedRows(q, ordered)|
    ensures l.pagination.current == q.page.value && l.pagination.limit == q.limit.value
    ensures q.limit.value == 0 <==> l.pagination.pages.None?
    ensures q.limit.value > 0 ==> l.pagination.pages == Some(CeilDiv(l.pagination.total, q.limit.value))
    ensures l.circles == Page(ListedRows(q, ordered), (q.page.value - 1) * q.limit.value, q.limit.value)
  {
    ListedPageWithin(q, ordered);
    Listing(Page(ListedRows(q, ordered), (q.page.value - 1) * q.limit.value, q.limit.value),
            Pagination(|ListedRows(q, ordered)|, if q.limit.value > 0 then Some(CeilDiv(|ListedRows(q, ordered)|, q.limit.value)) else None,
                       q.page.value, q.limit.value))
  }

  /**
   * `GET /api/circles`. `ordered` is the table as the store returns it for
   * `orderBy: {createdAt: "desc"}`. A page request the store rejects (a
   * number that did not parse, a negative offset or count) ends in the
   * handler's 500 response.
   */
  function Get(query: seq<(string, string)>, ordered: seq<Circle>): (r: Response<Listing>)
    ensures r.body.success <==> PageRequestOk(GetQueryParams(query))
    ensures !PageRequestOk(GetQueryParams(query)) ==> r == ServerErrorResponse(ListFailedMessage)
    ensures PageRequestOk(GetQueryParams(query)) ==>
              r == SuccessResponse(ListPage(GetQueryParams(query), ordered), ListedMessage)
  {
    var q := GetQueryParams(query);
    if !PageRequestOk(q) then ServerErrorResponse(ListFailedMessage)
    else SuccessResponse(ListPage(q, ordered), ListedMessage)
  }

  /** With the default page and limit, the listing is the first ten listed circles. */
  lemma DefaultListing(ordered: seq<Circle>)
    ensures Get([], ordered).body.data == Some(ListPage(QueryParams(Some(1), Some(10), [], None, None), ordered))
    ensures Get([], ordered).body.data.value.circles == Page(ListedRows(QueryParams(Some(1), Some(10), [], None, None), ordered), 0, 10)
  {
    EmptyQuery();
  }

  /** Newest first: creation times never increase along the list. */
  predicate NewestFirst(s: seq<Circle>) {
    forall i, j :: 0 <= i < j < |s| ==> s[i].createdAt >= s[j].createdAt
  }

  /** A sub-list of a newest-first list is newest first. */
  lemma {:induction false} SubsequenceNewestFirst(a: seq<Circle>, b: seq<Circle>)
    requires IsSubsequence(a, b) && NewestFirst(b)
    ensures NewestFirst(a)
    decreases |b|
  {
    if a != [] {
      if a[0] == b[0] && IsSubsequence(a[1..], b[1..]) {
        SubsequenceNewestFirst(a[1..], b[1..]);
        SubsequenceElements(a[1..], b[1..]);
        forall j | 0 < j < |a|
          ensures a[0].createdAt >= a[j].createdAt
        {
          assert a[j] == a[1..][j - 1];
          assert a[j] in a[1..];
          var k :| 0 <= k < |b[1..]| && b[1..][k] == a[j];
          assert b[k + 1] == a[j];
        }
      } else {
        SubsequenceNewestFirst(a, b[1..]);
      }
    }
  }

  lemma {:induction false} SubsequenceElements<T>(a: seq<T>, b: seq<T>)
    requires IsSubsequence(a, b)
    ensures forall x :: x in a ==> x in b
    decreases |b|
  {
    if a != [] {
      if a[0] == b[0] && IsSubsequence(a[1..], b[1..]) {
        SubsequenceElements(a[1..], b[1..]);
        forall x | x in a
          ensures x in b
        {
          if x != a[0] {
            assert x in a[1..];
          }
        }
      } else {
        SubsequenceElements(a, b[1..]);
      }
    }
  }

  /** The listed page is newest first whenever the store's order is. */
  lemma ListPageNewestFirst(q: QueryParams, ordered: seq<Circle>)
    requires NewestFirst(ordered)
    requires PageRequestOk(q)
    ensures NewestFirst(ListPage(q, ordered).circles)
  {
    var rows := ListedRows(q, ordered);
    SubsequenceNewestFirst(rows, ordered);
  }

  // ---------------------------------------------------------------------
  // POST, PUT, DELETE over the table
  // ---------------------------------------------------------------------

  const CreatedMessage: string := "サークルが正常に作成されました"
  const CreateFailedMessage: string := "サークルの作成に失敗しました"
  const IdRequiredMessage: string := "サークルIDは必須です"
  const CircleNotFoundMessage: string := "指定されたサークルが見つかりません"
  const UpdatedMessage: string := "サークル情報が正常に更新されました"
  const UpdateFailedMessage: string := "サークル情報の更新に失敗しました"
  const DeletedMessage: string := "サークルが正常に削除されました"
  const DeleteFailedMessage: string := "サークルの削除に失敗しました"

  /** The body of an update: the `id` key and the remaining keys as a partial circle. */
  datatype PutBody = PutBody(id: Option<string>, patch: CirclePatch)

  /** A present field of the patch replaces the stored one; an absent one keeps it. */
  function ApplyPatch(c: CircleInput, p: CirclePatch): (r: CircleInput)
    ensures p == PatchOf(c) ==> r == c
  {
    CircleInput(
      p.name.GetOr(c.name),
      p.description.GetOr(c.description),
      p.prefecture.GetOr(c.prefecture),
      p.city.GetOr(c.city),
      if p.address.Some? then p.address else c.address,
      p.activityFrequency.GetOr(c.activityFrequency),
      p.activityDays.GetOr(c.activityDays),
      p.activityTimes.GetOr(c.activityTimes),
      p.skillLevel.GetOr(c.skillLevel),
      p.fee.GetOr(c.fee),
      if p.memberCount.Some? then p.memberCount else c.memberCount,
      if p.website.Absent? then c.website else p.website,
      if p.facilities.Some? then p.facilities else c.facilities,
      if p.equipments.Some? then p.equipments else c.equipments,
      if p.ageGroups.Some? then p.ageGroups else c.ageGroups,
      if p.genderRatio.Some? then p.genderRatio else c.genderRatio)
  }

  /** A patch the partial schema accepts, applied to a valid circle, gives a valid circle. */
  lemma PatchKeepsValid(c: CircleInput, p: CirclePatch, isUrl: string -> bool)
    requires CircleIssues(c, isUrl) == [] && CirclePatchIssues(p, isUrl) == []
    ensures CircleIssues(ApplyPatch(c, p), isUrl) == []
  {
  }

  /** The empty patch changes nothing. */
  lemma EmptyPatchIdentity(c: CircleInput)
    ensures ApplyPatch(c, CirclePatch(None, None, None, None, None, None, None, None, None, None, None, Absent, None, None, None, None)) == c
  {
  }

  /** The circle table. */
  class CircleTable {
    var rows: map<string, Circle>

    /** Every row is stored under its own id and holds data the circle schema accepts. */
    predicate Valid(isUrl: string -> bool)
      reads this
    {
      forall k :: k in rows ==> rows[k].id == k && CircleIssues(rows[k].data, isUrl) == []
    }

    constructor ()
      ensures rows == map[]
    {
      rows := map[];
    }

    /**
     * `POST /api/circles`. `newId` and `now` are the id and the time the
     * store assigns; an id that is already taken fails like any other store
     * error.
     */
    method Post(body: RequestBody<CircleInput>, isUrl: string -> bool, newId: string, now: int) returns (r: Response<Circle>)
      requires Valid(isUrl)
      modifies this
      ensures Valid(isUrl)
      ensures body.Malformed? ==> rows == old(rows) && r == ServerErrorResponse(CreateFailedMessage)
      ensures body.Json? && CircleIssues(body.value, isUrl) != [] ==>
                rows == old(rows) && r.status == 400 && r.body.message == ValidationMessage &&
                r.body.errors == Some(FormatIssues(CircleIssues(body.value, isUrl)))
      ensures body.Json? && CircleIssues(body.value, isUrl) == [] && newId in old(rows) ==>
                rows == old(rows) && r == ServerErrorResponse(CreateFailedMessage)
      ensures body.Json? && CircleIssues(body.value, isUrl) == [] && newId !in old(rows) ==>
                var created := Circle(newId, body.value, true, now, 0.0, 0);
                rows == old(rows)[newId := created] && r == SuccessResponse(created, CreatedMessage, 201)
    {
      var outcome := ValidateRequest(body, c => CircleIssues(c, isUrl));
      match outcome
      case Threw(ResponseThrown(response)) =>
        r := AsResponse(response);
      case Threw(_) =>
        r := ServerErrorResponse(CreateFailedMessage);
      case Returned(data) =>
        if newId in rows {
          r := ServerErrorResponse(CreateFailedMessage);
        } else {
          var created := Circle(newId, data, true, now, 0.0, 0);
          rows := rows[newId := created];
          r := SuccessResponse(created, CreatedMessage, 201);
        }
    }

    /**
     * `PUT /api/circles`. A body that fails the partial schema throws a
     * schema error, which the handler does not recognise as a response, so
     * it is answered with 500 rather than 400.
     */
    method Put(body: RequestBody<PutBody>, isUrl: string -> bool) returns (r: Response<Circle>)
      requires Valid(isUrl)
      modifies this
      ensures Valid(isUrl)
      ensures body.Malformed? ==> rows == old(rows) && r == ServerErrorResponse(UpdateFailedMessage)
      ensures body.Json? && !Given(body.value.id) ==>
                rows == old(rows) && r == ErrorResponse(IdRequiredMessage, 400)
      ensures body.Json? && Given(body.value.id) && CirclePatchIssues(body.value.patch, isUrl) != [] ==>
                rows == old(rows) && r == ServerErrorResponse(UpdateFailedMessage)
      ensures body.Json? && Given(body.value.id) && CirclePatchIssues(body.value.patch, isUrl) == [] &&
              body.value.id.value !in old(rows) ==>
                rows == old(rows) && r == NotFoundResponse(CircleNotFoundMessage)
      ensures body.Json? && Given(body.value.id) && CirclePatchIssues(body.value.patch, isUrl) == [] &&
              body.value.id.value in old(rows) ==>
                var id := body.value.id.value;
                var updated := old(rows)[id].(data := ApplyPatch(old(rows)[id].data, body.value.patch));
                rows == old(rows)[id := updated] && r == SuccessResponse(updated, UpdatedMessage)
    {
      match body
      case Malformed =>
        r := ServerErrorResponse(UpdateFailedMessage);
      case Json(PutBody(id, patch)) =>
        if !Given(id) {
          r := ErrorResponse(IdRequiredMessage, 400);
          return;
        }
        if CirclePatchIssues(patch, isUrl) != [] {
          r := ServerErrorResponse(UpdateFailedMessage);
          return;
        }
        if id.value !in rows {
          r := NotFoundResponse(CircleNotFoundMessage);
          return;
        }
        var existing := rows[id.value];
        PatchKeepsValid(existing.data, patch, isUrl);
        var updated := existing.(data := ApplyPatch(existing.data, patch));
        rows := rows[id.value := updated];
        r := SuccessResponse(updated, UpdatedMessage);
    }

    /** `DELETE /api/circles?id=…`. */
    method Delete(query: seq<(string, string)>, isUrl: string -> bool) returns (r: Response<()>)
      requires Valid(isUrl)
      modifies this
      ensures Valid(isUrl)
      ensures !Given(QueryGet(query, "id")) ==> rows == old(rows) && r == ErrorResponse(IdRequiredMessage, 400)
      ensures Given(QueryGet(query, "id")) && QueryGet(query, "id").value !in old(rows) ==>
                rows == old(rows) && r == NotFoundResponse(CircleNotFoundMessage)
      ensures Given(QueryGet(query, "id")) && QueryGet(query, "id").value in old(rows) ==>
                rows == old(rows) - {QueryGet(query, "id").value} && r == SuccessResponse((), DeletedMessage)
    {
      var id := QueryGet(query, "id");
      if !Given(id) {
        r := ErrorResponse(IdRequiredMessage, 400);
        return;
      }
      if id.value !in rows {
        r := NotFoundResponse(CircleNotFoundMessage);
        return;
      }
      rows := rows - {id.value};
      r := SuccessResponse((), DeletedMessage);
    }
  }

  /** Deleting keeps the table valid: the remaining rows are the old ones. */
  lemma DeleteKeepsValid(rows: map<string, Circle>, id: string, isUrl: string -> bool)
    requires forall k :: k in rows ==> rows[k].id == k && CircleIssues(rows[k].data, isUrl) == []
    ensures var rest := rows - {id};
            forall k :: k in rest ==> rest[k] == rows[k] && rest[k].id == k && CircleIssues(rest[k].data, isUrl) == []
  {
  }

  /** An update never changes a circle's id, recruiting flag, creation time or aggregates. */
  lemma PatchKeepsIdentity(c: Circle, p: CirclePatch)
    ensures var u := c.(data := ApplyPatch(c.data, p));
            u.id == c.id && u.isRecruiting == c.isRecruiting && u.createdAt == c.createdAt &&
            u.averageRating == c.averageRating && u.reviewCount == c.reviewCount
  {
  }

  /** A create that stores a circle always stores it as recruiting, so a fresh circle is listed by default. */
  lemma CreatedIsListed(data: CircleInput, id: string, now: int)
    ensures Listed(QueryParams(Some(1), Some(10), [], None, None), Circle(id, data, true, now, 0.0, 0))
  {
    ListedIff(QueryParams(Some(1), Some(10), [], None, None), Circle(id, data, true, now, 0.0, 0));
  }

  /**
   * A newly created circle is the newest row, so the store returns it
   * first; it is then the first circle on the default page.
   */
  lemma CreatedFirstOnDefaultPage(data: CircleInput, id: string, now: int, ordered: seq<Circle>)
    ensures var c := Circle(id, data, true, now, 0.0, 0);
            var r := Get([], [c] + ordered);
            r.body.data.Some? && |r.body.data.value.circles| > 0 && r.body.data.value.circles[0] == c
  {
    var c := Circle(id, data, true, now, 0.0, 0);
    var q := QueryParams(Some(1), Some(10), [], None, None);
    DefaultListing([c] + ordered);
    CreatedIsListed(data, id, now);
    assert ([c] + ordered)[0] == c;
    assert ListedRows(q, [c] + ordered)[0] == c;
  }

  /**
   * `ordered` lists the table: exactly its rows, newest first. Every
   * listed page then holds rows of the table, newest first.
   */
  predicate ListsTable(ordered: seq<Circle>, rows: map<string, Circle>) {
    (forall c :: c in ordered ==> c in rows.Values) && (forall c :: c in rows.Values ==> c in ordered) && NewestFirst(ordered)
  }

  lemma PageFromTable(q: QueryParams, ordered: seq<Circle>, rows: map<string, Circle>)
    requires ListsTable(ordered, rows)
    requires PageRequestOk(q)
    ensures forall c :: c in ListPage(q, ordered).circles ==> c in rows.Values && Listed(q, c)
    ensures NewestFirst(ListPage(q, ordered).circles)
  {
    ListPageNewestFirst(q, ordered);
  }
}
