/**
 * Store helpers: recomputing a circle's review and member aggregates, and
 * building the text and the positional parameters of the two raw search
 * queries (full-text and by location). Running those queries is not part of
 * this model; only the text and the parameter lists are.
 */
module DbHelpers {
  import opened Common
  import opened Validations
  import opened ApiHandler
  import opened CirclesRoute

  // ---------------------------------------------------------------------
  // Aggregates
  // ---------------------------------------------------------------------

  datatype Review = Review(circleId: string, userId: string, rating: int)

  datatype Member = Member(circleId: string, userId: string, status: string)

  const ActiveStatus: string := "active"

  function Sum(s: seq<int>): int {
    if s == [] then 0 else s[0] + Sum(s[1..])
  }

  /** The ratings of the reviews of one circle, in store order. */
  function RatingsOf(reviews: seq<Review>, circleId: string): (r: seq<int>)
    ensures |r| <= |reviews|
    ensures forall x :: x in r ==> exists v :: v in reviews && v.circleId == circleId && v.rating == x
    ensures forall v :: v in reviews && v.circleId == circleId ==> v.rating in r
  {
    if reviews == [] then []
    else if reviews[0].circleId == circleId then [reviews[0].rating] + RatingsOf(reviews[1..], circleId)
    else RatingsOf(reviews[1..], circleId)
  }

  /** The reviews of `circleId`, counted one by one. */
  function ReviewCount(reviews: seq<Review>, circleId: string): nat {
    |set i | 0 <= i < |reviews| && reviews[i].circleId == circleId|
  }

  /** A new review of the circle adds its rating at the end; a review of another circle adds nothing. */
  lemma {:induction false} RatingsOfAppend(reviews: seq<Review>, v: Review, circleId: string)
    ensures RatingsOf(reviews + [v], circleId) ==
            RatingsOf(reviews, circleId) + (if v.circleId == circleId then [v.rating] else [])
  {
    if reviews != [] {
      assert (reviews + [v])[1..] == reviews[1..] + [v];
      RatingsOfAppend(reviews[1..], v, circleId);
    } else {
      assert [v][1..] == [];
    }
  }

  /** One more review adds one to the count exactly when it is a review of the circle. */
  lemma ReviewCountSnoc(reviews: seq<Review>, circleId: string)
    requires reviews != []
    ensures ReviewCount(reviews, circleId) ==
            ReviewCount(reviews[..|reviews| - 1], circleId) + (if reviews[|reviews| - 1].circleId == circleId then 1 else 0)
  {
    var n := |reviews| - 1;
    var sFront := set i | 0 <= i < n && reviews[..n][i].circleId == circleId;
    var sAll := set i | 0 <= i < |reviews| && reviews[i].circleId == circleId;
    forall i | 0 <= i < n
      ensures reviews[..n][i] == reviews[i]
    {
    }
    if reviews[n].circleId == circleId {
      assert n !in sFront;
      assert sAll == sFront + {n};
    } else {
      assert sAll == sFront;
    }
  }

  /** There is one rating per review of the circle, so the stored review count is the number of its reviews. */
  lemma {:induction false} RatingsOfCount(reviews: seq<Review>, circleId: string)
    ensures |RatingsOf(reviews, circleId)| == ReviewCount(reviews, circleId)
  {
    if reviews != [] {
      var n := |reviews| - 1;
      assert reviews == reviews[..n] + [reviews[n]];
      RatingsOfAppend(reviews[..n], reviews[n], circleId);
      RatingsOfCount(reviews[..n], circleId);
      ReviewCountSnoc(reviews, circleId);
    }
  }

  /** `_avg.rating || 0`: the mean rating, and 0 when there are no ratings (the average is `null`). */
  function AverageOrZero(ratings: seq<int>): real {
    if ratings == [] then 0.0 else (Sum(ratings) as real) / (|ratings| as real)
  }

  /** Ratings from 1 to 5 add up to between one and five times their number. */
  lemma {:induction false} SumBounds(ratings: seq<int>)
    requires forall i :: 0 <= i < |ratings| ==> 1 <= ratings[i] <= 5
    ensures |ratings| <= Sum(ratings) <= 5 * |ratings|
  {
    if ratings != [] {
      SumBounds(ratings[1..]);
    }
  }

  /** With ratings from 1 to 5 the stored average lies between 1 and 5, or is 0 when there are none. */
  lemma AverageBounds(ratings: seq<int>)
    requires forall i :: 0 <= i < |ratings| ==> 1 <= ratings[i] <= 5
    ensures ratings == [] ==> AverageOrZero(ratings) == 0.0
    ensures ratings != [] ==> 1.0 <= AverageOrZero(ratings) <= 5.0
  {
    if ratings != [] {
      SumBounds(ratings);
      QuotientBounds(Sum(ratings) as real, |ratings| as real);
    }
  }

  /** A total between `n` and `5 n`, divided by `n`, lies between 1 and 5. */
  lemma QuotientBounds(s: real, n: real)
    requires n > 0.0 && n <= s <= 5.0 * n
    ensures 1.0 <= s / n <= 5.0
  {
    var q := s / n;
    assert q * n == s;
    assert (q - 1.0) * n == s - n;
    assert (5.0 - q) * n == 5.0 * n - s;
  }

  /** The stored aggregates of a circle agree with its reviews. */
  predicate RatingConsistent(c: Circle, reviews: seq<Review>) {
    c.reviewCount == |RatingsOf(reviews, c.id)| && c.averageRating == AverageOrZero(RatingsOf(reviews, c.id))
  }

  /** The stored member count of a circle agrees with its active members. */
  predicate MemberCountConsistent(c: Circle, members: seq<Member>) {
    c.data.memberCount == Some(CountActive(members, c.id))
  }

  /** The number of members of `circleId` whose status is `"active"`. */
  function CountActive(members: seq<Member>, circleId: string): (n: nat)
    ensures n <= |members|
  {
    if members == [] then 0
    else (if members[0].circleId == circleId && members[0].status == ActiveStatus then 1 else 0)
         + CountActive(members[1..], circleId)
  }

  /** A new active member of the circle raises the count by one; any other new member leaves it. */
  lemma {:induction false} CountActiveAppend(members: seq<Member>, m: Member, circleId: string)
    ensures CountActive(members + [m], circleId) ==
            CountActive(members, circleId) + (if m.circleId == circleId && m.status == ActiveStatus then 1 else 0)
  {
    if members != [] {
      assert (members + [m])[1..] == members[1..] + [m];
      CountActiveAppend(members[1..], m, circleId);
    } else {
      assert [m][1..] == [];
    }
  }

  /** What a helper reports when the row to update does not exist. */
  const RecordNotFound: string := "RecordNotFound"

  /**
   * `updateCircleRating`: the circle's review count and average are
   * recomputed from its reviews; no other field and no other circle changes.
   * An unknown id makes the update throw, and the error is passed on.
   */
  method UpdateCircleRating(table: CircleTable, circleId: string, reviews: seq<Review>, isUrl: string -> bool)
    returns (r: Outcome<()>)
    requires table.Valid(isUrl)
    modifies table
    ensures table.Valid(isUrl)
    ensures r.Returned? ==> circleId in table.rows && RatingConsistent(table.rows[circleId], reviews)
    ensures circleId !in old(table.rows) ==> table.rows == old(table.rows) && r == Threw(OtherError(RecordNotFound))
    ensures circleId in old(table.rows) ==>
              var ratings := RatingsOf(reviews, circleId);
              r == Returned(()) &&
              table.rows == old(table.rows)[circleId := old(table.rows)[circleId].(averageRating := AverageOrZero(ratings), reviewCount := |ratings|)]
  {
    var ratings := RatingsOf(reviews, circleId);
    if circleId !in table.rows {
      r := Threw(OtherError(RecordNotFound));
      return;
    }
    var c := table.rows[circleId];
    table.rows := table.rows[circleId := c.(averageRating := AverageOrZero(ratings), reviewCount := |ratings|)];
    r := Returned(());
  }

  /**
   * `updateCircleMemberCount`: the circle's member count becomes the number
   * of its active members; nothing else changes.
   */
  method UpdateCircleMemberCount(table: CircleTable, circleId: string, members: seq<Member>, isUrl: string -> bool)
    returns (r: Outcome<()>)
    requires table.Valid(isUrl)
    modifies table
    ensures table.Valid(isUrl)
    ensures r.Returned? ==> circleId in table.rows && MemberCountConsistent(table.rows[circleId], members)
    ensures circleId !in old(table.rows) ==> table.rows == old(table.rows) && r == Threw(OtherError(RecordNotFound))
    ensures circleId in old(table.rows) ==>
              var c := old(table.rows)[circleId];
              r == Returned(()) &&
              table.rows == old(table.rows)[circleId := c.(data := c.data.(memberCount := Some(CountActive(members, circleId))))]
  {
    if circleId !in table.rows {
      r := Threw(OtherError(RecordNotFound));
      return;
    }
    var count := CountActive(members, circleId);
    var c := table.rows[circleId];
    OptionalFieldsFree(c.data, isUrl, c.data.address, Some(count), c.data.facilities, c.data.equipments,
                       c.data.ageGroups, c.data.genderRatio);
    table.rows := table.rows[circleId := c.(data := c.data.(memberCount := Some(count)))];
    r := Returned(());
  }

  /** A new review of another circle leaves a circle's stored aggregates in agreement with its reviews. */
  lemma RatingStaysConsistent(c: Circle, reviews: seq<Review>, v: Review)
    requires RatingConsistent(c, reviews) && v.circleId != c.id
    ensures RatingConsistent(c, reviews + [v])
  {
    RatingsOfAppend(reviews, v, c.id);
    assert RatingsOf(reviews, c.id) + [] == RatingsOf(reviews, c.id);
  }

  /** A new review of the circle itself leaves the stored count one short until the circle is updated. */
  lemma RatingStale(c: Circle, reviews: seq<Review>, v: Review)
    requires RatingConsistent(c, reviews) && v.circleId == c.id
    ensures !RatingConsistent(c, reviews + [v])
  {
    RatingsOfAppend(reviews, v, c.id);
  }

  /** A new member of another circle, or one that is not active, leaves the stored member count in agreement. */
  lemma MemberCountStaysConsistent(c: Circle, members: seq<Member>, m: Member)
    requires MemberCountConsistent(c, members) && (m.circleId != c.id || m.status != ActiveStatus)
    ensures MemberCountConsistent(c, members + [m])
  {
    CountActiveAppend(members, m, c.id);
  }

  // ---------------------------------------------------------------------
  // Query texts
  // ---------------------------------------------------------------------

  /** A positional parameter of a raw query. */
  datatype Param = Text(s: string) | Int(i: int) | Num(r: real)

  /** `$k`. */
  function Placeholder(k: nat): (p: string)
    ensures |p| >= 2 && p[0] == '$' && p[1..] == Decimal(k)
  {
    "$" + Decimal(k)
  }

  /** A placeholder names exactly one position. */
  lemma PlaceholderInjective(j: nat, k: nat)
    requires Placeholder(j) == Placeholder(k)
    ensures j == k
  {
    assert Placeholder(j)[1..] == Decimal(j);
    DecimalInjective(j, k);
  }

  /** `items.join(sep)`. */
  function Join(items: seq<string>, sep: string): string {
    if items == [] then []
    else if |items| == 1 then items[0]
    else items[0] + sep + Join(items[1..], sep)
  }

  const RecruitingCondition: string := "\"isRecruiting\" = true"

  function FullTextCondition(k: nat): string {
    "search_vector @@ plainto_tsquery('simple', " + Placeholder(k) + ")"
  }

  function PrefectureCondition(k: nat): string {
    "\"prefecture\" = " + Placeholder(k)
  }

  function SkillLevelCondition(k: nat): string {
    Placeholder(k) + " = ANY(\"skillLevel\")"
  }

  /** The distance condition on the first three placeholders, the radius given in kilometres. */
  function WithinCondition(k: nat): string {
    "ST_DWithin(ST_MakePoint(longitude, latitude)::geography, ST_MakePoint(" + Placeholder(k) + ", " +
    Placeholder(k + 1) + ")::geography, " + Placeholder(k + 2) + " * 1000)"
  }

  const RankOrder: string := "ORDER BY ts_rank(search_vector, plainto_tsquery('simple', $1)) DESC, \"createdAt\" DESC"
  const NewestOrder: string := "ORDER BY \"createdAt\" DESC"
  const DistanceOrder: string := "ORDER BY distance_km ASC"

  /** `WHERE c1 AND c2 …`, or nothing when there are no conditions. */
  function WhereClause(conditions: seq<string>): (w: string)
    ensures conditions != [] ==> StartsWith(w, "WHERE ")
  {
    if |conditions| > 0 then "WHERE " + Join(conditions, " AND ") else []
  }

  function CountQuery(whereClause: string): string {
    "SELECT COUNT(*)::int as total FROM \"Circle\" " + whereClause
  }

  function LimitOffset(k: nat): string {
    "LIMIT " + Placeholder(k) + " OFFSET " + Placeholder(k + 1)
  }

  /** The texts and parameters of one search. */
  datatype SearchQuery = SearchQuery(countQuery: string, dataQuery: string, params: seq<Param>)

  /** The kinds of optional filter the full-text search can add. */
  datatype FilterKind = FullText | PrefectureEq | SkillLevelAny

  /** The SQL condition of one filter kind on placeholder `k`. */
  function ConditionOf(kind: FilterKind, k: nat): string {
    match kind
    case FullText => FullTextCondition(k)
    case PrefectureEq => PrefectureCondition(k)
    case SkillLevelAny => SkillLevelCondition(k)
  }

  /** The filters a full-text search uses, in the order the builder adds them: the ones given a non-empty value. */
  function GivenFilters(searchTerm: string, prefecture: Option<string>, skillLevel: Option<string>): (f: seq<(FilterKind, string)>)
    ensures |f| <= 3
    ensures searchTerm != [] <==> |f| > 0 && f[0] == (FullText, searchTerm)
  {
    (if searchTerm != [] then [(FullText, searchTerm)] else [])
    + (if Given(prefecture) then [(PrefectureEq, prefecture.value)] else [])
    + (if Given(skillLevel) then [(SkillLevelAny, skillLevel.value)] else [])
  }

  /**
   * The numbering rule after some filters `f` were added: the condition of
   * the k-th filter uses `$k`, `$k` is bound to the k-th parameter (its
   * value), and the next free placeholder is `$(|f| + 1)`.
   */
  predicate Numbered(conditions: seq<string>, params: seq<Param>, paramIndex: nat, f: seq<(FilterKind, string)>) {
    && |conditions| == |f| && |params| == |f| && paramIndex == |f| + 1
    && forall i :: 0 <= i < |f| ==> conditions[i] == ConditionOf(f[i].0, i + 1) && params[i] == Text(f[i].1)
  }

  /** Adding one filter on the next placeholder keeps the numbering rule. */
  lemma NumberedPush(conditions: seq<string>, params: seq<Param>, paramIndex: nat, f: seq<(FilterKind, string)>,
                     kind: FilterKind, value: string)
    requires Numbered(conditions, params, paramIndex, f)
    ensures Numbered(conditions + [ConditionOf(kind, paramIndex)], params + [Text(value)], paramIndex + 1, f + [(kind, value)])
  {
    var c := conditions + [ConditionOf(kind, paramIndex)];
    var p := params + [Text(value)];
    var g := f + [(kind, value)];
    assert |c| == |g| && |p| == |g|;
    forall i | 0 <= i < |g|
      ensures c[i] == ConditionOf(g[i].0, i + 1) && p[i] == Text(g[i].1)
    {
      if i < |f| {
        assert c[i] == conditions[i] && p[i] == params[i] && g[i] == f[i];
        assert conditions[i] == ConditionOf(f[i].0, i + 1) && params[i] == Text(f[i].1);
      } else {
        assert i == |f| == paramIndex - 1;
        assert c[i] == ConditionOf(kind, paramIndex) && p[i] == Text(value) && g[i] == (kind, value);
      }
    }
  }

  /**
   * The conditions of a full-text search over the given filters `f`: the
   * k-th filter's condition on `$k`, then the recruiting condition.
   */
  function FullTextWhere(f: seq<(FilterKind, string)>): (c: seq<string>)
    ensures |c| == |f| + 1 && c[|f|] == RecruitingCondition
  {
    seq(|f|, i requires 0 <= i < |f| => ConditionOf(f[i].0, i + 1)) + [RecruitingCondition]
  }

  /** The conditions of a location search: the distance, the level filter on `$4` when given, recruiting. */
  function LocationWhere(skillLevel: Option<string>): (c: seq<string>)
    ensures |c| >= 2 && c[0] == WithinCondition(1) && c[|c| - 1] == RecruitingCondition
    ensures Given(skillLevel) <==> |c| == 3
  {
    [WithinCondition(1)] + (if Given(skillLevel) then [SkillLevelCondition(4)] else []) + [RecruitingCondition]
  }

  /** Numbered conditions followed by the recruiting condition are the full-text search's conditions. */
  lemma NumberedWhere(conditions: seq<string>, params: seq<Param>, paramIndex: nat, f: seq<(FilterKind, string)>)
    requires Numbered(conditions, params, paramIndex, f)
    ensures conditions + [RecruitingCondition] == FullTextWhere(f)
  {
    var w := FullTextWhere(f);
    var c := conditions + [RecruitingCondition];
    forall i | 0 <= i < |w|
      ensures c[i] == w[i]
    {
      if i < |f| {
        assert c[i] == conditions[i] == ConditionOf(f[i].0, i + 1);
        assert w[i] == ConditionOf(f[i].0, i + 1);
      }
    }
  }

  /**
   * The `WHERE` part of the full-text search, built as the source builds
   * it: each given filter pushes its condition on the next placeholder and
   * its value on the parameter list, then the recruiting condition is added.
   */
  method FullTextConditions(searchTerm: string, prefecture: Option<string>, skillLevel: Option<string>)
    returns (conditions: seq<string>, params: seq<Param>, paramIndex: nat)
    ensures var f := GivenFilters(searchTerm, prefecture, skillLevel);
      && |conditions| == |f| + 1
      && Numbered(conditions[..|f|], params, paramIndex, f)
      && conditions[|f|] == RecruitingCondition
      && conditions == FullTextWhere(f)
  {
    ghost var f: seq<(FilterKind, string)> := [];
    conditions := [];
    params := [];
    paramIndex := 1;
    if searchTerm != [] {
      NumberedPush(conditions, params, paramIndex, f, FullText, searchTerm);
      conditions := conditions + [ConditionOf(FullText, paramIndex)];
      params := params + [Text(searchTerm)];
      paramIndex := paramIndex + 1;
      f := f + [(FullText, searchTerm)];
    }
    assert Numbered(conditions, params, paramIndex, f) && f == if searchTerm != [] then [(FullText, searchTerm)] else [];
    if Given(prefecture) {
      NumberedPush(conditions, params, paramIndex, f, PrefectureEq, prefecture.value);
      conditions := conditions + [ConditionOf(PrefectureEq, paramIndex)];
      params := params + [Text(prefecture.value)];
      paramIndex := paramIndex + 1;
      f := f + [(PrefectureEq, prefecture.value)];
    }
    assert Numbered(conditions, params, paramIndex, f);
    if Given(skillLevel) {
      NumberedPush(conditions, params, paramIndex, f, SkillLevelAny, skillLevel.value);
      conditions := conditions + [ConditionOf(SkillLevelAny, paramIndex)];
      params := params + [Text(skillLevel.value)];
      paramIndex := paramIndex + 1;
      f := f + [(SkillLevelAny, skillLevel.value)];
    }
    assert f == GivenFilters(searchTerm, prefecture, skillLevel);
    assert (conditions + [RecruitingCondition])[..|f|] == conditions;
    NumberedWhere(conditions, params, paramIndex, f);
    conditions := conditions + [RecruitingCondition];
  }

  const CountPrefix: string := "SELECT COUNT(*)::int as total FROM \"Circle\" "

  /** The page query: the where clause, the order and the limit/offset tail. */
  function DataQuery(select: string, whereClause: string, orderBy: string, tail: string): string {
    select + whereClause + " " + orderBy + " " + tail
  }

  const FullTextSelect: string := "SELECT * FROM \"Circle\" "
  const LocationSelect: string :=
    "SELECT *, ST_Distance(ST_MakePoint(longitude, latitude)::geography, ST_MakePoint($1, $2)::geography) / 1000 as distance_km FROM \"Circle\" "

  /** The page query includes its order clause and its limit/offset tail. */
  lemma DataQueryParts(select: string, whereClause: string, orderBy: string, tail: string)
    ensures Contains(DataQuery(select, whereClause, orderBy, tail), orderBy)
    ensures Contains(DataQuery(select, whereClause, orderBy, tail), tail)
  {
    var head := select + whereClause + " ";
    assert DataQuery(select, whereClause, orderBy, tail) == head + orderBy + (" " + tail);
    MiddleContained(head, orderBy, " " + tail);
    assert DataQuery(select, whereClause, orderBy, tail) == (head + orderBy + " ") + tail;
    SuffixContained(head + orderBy + " ", tail);
  }

  /** With at least one condition the count query has a `WHERE` clause. */
  lemma CountQueryWhere(conditions: seq<string>)
    requires conditions != []
    ensures StartsWith(CountQuery(WhereClause(conditions)), CountPrefix + "WHERE ")
    ensures CountQuery(WhereClause(conditions)) == (CountPrefix + "WHERE ") + Join(conditions, " AND ")
  {
    assert CountQuery(WhereClause(conditions)) == (CountPrefix + "WHERE ") + Join(conditions, " AND ");
    PrefixStarts(CountPrefix + "WHERE ", Join(conditions, " AND "));
  }

  /**
   * `searchCirclesWithFullText`: the count query and the page query with
   * their parameters. The page query orders by rank on `$1` exactly when
   * a search term is given, and its `LIMIT` and `OFFSET` placeholders are
   * bound to the last two parameters, the limit and `(page - 1) * limit`.
   */
  method FullTextSearch(searchTerm: string, prefecture: Option<string>, skillLevel: Option<string>,
                        page: Option<int>, limit: Option<int>) returns (q: SearchQuery)
    ensures var f := GivenFilters(searchTerm, prefecture, skillLevel);
      var lim := limit.GetOr(10);
      var pg := page.GetOr(1);
      && |q.params| == |f| + 2
      && (forall i :: 0 <= i < |f| ==> q.params[i] == Text(f[i].1))
      && q.params[|f|] == Int(lim) && q.params[|f| + 1] == Int((pg - 1) * lim)
      && Contains(q.dataQuery, LimitOffset(|f| + 1))
      && (searchTerm != [] ==> Contains(q.dataQuery, RankOrder) && q.params[0] == Text(searchTerm))
      && (searchTerm == [] ==> Contains(q.dataQuery, NewestOrder))
      && StartsWith(q.countQuery, CountPrefix + "WHERE ")
      && q.countQuery == CountQuery(WhereClause(FullTextWhere(f)))
      && q.dataQuery == DataQuery(FullTextSelect, WhereClause(FullTextWhere(f)),
                                  if searchTerm != [] then RankOrder else NewestOrder, LimitOffset(|f| + 1))
  {
    var lim := limit.GetOr(10);
    var pg := page.GetOr(1);
    var offset := (pg - 1) * lim;
    var conditions, params, paramIndex := FullTextConditions(searchTerm, prefecture, skillLevel);
    ghost var f := GivenFilters(searchTerm, prefecture, skillLevel);
    var whereClause := WhereClause(conditions);
    var countQuery := CountQuery(whereClause);
    var orderBy := if searchTerm != [] then RankOrder else NewestOrder;
    var tail := LimitOffset(paramIndex);
    var dataQuery := DataQuery(FullTextSelect, whereClause, orderBy, tail);
    assert forall i :: 0 <= i < |f| ==> params[i] == Text(f[i].1);
    params := params + [Int(lim), Int(offset)];
    q := SearchQuery(countQuery, dataQuery, params);
    DataQueryParts(FullTextSelect, whereClause, orderBy, tail);
    CountQueryWhere(conditions);
  }

  /** `$1 .. $3` for the point and the radius, a `$4` level filter when one is given, the recruiting condition. */
  method LocationConditions(latitude: real, longitude: real, radius: real, skillLevel: Option<string>)
    returns (conditions: seq<string>, params: seq<Param>, paramIndex: nat)
    ensures |conditions| >= 2 && |params| >= 3
    ensures conditions[0] == WithinCondition(1)
    ensures params[..3] == [Num(longitude), Num(latitude), Num(radius)]
    ensures Given(skillLevel) ==> |conditions| == 3 && conditions[1] == SkillLevelCondition(4) &&
                                  |params| == 4 && params[3] == Text(skillLevel.value) && paramIndex == 5
    ensures !Given(skillLevel) ==> |conditions| == 2 && |params| == 3 && paramIndex == 4
    ensures conditions[|conditions| - 1] == RecruitingCondition
    ensures conditions == LocationWhere(skillLevel)
  {
    conditions := [];
    params := [];
    paramIndex := 1;
    conditions := conditions + [WithinCondition(paramIndex)];
    params := params + [Num(longitude), Num(latitude), Num(radius)];
    paramIndex := paramIndex + 3;
    assert conditions == [WithinCondition(1)] && params == [Num(longitude), Num(latitude), Num(radius)];
    if Given(skillLevel) {
      conditions := conditions + [SkillLevelCondition(paramIndex)];
      params := params + [Text(skillLevel.value)];
      paramIndex := paramIndex + 1;
      assert params[..3] == [Num(longitude), Num(latitude), Num(radius)];
    }
    conditions := conditions + [RecruitingCondition];
  }

  /**
   * `searchCirclesByLocation`: `$1`, `$2`, `$3` are the longitude, the
   * latitude and the radius (default 10 km); a given skill level is `$4`;
   * `LIMIT` and `OFFSET` take the two positions after those, bound to the
   * limit and the offset.
   */
  method LocationSearch(latitude: real, longitude: real, radiusKm: Option<real>, skillLevel: Option<string>,
                        page: Option<int>, limit: Option<int>) returns (q: SearchQuery)
    ensures var lim := limit.GetOr(10);
      var pg := page.GetOr(1);
      var n := if Given(skillLevel) then 4 else 3;
      && |q.params| == n + 2
      && q.params[0] == Num(longitude) && q.params[1] == Num(latitude) && q.params[2] == Num(radiusKm.GetOr(10.0))
      && (Given(skillLevel) ==> q.params[3] == Text(skillLevel.value) && Contains(q.countQuery, SkillLevelCondition(4)))
      && q.params[n] == Int(lim) && q.params[n + 1] == Int((pg - 1) * lim)
      && Contains(q.dataQuery, LimitOffset(n + 1))
      && Contains(q.dataQuery, DistanceOrder)
      && Contains(q.countQuery, WithinCondition(1))
      && q.countQuery == CountQuery(WhereClause(LocationWhere(skillLevel)))
      && q.dataQuery == DataQuery(LocationSelect, WhereClause(LocationWhere(skillLevel)), DistanceOrder, LimitOffset(n + 1))
  {
    var lim := limit.GetOr(10);
    var pg := page.GetOr(1);
    var offset := (pg - 1) * lim;
    var conditions, params, paramIndex := LocationConditions(latitude, longitude, radiusKm.GetOr(10.0), skillLevel);
    var whereClause := WhereClause(conditions);
    var countQuery := CountQuery(whereClause);
    var tail := LimitOffset(paramIndex);
    var dataQuery := DataQuery(LocationSelect, whereClause, DistanceOrder, tail);
    assert params[0] == params[..3][0] && params[1] == params[..3][1] && params[2] == params[..3][2];
    params := params + [Int(lim), Int(offset)];
    q := SearchQuery(countQuery, dataQuery, params);
    DataQueryParts(LocationSelect, whereClause, DistanceOrder, tail);
    LocationCountContains(skillLevel);
  }

  /** The location count query holds the distance condition on `$1`, and the level condition on `$4` when a level is given. */
  lemma LocationCountContains(skillLevel: Option<string>)
    ensures Contains(CountQuery(WhereClause(LocationWhere(skillLevel))), WithinCondition(1))
    ensures Given(skillLevel) ==> Contains(CountQuery(WhereClause(LocationWhere(skillLevel))), SkillLevelCondition(4))
  {
    var conditions := LocationWhere(skillLevel);
    CountQueryWhere(conditions);
    JoinHeadContained(conditions, " AND ");
    ContainedInSuffix(CountPrefix + "WHERE ", Join(conditions, " AND "), WithinCondition(1));
    if Given(skillLevel) {
      JoinSecondContained(conditions, " AND ");
      ContainedInSuffix(CountPrefix + "WHERE ", Join(conditions, " AND "), SkillLevelCondition(4));
    }
  }

  /** `a + b` starts with `a`. */
  lemma PrefixStarts(a: string, b: string)
    ensures StartsWith(a + b, a)
  {
    assert (a + b)[..|a|] == a;
  }

  /** `a + b` includes `b`. */
  lemma SuffixContained(a: string, b: string)
    ensures Contains(a + b, b)
  {
    assert OccursAt(a + b, b, |a|) by {
      assert (a + b)[|a|..|a| + |b|] == b;
    }
    ContainsIff(a + b, b);
  }

  /** `a + b + c` includes `b`. */
  lemma MiddleContained(a: string, b: string, c: string)
    ensures Contains(a + b + c, b)
  {
    assert OccursAt(a + b + c, b, |a|) by {
      assert (a + b + c)[|a|..|a| + |b|] == b;
    }
    ContainsIff(a + b + c, b);
  }

  /** A string included in `b` is included in `a + b`. */
  lemma ContainedInSuffix(a: string, b: string, x: string)
    requires Contains(b, x)
    ensures Contains(a + b, x)
  {
    ContainsIff(b, x);
    var i :| OccursAt(b, x, i);
    assert (a + b)[|a| + i..|a| + i + |x|] == b[i..i + |x|];
    assert OccursAt(a + b, x, |a| + i);
    ContainsIff(a + b, x);
  }

  /** The joined text includes its first item. */
  lemma JoinHeadContained(items: seq<string>, sep: string)
    requires items != []
    ensures Contains(Join(items, sep), items[0])
  {
    if |items| > 1 {
      assert Join(items, sep) == items[0] + (sep + Join(items[1..], sep));
      PrefixStarts(items[0], sep + Join(items[1..], sep));
    } else {
      PrefixStarts(items[0], []);
      assert items[0] + [] == items[0];
    }
    StartsWithContains(Join(items, sep), items[0]);
  }

  /** The joined text includes its second item. */
  lemma JoinSecondContained(items: seq<string>, sep: string)
    requires |items| >= 2
    ensures Contains(Join(items, sep), items[1])
  {
    JoinHeadContained(items[1..], sep);
    assert Join(items, sep) == (items[0] + sep) + Join(items[1..], sep);
    ContainedInSuffix(items[0] + sep, Join(items[1..], sep), items[1]);
  }

  /** Whatever filters are given, the full-text `WHERE` clause exists and ends with the recruiting condition. */
  lemma {:induction false} JoinEndsWithLast(items: seq<string>, sep: string)
    requires items != []
    ensures EndsWith(Join(items, sep), items[|items| - 1])
  {
    if |items| > 1 {
      JoinEndsWithLast(items[1..], sep);
      var rest := Join(items[1..], sep);
      var last := items[|items| - 1];
      assert items[1..][|items| - 2] == last;
      assert Join(items, sep) == (items[0] + sep) + rest;
      assert (Join(items, sep))[|Join(items, sep)| - |last|..] == rest[|rest| - |last|..];
    }
  }

  predicate EndsWith(s: string, suffix: string) {
    |suffix| <= |s| && s[|s| - |suffix|..] == suffix
  }

  /** The full-text `WHERE` clause is never empty and always ends with the recruiting condition. */
  lemma FullTextWhereRecruiting(conditions: seq<string>)
    requires conditions != [] && conditions[|conditions| - 1] == RecruitingCondition
    ensures WhereClause(conditions) != []
    ensures EndsWith(WhereClause(conditions), RecruitingCondition)
  {
    JoinEndsWithLast(conditions, " AND ");
    var j := Join(conditions, " AND ");
    assert WhereClause(conditions) == "WHERE " + j;
    assert ("WHERE " + j)[|"WHERE " + j| - |RecruitingCondition|..] == j[|j| - |RecruitingCondition|..];
  }
}
