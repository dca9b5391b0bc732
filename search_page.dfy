/**
 * The circle search page: the sample circles it shows, the filter it
 * applies to them on the client, and the page state that the search box,
 * the filter controls and the two reset buttons change.
 */
module SearchPage {
  import opened Common

  /** A sample circle as the page lists it. */
  datatype SampleCircle = SampleCircle(
    id: string,
    name: string,
    prefecture: string,
    city: string,
    rating: real,
    reviewCount: nat,
    skillLevel: seq<string>,
    activityFrequency: string,
    fee: int,
    image: string)

  const SampleCircles: seq<SampleCircle> := [
    SampleCircle("1", "渋谷バドミントンクラブ", "東京都", "渋谷区", 4.8, 42, ["初心者歓迎", "中級者向け"], "週2回", 3000, "/images/circle1.jpg"),
    SampleCircle("2", "新宿バドミントンサークル", "東京都", "新宿区", 4.5, 38, ["初心者歓迎", "中級者向け", "上級者向け"], "週1回", 2500, "/images/circle2.jpg"),
    SampleCircle("3", "目黒バドミントン友の会", "東京都", "目黒区", 4.2, 27, ["中級者向け", "上級者向け"], "月3回", 3500, "/images/circle3.jpg"),
    SampleCircle("4", "横浜中央バドミントン", "神奈川県", "横浜市", 4.6, 52, ["初心者歓迎", "中級者向け"], "週2回", 3200, "/images/circle4.jpg"),
    SampleCircle("5", "川崎バドミントンサークル", "神奈川県", "川崎市", 4.3, 31, ["中級者向け"], "週1回", 2800, "/images/circle5.jpg"),
    SampleCircle("6", "千葉バドミントンクラブ", "千葉県", "千葉市", 4.4, 36, ["初心者歓迎", "中級者向け"], "月4回", 3000, "/images/circle6.jpg")
  ]

  /** The level options, by id. */
  const SkillLevelIds: seq<string> := ["beginner", "intermediate", "advanced"]

  /** The frequency options, by id. */
  const FrequencyIds: seq<string> := ["weekly-multiple", "weekly", "biweekly", "monthly"]

  /** The highest fee the slider allows, and its starting value. */
  const DefaultMaxFee: int := 10000

  /** The word looked for in a circle's level tags for a selected level id; every id but the first two means "advanced". */
  function LevelToken(level: string): string {
    if level == "beginner" then "初心者"
    else if level == "intermediate" then "中級者"
    else "上級者"
  }

  /** Whether a selected frequency id accepts a circle's activity frequency text. */
  predicate FrequencyMatches(freq: string, activity: string) {
    || (freq == "weekly-multiple" && Contains(activity, "週") && !Contains(activity, "週1"))
    || (freq == "weekly" && Contains(activity, "週1"))
    || (freq == "biweekly" && Contains(activity, "隔週"))
    || (freq == "monthly" && Contains(activity, "月"))
  }

  /** The values the filter reads. */
  datatype Filters = Filters(
    searchTerm: string,
    selectedPrefecture: string,
    selectedSkillLevels: seq<string>,
    selectedFrequencies: seq<string>,
    maxFee: int)

  /** The search box: the name ignoring case, or the prefecture or the city as typed. */
  predicate TermMatches(term: string, c: SampleCircle) {
    term == [] || ContainsInsensitive(c.name, term) || Contains(c.prefecture, term) || Contains(c.city, term)
  }

  /** Some selected level's word occurs in some level tag of the circle. */
  predicate LevelMatches(levels: seq<string>, c: SampleCircle) {
    |levels| == 0 ||
    exists i, j :: 0 <= i < |levels| && 0 <= j < |c.skillLevel| && Contains(c.skillLevel[j], LevelToken(levels[i]))
  }

  /** Some selected frequency accepts the circle's activity frequency. */
  predicate FrequencySelected(freqs: seq<string>, c: SampleCircle) {
    |freqs| == 0 || exists i :: 0 <= i < |freqs| && FrequencyMatches(freqs[i], c.activityFrequency)
  }

  /** The filter the page applies to each sample circle. */
  predicate Matches(f: Filters, c: SampleCircle) {
    && TermMatches(f.searchTerm, c)
    && (f.selectedPrefecture == [] || c.prefecture == f.selectedPrefecture)
    && LevelMatches(f.selectedSkillLevels, c)
    && FrequencySelected(f.selectedFrequencies, c)
    && c.fee <= f.maxFee
  }

  /** `filteredCircles`. */
  function FilteredCircles(f: Filters): seq<SampleCircle> {
    Filter(SampleCircles, c => Matches(f, c))
  }

  /**
   * The result holds exactly the sample circles the filter accepts, in the
   * sample order, and every one of them is within the fee limit.
   */
  lemma FilteredIsMatchingSubsequence(f: Filters)
    ensures forall c :: c in FilteredCircles(f) <==> c in SampleCircles && Matches(f, c)
    ensures IsSubsequence(FilteredCircles(f), SampleCircles)
    ensures forall c :: c in FilteredCircles(f) ==> c.fee <= f.maxFee
  {
    FilterIsSubsequence(SampleCircles, c => Matches(f, c));
    forall c | c in SampleCircles && Matches(f, c)
      ensures c in FilteredCircles(f)
    {
      FilterKeeps(SampleCircles, c => Matches(f, c), c);
    }
  }

  /** `weekly-multiple` reads "週" but not "週1", so it also accepts "隔週". */
  lemma WeeklyMultipleAcceptsBiweekly()
    ensures FrequencyMatches("weekly-multiple", "隔週")
    ensures FrequencyMatches("biweekly", "隔週")
  {
    assert Contains("隔週"[1..], "週") by {
      assert "隔週"[1..] == "週";
      StartsWithContains("週", "週");
    }
    assert !Contains("隔週", "週1") by {
      assert "隔週"[..2][0] != "週1"[0];
      assert !StartsWith("隔週"[1..], "週1");
      assert "隔週"[1..][1..] == [];
    }
    StartsWithContains("隔週", "隔週");
  }

  /** "週1回" counts as weekly and not as several times a week. */
  lemma OncePerWeekIsWeekly()
    ensures FrequencyMatches("weekly", "週1回")
    ensures !FrequencyMatches("weekly-multiple", "週1回")
  {
    assert StartsWith("週1回", "週1");
    StartsWithContains("週1回", "週1");
  }

  /** Any level id other than the first two behaves as "advanced". */
  lemma UnknownLevelIsAdvanced(level: string)
    requires level != "beginner" && level != "intermediate"
    ensures LevelToken(level) == LevelToken("advanced")
  {
  }

  /** Every filter that is not set lets all circles through the fee limit alone. */
  lemma OnlyFeeFilter(c: SampleCircle, maxFee: int)
    ensures Matches(Filters([], [], [], [], maxFee), c) <==> c.fee <= maxFee
  {
  }

  /** In the starting state every sample circle is shown, in order. */
  lemma StartShowsAll()
    ensures FilteredCircles(Filters([], [], [], [], DefaultMaxFee)) == SampleCircles
  {
    var f := Filters([], [], [], [], DefaultMaxFee);
    forall c | c in SampleCircles
      ensures Matches(f, c)
    {
      OnlyFeeFilter(c, DefaultMaxFee);
    }
    FilterAll(SampleCircles, c => Matches(f, c));
  }

  /** The page's state. */
  class SearchState {
    var searchTerm: string
    var selectedPrefecture: string
    var selectedSkillLevels: seq<string>
    var selectedFrequencies: seq<string>
    var maxFee: int
    var isFilterOpen: bool

    /** The filter values the state holds. */
    function CurrentFilters(): Filters
      reads this
    {
      Filters(searchTerm, selectedPrefecture, selectedSkillLevels, selectedFrequencies, maxFee)
    }

    constructor ()
      ensures CurrentFilters() == Filters([], [], [], [], DefaultMaxFee) && !isFilterOpen
    {
      searchTerm := [];
      selectedPrefecture := [];
      selectedSkillLevels := [];
      selectedFrequencies := [];
      maxFee := DefaultMaxFee;
      isFilterOpen := false;
    }

    /** `toggleSkillLevel`. */
    method ToggleSkillLevel(levelId: string)
      modifies this
      ensures selectedSkillLevels == Toggle(old(selectedSkillLevels), levelId)
      ensures searchTerm == old(searchTerm) && selectedPrefecture == old(selectedPrefecture)
      ensures selectedFrequencies == old(selectedFrequencies) && maxFee == old(maxFee) && isFilterOpen == old(isFilterOpen)
    {
      selectedSkillLevels := Toggle(selectedSkillLevels, levelId);
    }

    /** `toggleFrequency`. */
    method ToggleFrequency(frequencyId: string)
      modifies this
      ensures selectedFrequencies == Toggle(old(selectedFrequencies), frequencyId)
      ensures searchTerm == old(searchTerm) && selectedPrefecture == old(selectedPrefecture)
      ensures selectedSkillLevels == old(selectedSkillLevels) && maxFee == old(maxFee) && isFilterOpen == old(isFilterOpen)
    {
      selectedFrequencies := Toggle(selectedFrequencies, frequencyId);
    }

    /** Typing in the search box. */
    method SetSearchTerm(term: string)
      modifies this
      ensures CurrentFilters() == old(CurrentFilters()).(searchTerm := term) && isFilterOpen == old(isFilterOpen)
    {
      searchTerm := term;
    }

    /** Choosing a prefecture; `""` is "every prefecture". */
    method SetSelectedPrefecture(prefecture: string)
      modifies this
      ensures CurrentFilters() == old(CurrentFilters()).(selectedPrefecture := prefecture) && isFilterOpen == old(isFilterOpen)
    {
      selectedPrefecture := prefecture;
    }

    /** Moving the fee slider. */
    method SetMaxFee(fee: int)
      modifies this
      ensures CurrentFilters() == old(CurrentFilters()).(maxFee := fee) && isFilterOpen == old(isFilterOpen)
    {
      maxFee := fee;
    }

    /** The filter button opens or closes the filter panel. */
    method ToggleFilterPanel()
      modifies this
      ensures isFilterOpen == !old(isFilterOpen) && CurrentFilters() == old(CurrentFilters())
    {
      isFilterOpen := !isFilterOpen;
    }

    /** The sidebar's reset: every filter back to its start, the search term kept. */
    method ResetFilters()
      modifies this
      ensures CurrentFilters() == Filters(old(searchTerm), [], [], [], DefaultMaxFee)
      ensures isFilterOpen == old(isFilterOpen)
    {
      selectedPrefecture := [];
      selectedSkillLevels := [];
      selectedFrequencies := [];
      maxFee := DefaultMaxFee;
    }

    /** The reset offered when nothing matches: the search term is cleared as well. */
    method ResetAll()
      modifies this
      ensures CurrentFilters() == Filters([], [], [], [], DefaultMaxFee)
      ensures isFilterOpen == old(isFilterOpen)
      ensures FilteredCircles(CurrentFilters()) == SampleCircles
    {
      searchTerm := [];
      ResetFilters();
      StartShowsAll();
    }
  }
}
