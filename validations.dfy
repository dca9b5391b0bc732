/**
 * The shared validation schemas, written as the list of issues each schema
 * reports for an input: an input is accepted exactly when that list is empty.
 * Issues come in the order of the schema's fields, as the validation library
 * reports them. Whether a string is an e-mail address or a URL is decided by
 * the library; here those two tests are parameters.
 */
module Validations {
  import opened Common

  /** One element of an issue path: an object key or an array position. */
  datatype PathKey = Key(name: string) | Index(position: nat)

  datatype Issue = Issue(path: seq<PathKey>, message: string)

  /** A field that may be left out of the object or set to `null`. */
  datatype Nullable<T> = Absent | Null | Present(value: T)

  const NameMin2Message: string := "名前は2文字以上である必要があります"
  const EmailMessage: string := "有効なメールアドレスを入力してください"
  const PasswordMin8Message: string := "パスワードは8文字以上である必要があります"
  const PasswordMismatchMessage: string := "パスワードが一致しません"

  const CircleNameMessage: string := "サークル名は必須です"
  const DescriptionMessage: string := "説明文は必須です"
  const PrefectureMessage: string := "都道府県は必須です"
  const CityMessage: string := "市区町村は必須です"
  const FrequencyMessage: string := "活動頻度は必須です"
  const DaysMessage: string := "活動曜日は1つ以上選択してください"
  const TimesMessage: string := "活動時間帯は1つ以上選択してください"
  const LevelsMessage: string := "対象レベルは1つ以上選択してください"
  const FeeMessage: string := "月会費は0以上の数値を入力してください"
  const UrlMessage: string := "Invalid url"

  /** One rule of a schema: whether it holds, the field it is about, and its message. */
  datatype Rule = Rule(ok: bool, field: string, message: string)

  /** The issue a failing rule reports. */
  function IssueOf(rule: Rule): Issue {
    Issue([Key(rule.field)], rule.message)
  }

  /** The issues of a list of rules: one per failing rule, in rule order. */
  function Report(rules: seq<Rule>): (r: seq<Issue>)
    ensures r == [] <==> forall j :: 0 <= j < |rules| ==> rules[j].ok
    ensures forall j :: 0 <= j < |rules| && !rules[j].ok ==> IssueOf(rules[j]) in r
    ensures forall i :: 0 <= i < |r| ==> exists j :: 0 <= j < |rules| && !rules[j].ok && r[i] == IssueOf(rules[j])
  {
    if rules == [] then []
    else
      var rest := Report(rules[1..]);
      assert forall j :: 1 <= j < |rules| ==> rules[j] == rules[1..][j - 1];
      if rules[0].ok then rest else [IssueOf(rules[0])] + rest
  }

  /** Every issue in `issues` is reported on one of `fields`. */
  predicate OnFields(issues: seq<Issue>, fields: set<string>) {
    forall i :: 0 <= i < |issues| ==> |issues[i].path| == 1 && issues[i].path[0].Key? && issues[i].path[0].name in fields
  }

  /** The issues of a list of rules are all reported on the fields the rules name. */
  lemma ReportOnFields(rules: seq<Rule>, fields: set<string>)
    requires forall j :: 0 <= j < |rules| ==> rules[j].field in fields
    ensures OnFields(Report(rules), fields)
  {
  }

  // ---------------------------------------------------------------------
  // Accounts
  // ---------------------------------------------------------------------

  datatype UserInput = UserInput(name: string, email: string, password: string)

  datatype LoginInput = LoginInput(email: string, password: string)

  datatype SignupInput = SignupInput(name: string, email: string, password: string, confirmPassword: string)

  function UserRules(u: UserInput, isEmail: string -> bool): seq<Rule> {
    [ Rule(Utf16Length(u.name) >= 2, "name", NameMin2Message),
      Rule(isEmail(u.email), "email", EmailMessage),
      Rule(Utf16Length(u.password) >= 8, "password", PasswordMin8Message) ]
  }

  /** `userSchema`: a name of at least two characters, an e-mail address, a password of at least eight. */
  function UserIssues(u: UserInput, isEmail: string -> bool): (r: seq<Issue>)
    ensures r == [] <==> Utf16Length(u.name) >= 2 && isEmail(u.email) && Utf16Length(u.password) >= 8
    ensures OnFields(r, {"name", "email", "password"})
    ensures Utf16Length(u.name) < 2 ==> r[0] == Issue([Key("name")], NameMin2Message)
  {
    var rules := UserRules(u, isEmail);
    assert rules[0].ok && rules[1].ok && rules[2].ok ==> forall j :: 0 <= j < |rules| ==> rules[j].ok;
    ReportOnFields(rules, {"name", "email", "password"});
    Report(rules)
  }

  /**
   * Lengths are JavaScript lengths: a single character outside the Basic
   * Multilingual Plane already meets the two-character name minimum.
   */
  lemma AstralNameMeetsMinimum(email: string, password: string, isEmail: string -> bool)
    requires isEmail(email) && Utf16Length(password) >= 8
    ensures |"\U{1F3F8}"| == 1 && Utf16Length("\U{1F3F8}") == 2
    ensures UserIssues(UserInput("\U{1F3F8}", email, password), isEmail) == []
  {
    assert "\U{1F3F8}"[1..] == [];
  }

  /** `loginSchema`: only the e-mail address and the password length are checked. */
  function LoginIssues(l: LoginInput, isEmail: string -> bool): (r: seq<Issue>)
    ensures r == [] <==> isEmail(l.email) && Utf16Length(l.password) >= 8
    ensures OnFields(r, {"email", "password"})
  {
    var rules := [ Rule(isEmail(l.email), "email", EmailMessage),
                   Rule(Utf16Length(l.password) >= 8, "password", PasswordMin8Message) ];
    assert rules[0].ok && rules[1].ok ==> forall j :: 0 <= j < |rules| ==> rules[j].ok;
    ReportOnFields(rules, {"email", "password"});
    Report(rules)
  }

  /**
   * `signupSchema`: the user rules, then the refinement that the two
   * passwords agree, reported on `confirmPassword`.
   */
  function SignupIssues(s: SignupInput, isEmail: string -> bool): (r: seq<Issue>)
    ensures r == [] <==> UserIssues(UserInput(s.name, s.email, s.password), isEmail) == [] && s.password == s.confirmPassword
    ensures s.password != s.confirmPassword ==> r[|r| - 1] == Issue([Key("confirmPassword")], PasswordMismatchMessage)
    ensures OnFields(r, {"name", "email", "password", "confirmPassword"})
  {
    UserIssues(UserInput(s.name, s.email, s.password), isEmail)
    + Report([Rule(s.password == s.confirmPassword, "confirmPassword", PasswordMismatchMessage)])
  }

  /** A signup form whose user part is valid is still refused when the passwords differ. */
  lemma MismatchAloneRejects(s: SignupInput, isEmail: string -> bool)
    requires UserIssues(UserInput(s.name, s.email, s.password), isEmail) == []
    requires s.password != s.confirmPassword
    ensures SignupIssues(s, isEmail) == [Issue([Key("confirmPassword")], PasswordMismatchMessage)]
  {
  }

  // ---------------------------------------------------------------------
  // Circles
  // ---------------------------------------------------------------------

  /** The circle fields a client sends; the opaque `socialLinks` value is not modelled. */
  datatype CircleInput = CircleInput(
    name: string,
    description: string,
    prefecture: string,
    city: string,
    address: Option<string>,
    activityFrequency: string,
    activityDays: seq<string>,
    activityTimes: seq<string>,
    skillLevel: seq<string>,
    fee: int,
    memberCount: Option<int>,
    website: Nullable<string>,
    facilities: Option<seq<string>>,
    equipments: Option<seq<string>>,
    ageGroups: Option<seq<string>>,
    genderRatio: Option<string>)

  predicate WebsiteOk(w: Nullable<string>, isUrl: string -> bool) {
    w.Present? ==> isUrl(w.value)
  }

  /** The fields the circle rules are about. */
  const CircleFields: set<string> :=
    {"name", "description", "prefecture", "city", "activityFrequency",
     "activityDays", "activityTimes", "skillLevel", "fee", "website"}

  function CircleRules(c: CircleInput, isUrl: string -> bool): seq<Rule> {
    [ Rule(c.name != [], "name", CircleNameMessage),
      Rule(c.description != [], "description", DescriptionMessage),
      Rule(c.prefecture != [], "prefecture", PrefectureMessage),
      Rule(c.city != [], "city", CityMessage),
      Rule(c.activityFrequency != [], "activityFrequency", FrequencyMessage),
      Rule(|c.activityDays| >= 1, "activityDays", DaysMessage),
      Rule(|c.activityTimes| >= 1, "activityTimes", TimesMessage),
      Rule(|c.skillLevel| >= 1, "skillLevel", LevelsMessage),
      Rule(c.fee >= 0, "fee", FeeMessage),
      Rule(WebsiteOk(c.website, isUrl), "website", UrlMessage) ]
  }

  /** `circleSchema`. */
  function CircleIssues(c: CircleInput, isUrl: string -> bool): (r: seq<Issue>)
    ensures r == [] <==>
      && c.name != [] && c.description != [] && c.prefecture != [] && c.city != []
      && c.activityFrequency != []
      && |c.activityDays| >= 1 && |c.activityTimes| >= 1 && |c.skillLevel| >= 1
      && c.fee >= 0
      && WebsiteOk(c.website, isUrl)
    ensures OnFields(r, CircleFields)
    ensures c.fee < 0 ==> Issue([Key("fee")], FeeMessage) in r
  {
    var rules := CircleRules(c, isUrl);
    AllOkOfTen(rules);
    ReportOnFields(rules, CircleFields);
    assert c.fee < 0 ==> !rules[8].ok && IssueOf(rules[8]) == Issue([Key("fee")], FeeMessage);
    Report(rules)
  }

  /** For a list of ten rules, "every rule holds" unrolled. */
  lemma AllOkOfTen(rules: seq<Rule>)
    requires |rules| == 10
    ensures (forall j :: 0 <= j < |rules| ==> rules[j].ok) <==>
      rules[0].ok && rules[1].ok && rules[2].ok && rules[3].ok && rules[4].ok &&
      rules[5].ok && rules[6].ok && rules[7].ok && rules[8].ok && rules[9].ok
  {
  }

  /** The optional fields never cause an issue: they may be absent or hold anything. */
  lemma OptionalFieldsFree(c: CircleInput, isUrl: string -> bool,
                           address: Option<string>, memberCount: Option<int>,
                           facilities: Option<seq<string>>, equipments: Option<seq<string>>,
                           ageGroups: Option<seq<string>>, genderRatio: Option<string>)
    ensures CircleIssues(c.(address := address, memberCount := memberCount, facilities := facilities,
                            equipments := equipments, ageGroups := ageGroups, genderRatio := genderRatio), isUrl)
            == CircleIssues(c, isUrl)
  {
  }

  /** The body of an update: every circle field may be left out (`circleSchema.partial()`). */
  datatype CirclePatch = CirclePatch(
    name: Option<string>,
    description: Option<string>,
    prefecture: Option<string>,
    city: Option<string>,
    address: Option<string>,
    activityFrequency: Option<string>,
    activityDays: Option<seq<string>>,
    activityTimes: Option<seq<string>>,
    skillLevel: Option<seq<string>>,
    fee: Option<int>,
    memberCount: Option<int>,
    website: Nullable<string>,
    facilities: Option<seq<string>>,
    equipments: Option<seq<string>>,
    ageGroups: Option<seq<string>>,
    genderRatio: Option<string>)

  function CirclePatchRules(p: CirclePatch, isUrl: string -> bool): seq<Rule> {
    [ Rule(p.name.Some? ==> p.name.value != [], "name", CircleNameMessage),
      Rule(p.description.Some? ==> p.description.value != [], "description", DescriptionMessage),
      Rule(p.prefecture.Some? ==> p.prefecture.value != [], "prefecture", PrefectureMessage),
      Rule(p.city.Some? ==> p.city.value != [], "city", CityMessage),
      Rule(p.activityFrequency.Some? ==> p.activityFrequency.value != [], "activityFrequency", FrequencyMessage),
      Rule(p.activityDays.Some? ==> |p.activityDays.value| >= 1, "activityDays", DaysMessage),
      Rule(p.activityTimes.Some? ==> |p.activityTimes.value| >= 1, "activityTimes", TimesMessage),
      Rule(p.skillLevel.Some? ==> |p.skillLevel.value| >= 1, "skillLevel", LevelsMessage),
      Rule(p.fee.Some? ==> p.fee.value >= 0, "fee", FeeMessage),
      Rule(WebsiteOk(p.website, isUrl), "website", UrlMessage) ]
  }

  /** `circleSchema.partial()`: a field that is present obeys its rule, an absent one is free. */
  function CirclePatchIssues(p: CirclePatch, isUrl: string -> bool): (r: seq<Issue>)
    ensures r == [] <==>
      && (p.name.Some? ==> p.name.value != [])
      && (p.description.Some? ==> p.description.value != [])
      && (p.prefecture.Some? ==> p.prefecture.value != [])
      && (p.city.Some? ==> p.city.value != [])
      && (p.activityFrequency.Some? ==> p.activityFrequency.value != [])
      && (p.activityDays.Some? ==> |p.activityDays.value| >= 1)
      && (p.activityTimes.Some? ==> |p.activityTimes.value| >= 1)
      && (p.skillLevel.Some? ==> |p.skillLevel.value| >= 1)
      && (p.fee.Some? ==> p.fee.value >= 0)
      && WebsiteOk(p.website, isUrl)
    ensures OnFields(r, CircleFields)
  {
    var rules := CirclePatchRules(p, isUrl);
    AllOkOfTen(rules);
    ReportOnFields(rules, CircleFields);
    Report(rules)
  }

  /** The patch that sets every field of a complete input. */
  function PatchOf(c: CircleInput): CirclePatch {
    CirclePatch(Some(c.name), Some(c.description), Some(c.prefecture), Some(c.city), c.address,
                Some(c.activityFrequency), Some(c.activityDays), Some(c.activityTimes), Some(c.skillLevel),
                Some(c.fee), c.memberCount, c.website, c.facilities, c.equipments, c.ageGroups, c.genderRatio)
  }

  /** The partial schema agrees with the full one on a complete input, and accepts the empty patch. */
  lemma PartialAgreesWithFull(c: CircleInput, isUrl: string -> bool)
    ensures CirclePatchRules(PatchOf(c), isUrl) == CircleRules(c, isUrl)
    ensures CirclePatchIssues(PatchOf(c), isUrl) == CircleIssues(c, isUrl)
    ensures CirclePatchIssues(CirclePatch(None, None, None, None, None, None, None, None, None, None, None, Absent, None, None, None, None), isUrl) == []
  {
    var pr := CirclePatchRules(PatchOf(c), isUrl);
    var cr := CircleRules(c, isUrl);
    forall j | 0 <= j < 10
      ensures pr[j] == cr[j]
    {
    }
    assert pr == cr;
  }
}
