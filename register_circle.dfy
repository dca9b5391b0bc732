/**
 * The circle registration form: its validation schema, the list of
 * facility inputs, the uploaded images (at most five), the day and level
 * multi-selects and what a valid submission hands on.
 *
 * The form library keeps its own copy of the field values (`values`); the
 * facility inputs are a separate list (`facilities`) that the page copies
 * into the form value when an input is edited.
 */
module RegisterCircle {
  import opened Common
  import opened Validations

  /** The form's values. `fee` is the number the fee input reads. */
  datatype RegisterValues = RegisterValues(
    name: string,
    description: string,
    prefecture: string,
    city: string,
    address: Option<string>,
    activityFrequency: string,
    activityDays: seq<string>,
    fee: int,
    skillLevels: seq<string>,
    facilities: seq<string>,
    acceptTerms: bool)

  const NameMessage: string := "サークル名は2文字以上で入力してください"
  const DescriptionMessage: string := "説明は20文字以上で入力してください"
  const PrefectureMessage: string := "都道府県を選択してください"
  const CityMessage: string := "市区町村を入力してください"
  const FrequencyMessage: string := "活動頻度を入力してください"
  const DaysMessage: string := "活動曜日を選択してください"
  const FeeMessage: string := "0以上の数値を入力してください"
  const LevelsMessage: string := "対象レベルを選択してください"
  const FacilitiesMessage: string := "活動場所を入力してください"
  const TermsMessage: string := "利用規約に同意する必要があります"

  const FormFields: set<string> := {"name", "description", "prefecture", "city", "activityFrequency",
                                    "activityDays", "fee", "skillLevels", "facilities", "acceptTerms"}

  /** The most images one circle may carry. */
  const MaxImages: nat := 5

  /** The rules of `registerCircleSchema`, in field order. */
  function FormRules(v: RegisterValues): seq<Rule> {
    [ Rule(Utf16Length(v.name) >= 2, "name", NameMessage),
      Rule(Utf16Length(v.description) >= 20, "description", DescriptionMessage),
      Rule(|v.prefecture| >= 1, "prefecture", PrefectureMessage),
      Rule(|v.city| >= 1, "city", CityMessage),
      Rule(|v.activityFrequency| >= 1, "activityFrequency", FrequencyMessage),
      Rule(|v.activityDays| >= 1, "activityDays", DaysMessage),
      Rule(v.fee >= 0, "fee", FeeMessage),
      Rule(|v.skillLevels| >= 1, "skillLevels", LevelsMessage),
      Rule(|v.facilities| >= 1, "facilities", FacilitiesMessage),
      Rule(v.acceptTerms, "acceptTerms", TermsMessage) ]
  }

  /** `registerCircleSchema`: the issues the form shows; none exactly when every rule holds. */
  function FormIssues(v: RegisterValues): (r: seq<Issue>)
    ensures r == [] <==>
      && Utf16Length(v.name) >= 2 && Utf16Length(v.description) >= 20
      && v.prefecture != [] && v.city != [] && v.activityFrequency != []
      && |v.activityDays| >= 1 && |v.skillLevels| >= 1 && |v.facilities| >= 1
      && v.fee >= 0 && v.acceptTerms
    ensures OnFields(r, FormFields)
    ensures v.facilities == [] ==> Issue([Key("facilities")], FacilitiesMessage) in r
  {
    var rules := FormRules(v);
    AllOkOfTen(rules);
    ReportOnFields(rules, FormFields);
    assert v.facilities == [] ==> !rules[8].ok && IssueOf(rules[8]) == Issue([Key("facilities")], FacilitiesMessage);
    Report(rules)
  }

  /** The address is optional: it never decides whether the form is valid. */
  lemma AddressIsFree(v: RegisterValues, address: Option<string>)
    ensures FormIssues(v.(address := address)) == FormIssues(v)
  {
  }

  // ---------------------------------------------------------------------
  // The facility list
  // ---------------------------------------------------------------------

  /** A facility input that holds text. */
  predicate Filled(f: string) {
    f != ""
  }

  /** `facilities.filter(f => f !== '')`. */
  function NonEmptyEntries(facilities: seq<string>): (r: seq<string>)
    ensures forall f :: f in r <==> f in facilities && f != ""
    ensures IsSubsequence(r, facilities)
  {
    FilterIsSubsequence(facilities, Filled);
    forall f | f in facilities && f != ""
      ensures f in Filter(facilities, Filled)
    {
      FilterKeeps(facilities, Filled, f);
    }
    Filter(facilities, Filled)
  }

  /** An empty input at the end is not a facility. */
  lemma {:induction false} AppendEmptyEntry(facilities: seq<string>)
    ensures NonEmptyEntries(facilities + [""]) == NonEmptyEntries(facilities)
  {
    if facilities == [] {
      assert [""][1..] == [];
    } else {
      assert (facilities + [""])[1..] == facilities[1..] + [""];
      AppendEmptyEntry(facilities[1..]);
    }
  }

  /** `splice(index, 1)`: the entry at `index` removed, or nothing when `index` is past the end. */
  function RemoveAt<T>(s: seq<T>, index: nat): (r: seq<T>)
    ensures index < |s| ==> |r| == |s| - 1
    ensures index < |s| ==> forall j :: 0 <= j < |r| ==> r[j] == (if j < index then s[j] else s[j + 1])
    ensures index >= |s| ==> r == s
  {
    if index < |s| then s[..index] + s[index + 1..] else s
  }

  /** One uploaded image: the id the page gives it, the file and its preview address. */
  datatype ImageEntry = ImageEntry(id: string, file: string, preview: string)

  /** The outcome of pressing submit. */
  datatype SubmitOutcome =
    | Rejected(issues: seq<Issue>)
    | Submitted(data: RegisterValues, imageEntries: seq<(string, string)>)

  /** The `image-<index>` entries the submission attaches, one per image, in order. */
  method ImageFormEntries(images: seq<ImageEntry>) returns (entries: seq<(string, string)>)
    ensures |entries| == |images|
    ensures forall i :: 0 <= i < |images| ==> entries[i] == ("image-" + Decimal(i), images[i].file)
  {
    entries := [];
    var index := 0;
    while index < |images|
      invariant 0 <= index <= |images|
      invariant |entries| == index
      invariant forall i :: 0 <= i < index ==> entries[i] == ("image-" + Decimal(i), images[i].file)
    {
      entries := entries + [("image-" + Decimal(index), images[index].file)];
      index := index + 1;
    }
  }

  /** Every image goes under a key of its own. */
  lemma ImageKeysDistinct(i: nat, j: nat)
    requires i != j
    ensures "image-" + Decimal(i) != "image-" + Decimal(j)
  {
    if "image-" + Decimal(i) == "image-" + Decimal(j) {
      assert Decimal(i) == ("image-" + Decimal(i))[6..];
      assert Decimal(j) == ("image-" + Decimal(j))[6..];
      DecimalInjective(i, j);
    }
  }

  /** The registration page's state. */
  class RegisterForm {
    var values: RegisterValues
    var facilities: seq<string>
    var images: seq<ImageEntry>
    var isSubmitting: bool

    /** There is always at least one facility input, and never more than five images. */
    predicate Valid()
      reads this
    {
      |facilities| >= 1 && |images| <= MaxImages
    }

    /** The form value `facilities` holds exactly the filled facility inputs. */
    predicate InSync()
      reads this
    {
      values.facilities == NonEmptyEntries(facilities)
    }

    constructor ()
      ensures Valid() && InSync()
      ensures values == RegisterValues("", "", "", "", Some(""), "", [], 0, [], [], false)
      ensures facilities == [""] && images == [] && !isSubmitting
    {
      values := RegisterValues("", "", "", "", Some(""), "", [], 0, [], [], false);
      facilities := [""];
      images := [];
      isSubmitting := false;
      assert NonEmptyEntries([""]) == [] by {
        assert [""][1..] == [];
      }
    }

    /** Typing into the inputs bound to the form: every value but the three lists the page sets itself. */
    method EditRegistered(v: RegisterValues)
      modifies this
      ensures values == v.(activityDays := old(values).activityDays, skillLevels := old(values).skillLevels,
                           facilities := old(values).facilities)
      ensures facilities == old(facilities) && images == old(images) && isSubmitting == old(isSubmitting)
    {
      values := v.(activityDays := values.activityDays, skillLevels := values.skillLevels,
                   facilities := values.facilities);
    }

    /** `addFacilityField`: one more, empty, input; the form value still matches the inputs. */
    method AddFacilityField()
      requires Valid()
      modifies this
      ensures Valid()
      ensures facilities == old(facilities) + [""]
      ensures values == old(values) && images == old(images) && isSubmitting == old(isSubmitting)
      ensures old(InSync()) ==> InSync()
    {
      AppendEmptyEntry(facilities);
      facilities := facilities + [""];
    }

    /**
     * `removeFacilityField` as the page has it: the input at `index` is
     * removed while more than one is left, and the form value is left as it was.
     */
    method RemoveFacilityField(index: nat)
      requires Valid()
      modifies this
      ensures Valid()
      ensures |old(facilities)| > 1 ==> facilities == RemoveAt(old(facilities), index)
      ensures |old(facilities)| <= 1 ==> facilities == old(facilities)
      ensures values == old(values) && images == old(images) && isSubmitting == old(isSubmitting)
    {
      if |facilities| > 1 {
        facilities := RemoveAt(facilities, index);
      }
    }

    /** The removal with the form value copied from the remaining inputs, as `updateFacility` does. */
    method RemoveFacilityFieldSynced(index: nat)
      requires Valid()
      modifies this
      ensures Valid() && InSync()
      ensures |old(facilities)| > 1 ==> facilities == RemoveAt(old(facilities), index)
      ensures |old(facilities)| <= 1 ==> facilities == old(facilities)
      ensures values == old(values).(facilities := NonEmptyEntries(facilities))
      ensures images == old(images) && isSubmitting == old(isSubmitting)
    {
      if |facilities| > 1 {
        facilities := RemoveAt(facilities, index);
      }
      values := values.(facilities := NonEmptyEntries(facilities));
    }

    /** `updateFacility`: input `index` gets `value`, and the form value becomes the filled inputs. */
    method UpdateFacility(index: nat, value: string)
      requires Valid() && index < |facilities|
      modifies this
      ensures Valid() && InSync()
      ensures facilities == old(facilities)[index := value]
      ensures values == old(values).(facilities := NonEmptyEntries(facilities))
      ensures images == old(images) && isSubmitting == old(isSubmitting)
    {
      facilities := facilities[index := value];
      values := values.(facilities := NonEmptyEntries(facilities));
    }

    /**
     * `handleImageUpload`. Choosing no file changes nothing; a batch that
     * would take the count past five is refused whole with an alert;
     * otherwise the new images are appended.
     */
    method HandleImageUpload(newImages: seq<ImageEntry>) returns (alerted: bool)
      requires Valid()
      modifies this
      ensures Valid()
      ensures alerted <==> |newImages| > 0 && |old(images)| + |newImages| > MaxImages
      ensures alerted || newImages == [] ==> images == old(images)
      ensures !alerted ==> images == old(images) + newImages
      ensures values == old(values) && facilities == old(facilities) && isSubmitting == old(isSubmitting)
    {
      alerted := false;
      if |newImages| > 0 {
        if |images| + |newImages| > MaxImages {
          alerted := true;
          return;
        }
        images := images + newImages;
      }
    }

    /** `removeImage`: exactly the images with that id go, the others stay in order. */
    method RemoveImage(id: string)
      requires Valid()
      modifies this
      ensures Valid()
      ensures forall img :: img in images <==> img in old(images) && img.id != id
      ensures IsSubsequence(images, old(images))
      ensures values == old(values) && facilities == old(facilities) && isSubmitting == old(isSubmitting)
    {
      var keep := (img: ImageEntry) => img.id != id;
      FilterIsSubsequence(images, keep);
      forall img | img in images && img.id != id
        ensures img in Filter(images, keep)
      {
        FilterKeeps(images, keep, img);
      }
      images := Filter(images, keep);
    }

    /** `toggleDay`. */
    method ToggleDay(day: string)
      modifies this
      ensures values == old(values).(activityDays := Toggle(old(values).activityDays, day))
      ensures facilities == old(facilities) && images == old(images) && isSubmitting == old(isSubmitting)
      ensures old(InSync()) ==> InSync()
    {
      values := values.(activityDays := Toggle(values.activityDays, day));
    }

    /** `toggleLevel`. */
    method ToggleLevel(level: string)
      modifies this
      ensures values == old(values).(skillLevels := Toggle(old(values).skillLevels, level))
      ensures facilities == old(facilities) && images == old(images) && isSubmitting == old(isSubmitting)
      ensures old(InSync()) ==> InSync()
    {
      values := values.(skillLevels := Toggle(values.skillLevels, level));
    }

    /**
     * Pressing submit: the form values are checked against the schema;
     * only when they pass does the page submit them, with the facilities
     * replaced by the filled inputs and one entry per image.
     */
    method Submit() returns (outcome: SubmitOutcome)
      modifies this
      ensures FormIssues(old(values)) != [] ==> outcome == Rejected(FormIssues(old(values))) && isSubmitting == old(isSubmitting)
      ensures FormIssues(old(values)) == [] ==>
        && outcome.Submitted?
        && outcome.data == old(values).(facilities := NonEmptyEntries(old(facilities)))
        && |outcome.imageEntries| == |old(images)|
        && (forall i :: 0 <= i < |old(images)| ==> outcome.imageEntries[i] == ("image-" + Decimal(i), old(images)[i].file))
        && isSubmitting
      ensures values == old(values) && facilities == old(facilities) && images == old(images)
      ensures old(InSync()) && outcome.Submitted? ==> FormIssues(outcome.data) == []
    {
      var issues := FormIssues(values);
      if issues != [] {
        outcome := Rejected(issues);
        return;
      }
      isSubmitting := true;
      var data := values.(facilities := NonEmptyEntries(facilities));
      var entries := ImageFormEntries(images);
      outcome := Submitted(data, entries);
    }
  }

  /**
   * The page as written: fill the second facility input, then delete it.
   * The form value still names the deleted facility, so the form passes
   * validation and is submitted with no facility at all, which the
   * schema forbids.
   */
  method StaleFacilityAccepted(v: RegisterValues) returns (outcome: SubmitOutcome)
    requires Utf16Length(v.name) >= 2 && Utf16Length(v.description) >= 20
    requires v.prefecture != [] && v.city != [] && v.activityFrequency != []
    requires v.fee >= 0 && v.acceptTerms
    ensures outcome.Submitted?
    ensures outcome.data.facilities == []
    ensures Issue([Key("facilities")], FacilitiesMessage) in FormIssues(outcome.data)
  {
    var form := new RegisterForm();
    form.EditRegistered(v);
    form.ToggleDay("saturday");
    form.ToggleLevel("beginner");
    form.AddFacilityField();
    form.UpdateFacility(1, "体育館");
    assert form.facilities == ["", "体育館"];
    assert "体育館" in form.values.facilities;
    form.RemoveFacilityField(1);
    assert form.facilities == [""];
    assert NonEmptyEntries([""]) == [] by {
      assert [""][1..] == [];
    }
    outcome := form.Submit();
  }

  /** The same steps with the synchronised removal: the form is rejected for its missing facility. */
  method StaleFacilityRejected(v: RegisterValues) returns (outcome: SubmitOutcome)
    requires Utf16Length(v.name) >= 2 && Utf16Length(v.description) >= 20
    requires v.prefecture != [] && v.city != [] && v.activityFrequency != []
    requires v.fee >= 0 && v.acceptTerms
    ensures outcome.Rejected?
    ensures Issue([Key("facilities")], FacilitiesMessage) in outcome.issues
  {
    var form := new RegisterForm();
    form.EditRegistered(v);
    form.ToggleDay("saturday");
    form.ToggleLevel("beginner");
    form.AddFacilityField();
    form.UpdateFacility(1, "体育館");
    form.RemoveFacilityFieldSynced(1);
    assert form.facilities == [""];
    assert NonEmptyEntries([""]) == [] by {
      assert [""][1..] == [];
    }
    outcome := form.Submit();
  }
}
