/**
 * The filter sidebar: which active filters get a removable badge, how a
 * check box option adds itself to or removes itself from its category's
 * list, and the value and step the range slider starts from.
 */
module FilterSidebar {
  import opened Common

  /** A filter's value: a string, a number, a list of strings, or undefined. */
  datatype FilterValue = Str(text: string) | Num(number: real) | Arr(values: seq<string>) | Undefined

  /** The values JavaScript treats as false: undefined, the empty string and zero (arrays never are). */
  predicate Falsy(v: FilterValue) {
    v.Undefined? || v == Str("") || v == Num(0.0)
  }

  /** A category's badge is shown unless its value is false-like or an empty list. */
  predicate BadgeShown(v: FilterValue) {
    !(Falsy(v) || (v.Arr? && |v.values| == 0))
  }

  /** The badge rule spelled out per kind of value. */
  lemma BadgeShownByKind(v: FilterValue)
    ensures v.Undefined? ==> !BadgeShown(v)
    ensures v.Str? ==> (BadgeShown(v) <==> v.text != "")
    ensures v.Num? ==> (BadgeShown(v) <==> v.number != 0.0)
    ensures v.Arr? ==> (BadgeShown(v) <==> |v.values| > 0)
  {
  }

  /** A category with a badge. */
  predicate HasBadge(entry: (string, FilterValue)) {
    BadgeShown(entry.1)
  }

  /** The badges, one per active filter that has one, in the order of the entries. */
  function Badges(activeFilters: seq<(string, FilterValue)>): (r: seq<(string, FilterValue)>)
    ensures forall e :: e in r <==> e in activeFilters && BadgeShown(e.1)
    ensures IsSubsequence(r, activeFilters)
  {
    FilterIsSubsequence(activeFilters, HasBadge);
    forall e | e in activeFilters && BadgeShown(e.1)
      ensures e in Filter(activeFilters, HasBadge)
    {
      FilterKeeps(activeFilters, HasBadge, e);
    }
    Filter(activeFilters, HasBadge)
  }

  /**
   * A badge's remove button: the category is set to undefined, so its
   * badge goes; every other category keeps its value.
   */
  function RemoveBadge(activeFilters: map<string, FilterValue>, key: string): (r: map<string, FilterValue>)
    ensures key in r && r[key] == Undefined && !BadgeShown(r[key])
    ensures r.Keys == activeFilters.Keys + {key}
    ensures forall k :: k in activeFilters && k != key ==> r[k] == activeFilters[k]
  {
    activeFilters[key := Undefined]
  }

  /** An option's box is ticked only when the category holds a list that names it. */
  predicate IsChecked(v: FilterValue, option: string) {
    v.Arr? && option in v.values
  }

  /** Spreading a string gives its characters, one string each. */
  function Characters(s: string): (r: seq<string>)
    ensures |r| == |s| && forall i :: 0 <= i < |s| ==> r[i] == [s[i]]
  {
    seq(|s|, i requires 0 <= i < |s| => [s[i]])
  }

  /**
   * The check box `onChange`: the current list (`|| []`) with the option
   * appended when ticked, or every copy of it removed when unticked.
   * `None` is a value JavaScript cannot spread or filter (a non-empty
   * string when unticking, a non-zero number), where the handler throws.
   */
  function OptionChange(current: FilterValue, option: string, checked: bool): (r: Option<FilterValue>)
    ensures current.Arr? || Falsy(current) ==> r.Some? && r.value.Arr?
    ensures current.Arr? && checked ==> r == Some(Arr(current.values + [option]))
    ensures Falsy(current) && checked ==> r == Some(Arr([option]))
    ensures current.Arr? && !checked ==> r == Some(Arr(RemoveAll(current.values, option)))
    ensures current.Str? && current.text != "" ==> (r.Some? <==> checked)
    ensures current.Num? && !Falsy(current) ==> r.None?
  {
    var empty: seq<string> := [];
    var base := if current.Arr? then Some(current.values)
                else if Falsy(current) then Some(empty)
                else if current.Str? && checked then Some(Characters(current.text))
                else None;
    assert empty + [option] == [option];
    if base.None? then None
    else if checked then Some(Arr(base.value + [option]))
    else Some(Arr(RemoveAll(base.value, option)))
  }

  /**
   * A change from the box leaves the box in the state asked for, and
   * leaves every other option of the category as it was.
   */
  lemma OptionChangeChecks(current: FilterValue, option: string, checked: bool, other: string)
    requires current.Arr? || Falsy(current)
    requires other != option
    ensures IsChecked(OptionChange(current, option, checked).value, option) == checked
    ensures IsChecked(OptionChange(current, option, checked).value, other) == IsChecked(current, other)
  {
    if current.Arr? && checked {
      assert option in current.values + [option];
      assert other in current.values + [option] <==> other in current.values;
    }
  }

  /** Ticking an option that was not ticked and then unticking it restores the list. */
  lemma TickUntickRestores(values: seq<string>, option: string)
    requires option !in values
    ensures OptionChange(Arr(values), option, true) == Some(Arr(values + [option]))
    ensures OptionChange(Arr(values + [option]), option, false) == Some(Arr(values))
  {
    RemoveAbsentAppended(values, option);
  }

  /** The slider's value: the category's value, else its minimum, else 0, each only when not false-like. */
  function SliderValue(active: FilterValue, min: Option<real>): (r: FilterValue)
    ensures !Falsy(active) ==> r == active
    ensures Falsy(active) ==> r.Num?
    ensures Falsy(active) && min.Some? ==> r == Num(min.value)
    ensures Falsy(active) && min.None? ==> r == Num(0.0)
  {
    if !Falsy(active) then active
    else if min.Some? && min.value != 0.0 then Num(min.value)
    else Num(0.0)
  }

  /** The slider's step: the category's step unless it is missing or zero, then 1. */
  function SliderStep(step: Option<real>): (r: real)
    ensures r != 0.0
    ensures step.Some? && step.value != 0.0 ==> r == step.value
    ensures step.None? ==> r == 1.0
  {
    if step.Some? && step.value != 0.0 then step.value else 1.0
  }

  /** A slider move stores the handle's value as a number, which keeps the slider where it was moved unless it is 0. */
  lemma SliderMoveRoundTrip(n: real, min: Option<real>)
    requires n != 0.0
    ensures SliderValue(Num(n), min) == Num(n)
    ensures BadgeShown(Num(n))
  {
  }
}
