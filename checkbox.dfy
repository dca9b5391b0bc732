/**
 * The checkbox control: a local `checked` flag that a click or the space
 * and Enter keys flip, that follows the `checked` property whenever the
 * parent sets one, and whose new value is reported to `onChange`.
 */
module Checkbox {
  import opened Common

  /** The properties the model follows. */
  datatype CheckboxProps = CheckboxProps(
    checked: Option<bool>,
    disabled: bool,
    hasOnChange: bool,
    name: Option<string>,
    value: Option<string>)

  /** The event handed to `onChange`. */
  datatype ChangeEvent = ChangeEvent(checked: bool, name: Option<string>, value: Option<string>)

  /** The keys that act as a click. */
  predicate ActivatingKey(key: string) {
    key == " " || key == "Enter"
  }

  class CheckboxState {
    var props: CheckboxProps
    var checked: bool

    /** The first render: `props.checked || false`. */
    constructor (props: CheckboxProps)
      ensures this.props == props && checked == props.checked.GetOr(false)
    {
      this.props := props;
      checked := props.checked.GetOr(false);
    }

    /**
     * The parent re-renders with new properties. The sync effect depends on
     * `props.checked` only, so it runs when that property differs from the
     * previous render's, and then copies it into the flag when it is defined.
     */
    method SyncProps(newProps: CheckboxProps)
      modifies this
      ensures props == newProps
      ensures newProps.checked != old(props).checked && newProps.checked.Some? ==> checked == newProps.checked.value
      ensures newProps.checked == old(props).checked || newProps.checked.None? ==> checked == old(checked)
    {
      var changed := newProps.checked != props.checked;
      props := newProps;
      if changed && newProps.checked.Some? {
        checked := newProps.checked.value;
      }
    }

    /**
     * A click on a box whose parent keeps passing the same `checked`: the
     * re-render does not rerun the sync effect, so the flipped flag stays.
     */
    method ClickThenSameProps() returns (reported: Option<ChangeEvent>)
      modifies this
      ensures props == old(props)
      ensures !props.disabled ==> checked == !old(checked)
    {
      reported := HandleClick();
      SyncProps(props);
    }

    /**
     * `handleClick`: a disabled box ignores it; otherwise the flag flips
     * and, when there is an `onChange`, the new value is reported to it.
     */
    method HandleClick() returns (reported: Option<ChangeEvent>)
      modifies this
      ensures props == old(props)
      ensures props.disabled ==> checked == old(checked) && reported == None
      ensures !props.disabled ==> checked == !old(checked)
      ensures !props.disabled && props.hasOnChange ==> reported == Some(ChangeEvent(checked, props.name, props.value))
      ensures !props.hasOnChange ==> reported == None
    {
      reported := None;
      if props.disabled {
        return;
      }
      checked := !checked;
      if props.hasOnChange {
        reported := Some(ChangeEvent(checked, props.name, props.value));
      }
    }

    /**
     * `handleKeyDown`: on a box that is not disabled, space and Enter act
     * as a click and their default action is suppressed; other keys do nothing.
     */
    method HandleKeyDown(key: string) returns (prevented: bool, reported: Option<ChangeEvent>)
      modifies this
      ensures props == old(props)
      ensures prevented <==> !props.disabled && ActivatingKey(key)
      ensures prevented ==> checked == !old(checked)
      ensures !prevented ==> checked == old(checked) && reported == None
      ensures prevented && props.hasOnChange ==> reported == Some(ChangeEvent(checked, props.name, props.value))
      ensures !props.hasOnChange ==> reported == None
    {
      prevented := false;
      reported := None;
      if props.disabled {
        return;
      }
      if ActivatingKey(key) {
        prevented := true;
        reported := HandleClick();
      }
    }

    /** Two clicks bring the flag back, and the second report carries the original value. */
    method ClickTwice() returns (first: Option<ChangeEvent>, second: Option<ChangeEvent>)
      modifies this
      ensures checked == old(checked) && props == old(props)
      ensures !props.disabled && props.hasOnChange ==>
                first == Some(ChangeEvent(!old(checked), props.name, props.value)) &&
                second == Some(ChangeEvent(old(checked), props.name, props.value))
    {
      first := HandleClick();
      second := HandleClick();
    }
  }
}
