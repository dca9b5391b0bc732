/**
 * The accordion: one shared `expanded` value naming the open item, if
 * any; each item's trigger toggles it and each item's content is shown
 * only while it names that item.
 */
module Accordion {
  import opened Common

  /** What an item hands to its trigger and content: its value and whether it is disabled. */
  datatype ItemContext = ItemContext(value: string, disabled: bool)

  const TriggerOutsideMessage: string := "AccordionTrigger must be used within an AccordionItem"
  const ContentOutsideMessage: string := "AccordionContent must be used within an AccordionItem"

  /** A part as rendered, or the error rendering it throws. */
  datatype Rendered<T> = Shown(view: T) | Threw(message: string)

  /** The attributes of a trigger button that the model follows. */
  datatype TriggerView = TriggerView(ariaExpanded: bool, controls: string, id: string)

  /** The attributes of a content panel that the model follows. */
  datatype ContentView = ContentView(id: string, labelledBy: string, hidden: bool)

  /** The starting value: `defaultValue || null`, so an empty default opens nothing. */
  function InitialExpanded(defaultValue: Option<string>): (r: Option<string>)
    ensures r.Some? <==> defaultValue.Some? && defaultValue.value != ""
    ensures r.Some? ==> r == defaultValue
  {
    if defaultValue.Some? && defaultValue.value != "" then defaultValue else None
  }

  /** The update a click on an enabled item applies to `expanded`. */
  function ClickUpdate(current: Option<string>, value: string): (r: Option<string>)
    ensures r == Some(value) <==> current != Some(value)
    ensures r != Some(value) ==> r == None
  {
    if current == Some(value) then None else Some(value)
  }

  /** `AccordionTrigger`: it throws outside an item, and otherwise points at its item's content. */
  function Trigger(expanded: Option<string>, item: Option<ItemContext>): (r: Rendered<TriggerView>)
    ensures item.None? <==> r == Threw(TriggerOutsideMessage)
    ensures item.Some? ==> r.Shown? && (r.view.ariaExpanded <==> expanded == Some(item.value.value))
  {
    if item.None? then Threw(TriggerOutsideMessage)
    else
      var value := item.value.value;
      Shown(TriggerView(expanded == Some(value), "content-" + value, "trigger-" + value))
  }

  /** `AccordionContent`: it throws outside an item, and is hidden unless its item is the expanded one. */
  function Content(expanded: Option<string>, item: Option<ItemContext>): (r: Rendered<ContentView>)
    ensures item.None? <==> r == Threw(ContentOutsideMessage)
    ensures item.Some? ==> r.Shown? && (r.view.hidden <==> expanded != Some(item.value.value))
  {
    if item.None? then Threw(ContentOutsideMessage)
    else
      var value := item.value.value;
      Shown(ContentView("content-" + value, "trigger-" + value, expanded != Some(value)))
  }

  /**
   * Within one item, the trigger controls the content and the content is
   * labelled by the trigger, and the content is shown exactly when the
   * trigger says it is expanded.
   */
  lemma TriggerAndContentAgree(expanded: Option<string>, item: ItemContext)
    ensures Trigger(expanded, Some(item)).view.controls == Content(expanded, Some(item)).view.id
    ensures Content(expanded, Some(item)).view.labelledBy == Trigger(expanded, Some(item)).view.id
    ensures Content(expanded, Some(item)).view.hidden <==> !Trigger(expanded, Some(item)).view.ariaExpanded
  {
  }

  /** Two items with different values are never shown together. */
  lemma AtMostOneShown(expanded: Option<string>, a: ItemContext, b: ItemContext)
    requires a.value != b.value
    ensures Content(expanded, Some(a)).view.hidden || Content(expanded, Some(b)).view.hidden
  {
  }

  /** Two items whose values differ get different ids, so each trigger controls its own content. */
  lemma DistinctItemsDistinctIds(expanded: Option<string>, a: ItemContext, b: ItemContext)
    requires a.value != b.value
    ensures Content(expanded, Some(a)).view.id != Content(expanded, Some(b)).view.id
  {
    assert ("content-" + a.value)[8..] == a.value;
    assert ("content-" + b.value)[8..] == b.value;
  }

  /** `AccordionItem`'s `data-state` as written: it reads the item's value, not whether the item is open. */
  function ItemDataStateAsWritten(value: string): string {
    if value != "" then "open" else "closed"
  }

  /** An item that is not open is still marked "open". */
  lemma ClosedItemMarkedOpen()
    ensures Content(None, Some(ItemContext("faq", false))).view.hidden
    ensures ItemDataStateAsWritten("faq") == "open"
  {
  }

  /** The `data-state` the item's name means: "open" exactly while its content is shown. */
  function ItemDataState(expanded: Option<string>, value: string): (r: string)
    ensures r == "open" <==> !Content(expanded, Some(ItemContext(value, false))).view.hidden
    ensures r == "open" || r == "closed"
  {
    if expanded == Some(value) then "open" else "closed"
  }

  /** The accordion's shared state. */
  class AccordionState {
    var expanded: Option<string>

    constructor (defaultValue: Option<string>)
      ensures expanded == InitialExpanded(defaultValue)
    {
      expanded := InitialExpanded(defaultValue);
    }

    /**
     * `handleClick` of an item's trigger: a disabled item changes nothing;
     * otherwise the item closes if it was the open one and opens, closing
     * any other, if it was not.
     */
    method Click(item: ItemContext)
      modifies this
      ensures item.disabled ==> expanded == old(expanded)
      ensures !item.disabled ==> expanded == ClickUpdate(old(expanded), item.value)
      ensures !item.disabled ==> (expanded == Some(item.value) <==> old(expanded) != Some(item.value))
      ensures !item.disabled ==> forall other :: other != item.value ==> expanded != Some(other)
    {
      if item.disabled {
        return;
      }
      expanded := ClickUpdate(expanded, item.value);
    }
  }

  /** Two clicks on the same enabled item: an item that was open is open again, otherwise every item ends closed. */
  lemma ClickTwiceCloses(current: Option<string>, value: string)
    ensures ClickUpdate(ClickUpdate(current, value), value) == if current == Some(value) then Some(value) else None
  {
  }
}
