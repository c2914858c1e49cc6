/**
 * The tab selector component: a controlled `value` prop wins over the
 * internal selection, which only a change in the uncontrolled case moves;
 * triggers and contents compare their own value with the selection.
 */
module Tabs {
  import opened Wrappers
  import opened Text
  import opened Seqs

  /** `value || defaultValue || ''`: the first truthy one, else the empty string. */
  function InitialTabValue(value: Option<string>, defaultValue: Option<string>): (r: string)
    ensures Truthy(value) ==> r == value.value
    ensures !Truthy(value) && Truthy(defaultValue) ==> r == defaultValue.value
    ensures !Truthy(value) && !Truthy(defaultValue) ==> r == ""
  {
    if Truthy(value) then value.value else if Truthy(defaultValue) then defaultValue.value else ""
  }

  /** A callback the component invoked. */
  datatype Callback = ValueChange(newValue: string) | TriggerClicked

  const TriggerOutsideTabs := "TabsTrigger must be used within a Tabs component"
  const ContentOutsideTabs := "TabsContent must be used within a Tabs component"

  /** Whether a trigger is selected; `selection` is the enclosing selector's, `None` outside one. */
  function TriggerSelected(selection: Option<string>, triggerValue: string): (r: Result<bool, string>)
    ensures selection.None? <==> r.Err?
    ensures r.Err? ==> r.error == TriggerOutsideTabs
    ensures r.Ok? ==> (r.value <==> selection.value == triggerValue)
  {
    if selection.None? then Err(TriggerOutsideTabs) else Ok(selection.value == triggerValue)
  }

  /** Whether a content panel renders; outside a selector it throws. */
  function ContentRendered(selection: Option<string>, contentValue: string): (r: Result<bool, string>)
    ensures selection.None? <==> r.Err?
    ensures r.Err? ==> r.error == ContentOutsideTabs
    ensures r.Ok? ==> (r.value <==> selection.value == contentValue)
  {
    if selection.None? then Err(ContentOutsideTabs) else Ok(selection.value == contentValue)
  }

  /** Of panels with distinct values, exactly the one whose value is selected renders. */
  lemma {:induction false} OnePanelRendered(selection: string, panels: seq<string>, k: int)
    requires NoDuplicates(panels) && 0 <= k < |panels| && panels[k] == selection
    ensures ContentRendered(Some(selection), panels[k]) == Ok(true)
    ensures forall i :: 0 <= i < |panels| && i != k ==> ContentRendered(Some(selection), panels[i]) == Ok(false)
  {
    forall i | 0 <= i < |panels| && i != k
      ensures ContentRendered(Some(selection), panels[i]) == Ok(false)
    {
      if i < k {
        assert panels[i] != panels[k];
      } else {
        assert panels[k] != panels[i];
      }
    }
  }

  class TabsState {
    /** The `value` prop: `Some` when the selector is controlled. */
    var value: Option<string>
    const hasOnValueChange: bool
    var tabValue: string
    /** The callbacks invoked so far, in order. */
    var calls: seq<Callback>

    constructor (value: Option<string>, defaultValue: Option<string>, hasOnValueChange: bool)
      ensures this.value == value && this.hasOnValueChange == hasOnValueChange
      ensures tabValue == InitialTabValue(value, defaultValue) && calls == []
    {
      this.value := value;
      this.hasOnValueChange := hasOnValueChange;
      tabValue := InitialTabValue(value, defaultValue);
      calls := [];
    }

    /** The selection the children see: the controlled value when there is one, else the internal one. */
    function Selected(): string
      reads this
    {
      if value.Some? then value.value else tabValue
    }

    /** `handleValueChange`: moves the internal selection only when uncontrolled; always notifies a listener. */
    method HandleValueChange(newValue: string)
      modifies this
      ensures value == old(value)
      ensures old(value).None? ==> tabValue == newValue && Selected() == newValue
      ensures old(value).Some? ==> tabValue == old(tabValue) && Selected() == old(Selected())
      ensures calls == old(calls) + (if hasOnValueChange then [ValueChange(newValue)] else [])
    {
      if value.None? {
        tabValue := newValue;
      }
      if hasOnValueChange {
        calls := calls + [ValueChange(newValue)];
      }
    }

    /** A trigger's `handleClick`: the selector is told first, then the trigger's own handler runs. */
    method ClickTrigger(triggerValue: string, hasOnClick: bool)
      modifies this
      ensures value == old(value)
      ensures old(value).None? ==> Selected() == triggerValue
      ensures old(value).Some? ==> tabValue == old(tabValue)
      ensures calls == old(calls) + (if hasOnValueChange then [ValueChange(triggerValue)] else [])
                                  + (if hasOnClick then [TriggerClicked] else [])
    {
      HandleValueChange(triggerValue);
      if hasOnClick {
        calls := calls + [TriggerClicked];
      }
    }

    /** The parent passes a new `value` prop; the internal selection is not re-initialised. */
    method SetValue(value: Option<string>)
      modifies this
      ensures this.value == value && tabValue == old(tabValue) && calls == old(calls)
    {
      this.value := value;
    }
  }
}
