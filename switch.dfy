/**
 * The toggle switch: a checkbox that is either controlled by its `checked`
 * prop or keeps its own state, forwards every change to its caller, and
 * derives its id and its state attributes.
 */
module SwitchControl {
  import opened Wrappers
  import opened JsStrings

  const IdPrefix: string := "switch-"

  /** The input's id: the `id` prop unless it is missing or empty, else the
      prefix followed by the generated id. */
  function SwitchId(id: Option<string>, generatedId: string): (r: string)
    ensures r != ""
    ensures PropText(id) != "" ==> r == id.value
    ensures PropText(id) == "" ==>
      |r| == |IdPrefix| + |generatedId| && r[..|IdPrefix|] == IdPrefix && r[|IdPrefix|..] == generatedId
  {
    Or(PropText(id), IdPrefix + generatedId)
  }

  /** The internal state's starting value, `defaultChecked || false`. */
  function InitialChecked(defaultChecked: Option<bool>): (r: bool)
    ensures r <==> defaultChecked == Some(true)
  {
    defaultChecked.GetOr(false)
  }

  /** The `aria-checked` attribute. */
  function AriaChecked(checked: bool): (s: string)
    ensures s == "true" || s == "false"
    ensures s == "true" <==> checked
  {
    if checked then "true" else "false"
  }

  /** The thumb's `data-state` attribute. */
  function DataState(checked: bool): (s: string)
    ensures s == "checked" || s == "unchecked"
    ensures s == "checked" <==> checked
  {
    if checked then "checked" else "unchecked"
  }

  /** Both attributes report the displayed state, and they always agree. */
  lemma StateAttributesAgree(checked: bool)
    ensures AriaChecked(checked) == "true" <==> checked
    ensures DataState(checked) == "checked" <==> checked
    ensures AriaChecked(checked) == "true" <==> DataState(checked) == "checked"
  {
  }

  class Switch {
    /** The `checked` prop: `None` when the switch is uncontrolled. */
    var checked: Option<bool>
    var internalChecked: bool
    /** The `checked` values handed to the caller's `onChange`, in order. */
    var forwarded: seq<bool>

    function IsControlled(): (r: bool)
      reads this`checked
      ensures r <==> checked != None
    {
      checked.Some?
    }

    /** The displayed state: the prop when controlled, the internal state otherwise. */
    function IsChecked(): (r: bool)
      reads this`checked, this`internalChecked
      ensures IsControlled() ==> r == checked.value
      ensures !IsControlled() ==> r == internalChecked
    {
      if IsControlled() then checked.value else internalChecked
    }

    constructor (checked: Option<bool>, defaultChecked: Option<bool>)
      ensures this.checked == checked && forwarded == []
      ensures internalChecked == InitialChecked(defaultChecked)
      ensures IsChecked() == if checked.Some? then checked.value else defaultChecked == Some(true)
    {
      this.checked := checked;
      internalChecked := InitialChecked(defaultChecked);
      forwarded := [];
    }

    /** A change event with the input's new `checked` value: an uncontrolled
        switch takes it, a controlled one keeps showing its prop; the caller
        is told either way. */
    method HandleChange(target: bool)
      modifies this`internalChecked, this`forwarded
      ensures internalChecked == if IsControlled() then old(internalChecked) else target
      ensures forwarded == old(forwarded) + [target]
      ensures IsChecked() == if IsControlled() then old(IsChecked()) else target
    {
      if !IsControlled() {
        internalChecked := target;
      }
      forwarded := forwarded + [target];
    }

    /** A new `checked` prop; the internal state is kept as it was. */
    method SetCheckedProp(checked: Option<bool>)
      modifies this`checked
      ensures this.checked == checked
      ensures IsChecked() == if checked.Some? then checked.value else internalChecked
    {
      this.checked := checked;
    }
  }
}
