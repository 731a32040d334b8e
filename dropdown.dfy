/**
 * The filterable select used for the three facets
 * (`src/components/SearchableDropdown.js`): the options matching the typed
 * filter, the option shown as selected, and the open/filter state the click
 * handlers change.
 */
module Dropdown {
  import opened Wrappers
  import opened Text
  import opened Seqs

  /** One entry of the list: `{ value, label }`, the label being `caption` here. */
  datatype Choice = Choice(value: string, caption: string)

  /** An option is shown when its label contains the filter text, ignoring case. */
  predicate LabelMatches(o: Choice, filterText: string) {
    Includes(Lower(o.caption), Lower(filterText))
  }

  function MatchesFilter(filterText: string): Choice -> bool {
    o => LabelMatches(o, filterText)
  }

  /** `options.filter(...)`: the options whose label contains the filter text, ignoring case. */
  function FilteredOptions(options: seq<Choice>, filterText: string): seq<Choice> {
    Filter(options, MatchesFilter(filterText))
  }

  /**
   * An option is listed exactly when it is one of `options` and its label
   * contains the filter text, ignoring case; the list keeps the order of
   * `options`, and an empty filter lists every option.
   */
  lemma FilteredOptionsSpec(options: seq<Choice>, filterText: string)
    ensures forall o :: o in FilteredOptions(options, filterText) <==> o in options && LabelMatches(o, filterText)
    ensures forall a, b :: FilteredOptions(a + b, filterText) == FilteredOptions(a, filterText) + FilteredOptions(b, filterText)
    ensures filterText == "" ==> FilteredOptions(options, filterText) == options
  {
    forall a, b ensures FilteredOptions(a + b, filterText) == FilteredOptions(a, filterText) + FilteredOptions(b, filterText) {
      FilterAppend(a, b, MatchesFilter(filterText));
    }
    if filterText == "" {
      forall o | o in options ensures MatchesFilter(filterText)(o) {
        IncludesEmpty(Lower(o.caption));
      }
      FilterKeepsAll(options, MatchesFilter(filterText));
    }
  }

  /** `options.find(o => o.value === value)`: the first option carrying `value`, if any. */
  function SelectedOption(options: seq<Choice>, value: string): (r: Option<Choice>)
    ensures r.None? <==> forall i :: 0 <= i < |options| ==> options[i].value != value
    ensures r.Some? ==> exists i :: 0 <= i < |options| && options[i] == r.value && r.value.value == value &&
                                    forall j :: 0 <= j < i ==> options[j].value != value
  {
    if options == [] then None
    else if options[0].value == value then Some(options[0])
    else
      var r := SelectedOption(options[1..], value);
      assert forall i :: 1 <= i < |options| ==> options[i] == options[1..][i - 1];
      r
  }

  /** The header text: the selected option's label, or the placeholder. */
  function HeaderText(options: seq<Choice>, value: string, placeholder: string): (r: string)
    ensures (forall i :: 0 <= i < |options| ==> options[i].value != value) ==> r == placeholder
    ensures (exists i :: 0 <= i < |options| && options[i].value == value) ==>
      exists i :: 0 <= i < |options| && options[i].value == value && r == options[i].caption &&
                  forall j :: 0 <= j < i ==> options[j].value != value
  {
    match SelectedOption(options, value)
    case Some(o) => o.caption
    case None => placeholder
  }

  /** The component's own state: whether the list is open and the typed filter. */
  class Dropdown {
    var isOpen: bool
    var filterText: string

    constructor ()
      ensures !isOpen && filterText == ""
    {
      isOpen, filterText := false, "";
    }

    /** A click on the header opens or closes the list, unless the control is disabled. */
    method ClickHeader(disabled: bool)
      modifies this
      ensures isOpen == (if disabled then old(isOpen) else !old(isOpen))
      ensures filterText == old(filterText)
    {
      if !disabled {
        isOpen := !isOpen;
      }
    }

    /** Typing in the filter box (rendered only while open). */
    method TypeFilter(text: string)
      requires isOpen
      modifies this
      ensures isOpen && filterText == text
    {
      filterText := text;
    }

    /** A mousedown outside the component closes it; the typed filter is kept. */
    method ClickOutside()
      modifies this
      ensures !isOpen && filterText == old(filterText)
    {
      isOpen := false;
    }

    /**
     * Clicking a listed option: `onChange(opt.value)` is reported as `chosen`,
     * the list closes and the filter is cleared.
     */
    method Pick(options: seq<Choice>, opt: Choice) returns (chosen: string)
      requires isOpen && opt in FilteredOptions(options, filterText)
      modifies this
      ensures chosen == opt.value
      ensures !isOpen && filterText == ""
    {
      chosen := opt.value;
      isOpen := false;
      filterText := "";
    }
  }
}
