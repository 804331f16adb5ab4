/**
 * The searchable dropdown of the flow editor. Its local state is whether the
 * popover is open, whether the "create new option" dialog is open, the last
 * typed search term and the list of options on show; the selected value is
 * owned by the caller and changed only through the `onSelect` callback,
 * whose calls the model records in order. The fuzzy matcher is a parameter.
 */
module Dropdown {
  import opened Common

  /** The metadata of one option: its icon ("" when it has none) and the attributes listed under it. */
  datatype OptionMetadata = OptionMetadata(icon: string, attributes: map<string, string>)

  /** The props the component is rendered with. */
  datatype Props = Props(
    options: seq<string>,
    optionsMetaData: Option<seq<OptionMetadata>>,
    value: string,
    combobox: bool,
    disabled: bool,
    isLoading: bool,
    hasChildren: bool,
    name: string)

  /** One call of `onSelect`: the value passed and whether the call was flagged silent. */
  datatype Selection = Selection(value: string, silent: bool)

  /** The fuzzy matcher: given the options and a search term, the options it matches, in its own order. */
  type Matcher = (seq<string>, string) -> seq<string>

  predicate NoDuplicates(s: seq<string>) {
    forall i, j :: 0 <= i < j < |s| ==> s[i] != s[j]
  }

  // ---------------------------------------------------------------------------
  // The option list on show

  /**
   * The options on show after typing `term`: all options for an empty term,
   * otherwise what the matcher returned, followed in combobox mode by the
   * term itself when the matcher did not return it.
   */
  function TypedView(options: seq<string>, combobox: bool, term: string, matched: seq<string>): seq<string> {
    if term == "" then options
    else if combobox && term !in matched then matched + [term]
    else matched
  }

  /** What typing shows: everything for an empty term; else the matches, kept in order, then the term once. */
  lemma TypedViewContents(options: seq<string>, combobox: bool, term: string, matched: seq<string>)
    ensures term == "" ==> TypedView(options, combobox, term, matched) == options
    ensures term != "" ==> TypedView(options, combobox, term, matched)[..|matched|] == matched
    ensures term != "" && combobox ==> term in TypedView(options, combobox, term, matched)
    ensures term != "" && (!combobox || term in matched) ==> TypedView(options, combobox, term, matched) == matched
    ensures term != "" && combobox && term !in matched ==>
              TypedView(options, combobox, term, matched) == matched + [term]
  {
  }

  /**
   * The options on show when the popover opens, as the code computes them:
   * a copy of all options, plus the current value when it is the last typed
   * term (combobox mode only), even when that value is already an option.
   */
  function OpenedViewAsWritten(options: seq<string>, combobox: bool, value: string, customValue: string): (view: seq<string>)
    ensures |options| <= |view| <= |options| + 1
    ensures view[..|options|] == options
    ensures |view| == |options| + 1 <==> combobox && value != "" && customValue == value
    ensures |view| > |options| ==> view[|options|] == customValue
  {
    options + (if customValue == value && value != "" && combobox then [customValue] else [])
  }

  /** Typing an existing option, selecting it and reopening lists that option twice. */
  lemma OpenedViewAsWrittenDuplicates()
    ensures NoDuplicates(["Add", "Subtract"])
    ensures OpenedViewAsWritten(["Add", "Subtract"], true, "Add", "Add") == ["Add", "Subtract", "Add"]
    ensures !NoDuplicates(OpenedViewAsWritten(["Add", "Subtract"], true, "Add", "Add"))
  {
    var v := OpenedViewAsWritten(["Add", "Subtract"], true, "Add", "Add");
    assert v[0] == v[2];
  }

  /**
   * The options on show when the popover opens: all options, plus the
   * current value when it is a typed value that is not one of the options.
   */
  function OpenedView(options: seq<string>, combobox: bool, value: string, customValue: string): (view: seq<string>)
    ensures |options| <= |view| <= |options| + 1
    ensures view[..|options|] == options
    ensures |view| == |options| + 1 <==> combobox && value != "" && customValue == value && value !in options
    ensures |view| > |options| ==> view[|options|] == customValue
    ensures combobox && value != "" && customValue == value ==> value in view
    ensures NoDuplicates(options) ==> NoDuplicates(view)
  {
    options + (if customValue == value && value != "" && combobox && value !in options then [customValue] else [])
  }

  // ---------------------------------------------------------------------------
  // What the trigger and the rows show

  /** `findIndex(o => o === x)`: the first position of `x`, or -1. */
  function IndexOf(s: seq<string>, x: string): (i: int)
    ensures -1 <= i < |s|
    ensures i == -1 <==> x !in s
    ensures 0 <= i ==> s[i] == x && x !in s[..i]
  {
    if s == [] then -1
    else if s[0] == x then 0
    else
      var j := IndexOf(s[1..], x);
      if j == -1 then -1
      else
        assert s[..j + 1] == [s[0]] + s[1..][..j];
        j + 1
  }

  /** `optionsMetaData?.[i]?.icon`, taken as an icon only when it is a non-empty name. */
  function IconAt(metadata: Option<seq<OptionMetadata>>, i: int): (icon: Option<string>)
    ensures icon.Some? <==> metadata.Some? && 0 <= i < |metadata.value| && metadata.value[i].icon != ""
    ensures icon.Some? ==> icon.value == metadata.value[i].icon
  {
    if metadata.Some? && 0 <= i < |metadata.value| && metadata.value[i].icon != "" then
      Some(metadata.value[i].icon)
    else None
  }

  /** The trigger's icon as the code computes it: the metadata at the value's position in the options on show. */
  function TriggerIconAsWritten(value: string, filteredOptions: seq<string>, metadata: Option<seq<OptionMetadata>>): (icon: Option<string>)
    ensures value !in filteredOptions ==> icon == None
    ensures forall j :: 0 <= j < |filteredOptions| && filteredOptions[j] == value && value !in filteredOptions[..j] ==>
              icon == IconAt(metadata, j)
  {
    IconAt(metadata, IndexOf(filteredOptions, value))
  }

  /** Each row's icon in the icon layout, as the code computes it: the metadata at the row's position on show. */
  function RowIconsAsWritten(filteredOptions: seq<string>, metadata: Option<seq<OptionMetadata>>): (icons: seq<Option<string>>)
    ensures |icons| == |filteredOptions|
    ensures forall i :: 0 <= i < |filteredOptions| ==> icons[i] == IconAt(metadata, i)
  {
    seq(|filteredOptions|, i requires 0 <= i < |filteredOptions| => IconAt(metadata, i))
  }

  /**
   * The icon of an option: the icon in the metadata entry at the option's own
   * position among all options (the metadata is parallel to the options);
   * none when it is not an option or its entry is missing or has no icon.
   */
  function IconFor(option: string, options: seq<string>, metadata: Option<seq<OptionMetadata>>): (icon: Option<string>)
    ensures option !in options ==> icon == None
    ensures forall j :: 0 <= j < |options| && options[j] == option && option !in options[..j] ==>
              icon == IconAt(metadata, j)
    ensures icon.Some? ==>
              && metadata.Some?
              && (exists j :: 0 <= j < |options| && j < |metadata.value| &&
                              options[j] == option && metadata.value[j].icon == icon.value)
    ensures option in options && metadata.Some? && |metadata.value| == |options| ==>
              icon == (if metadata.value[IndexOf(options, option)].icon != ""
                       then Some(metadata.value[IndexOf(options, option)].icon) else None)
  {
    IconAt(metadata, IndexOf(options, option))
  }

  /** Each row's icon in the icon layout: the icon of the option the row shows. */
  function RowIcons(filteredOptions: seq<string>, options: seq<string>, metadata: Option<seq<OptionMetadata>>): (icons: seq<Option<string>>)
    ensures |icons| == |filteredOptions|
    ensures forall i :: 0 <= i < |filteredOptions| ==> icons[i] == IconFor(filteredOptions[i], options, metadata)
  {
    seq(|filteredOptions|, i requires 0 <= i < |filteredOptions| => IconFor(filteredOptions[i], options, metadata))
  }

  /**
   * After the search for "b" has narrowed ["a", "b"] down to ["b"], the code
   * shows the icon of "a" next to "b", on the trigger and on the row.
   */
  lemma IconAsWrittenMisaligned()
    ensures var metadata := Some([OptionMetadata("icon-a", map[]), OptionMetadata("icon-b", map[])]);
      && TriggerIconAsWritten("b", ["b"], metadata) == Some("icon-a")
      && RowIconsAsWritten(["b"], metadata) == [Some("icon-a")]
      && IconFor("b", ["a", "b"], metadata) == Some("icon-b")
      && RowIcons(["b"], ["a", "b"], metadata) == [Some("icon-b")]
  {
    var metadata := Some([OptionMetadata("icon-a", map[]), OptionMetadata("icon-b", map[])]);
    assert IndexOf(["a", "b"], "b") == 1;
    assert RowIcons(["b"], ["a", "b"], metadata)[0] == Some("icon-b");
  }

  /** The text on the trigger: the value when it is among the options on show, otherwise the placeholder. */
  function TriggerLabel(value: string, filteredOptions: seq<string>, placeholder: string): (shown: string)
    ensures shown == value || shown == placeholder
    ensures value != "" && value in filteredOptions ==> shown == value
    ensures value == "" || value !in filteredOptions ==> shown == placeholder
  {
    if value != "" && value in filteredOptions then filteredOptions[IndexOf(filteredOptions, value)] else placeholder
  }

  /** The placeholder: the formatted field name, or "Choose an option..." when the field has no name. */
  function Placeholder(name: string, formatPlaceholderName: string -> string): (placeholder: string)
    ensures name == "" ==> placeholder == "Choose an option..."
    ensures name != "" ==> placeholder == formatPlaceholderName(name)
  {
    if name != "" then formatPlaceholderName(name) else "Choose an option..."
  }

  /** What the trigger shows: an optional icon and a label. */
  datatype TriggerView = TriggerView(icon: Option<string>, text: string)

  /** What the component renders. */
  datatype View =
    | StatusText(text: string)             // no options and no free text: nothing to open
    | Popover(anchoredToChildren: bool)    // the popover, on the children or on the trigger button

  /** With no options and no free-text entry there is no popover, only a loading or an empty-state text. */
  function Render(p: Props): (view: View)
    ensures view.StatusText? <==> |p.options| == 0 && !p.combobox
    ensures view.StatusText? ==>
              view.text == (if p.isLoading then "Loading..." else "No parameters are available for display.")
    ensures view.Popover? ==> view.anchoredToChildren == p.hasChildren
  {
    if |p.options| == 0 && !p.combobox then
      StatusText(if p.isLoading then "Loading..." else "No parameters are available for display.")
    else Popover(p.hasChildren)
  }

  // ---------------------------------------------------------------------------
  // The component's state

  class DropdownState {
    var open: bool
    var openDialog: bool
    var customValue: string
    var filteredOptions: seq<string>
    /** The `disabled` prop the effect on `disabled` last ran with. */
    var lastDisabled: bool
    /** The calls made to `onSelect`, oldest first. */
    var selections: seq<Selection>

    /** Mounting: the initial state, then the two effects run once. */
    constructor (p: Props)
      ensures open == p.hasChildren && !openDialog && customValue == ""
      ensures filteredOptions == p.options
      ensures lastDisabled == p.disabled
      ensures selections == if p.disabled && p.value != "" then [Selection("", true)] else []
    {
      var calls: seq<Selection> := [];
      if p.disabled && p.value != "" {
        calls := calls + [Selection("", true)];
      }
      var filtered := p.options;
      if p.hasChildren {
        filtered := OpenedView(p.options, p.combobox, p.value, "");
      }
      open := p.hasChildren;
      openDialog := false;
      customValue := "";
      filteredOptions := filtered;
      lastDisabled := p.disabled;
      selections := calls;
    }

    /** A re-render with new props: the effect on `disabled` runs only when that prop changed. */
    method Rerender(p: Props)
      modifies this`lastDisabled, this`selections
      ensures lastDisabled == p.disabled
      ensures selections == old(selections) +
                (if p.disabled != old(lastDisabled) && p.disabled && p.value != "" then [Selection("", true)] else [])
    {
      if p.disabled != lastDisabled {
        lastDisabled := p.disabled;
        if p.disabled && p.value != "" {
          selections := selections + [Selection("", true)];
        }
      }
    }

    /** `setOpen(o)`, then the effect on `open`, which recomputes the options on show when the popover opens. */
    method SetOpen(o: bool, p: Props)
      modifies this`open, this`filteredOptions
      ensures open == o
      ensures filteredOptions ==
                if o && !old(open) then OpenedView(p.options, p.combobox, p.value, customValue) else old(filteredOptions)
    {
      if o != open {
        open := o;
        if open {
          var filtered := p.options;
          if customValue == p.value && p.value != "" && p.combobox && p.value !in p.options {
            filtered := filtered + [customValue];
          }
          filteredOptions := filtered;
        }
      }
    }

    /**
     * The popover asks to open or close (trigger click, outside click,
     * escape). Only a rendered popover can ask, a disabled trigger button
     * cannot ask to open, and a popover anchored to children stays as it is.
     */
    method OnOpenChange(o: bool, p: Props)
      requires Render(p).Popover?
      requires o && !p.hasChildren ==> !p.disabled
      modifies this`open, this`filteredOptions
      ensures open == if p.hasChildren then old(open) else o
      ensures filteredOptions ==
                if !p.hasChildren && o && !old(open) then OpenedView(p.options, p.combobox, p.value, customValue)
                else old(filteredOptions)
    {
      if !p.hasChildren {
        SetOpen(o, p);
      }
    }

    /** `searchRoleByTerm`: typing into the search box. */
    method SearchByTerm(term: string, p: Props, matcher: Matcher)
      modifies this`filteredOptions, this`customValue
      ensures filteredOptions == TypedView(p.options, p.combobox, term, matcher(p.options, term))
      ensures customValue == term
    {
      var filtered := matcher(p.options, term);
      if term !in filtered && p.combobox && term != "" {
        filtered := filtered + [term];
      }
      filteredOptions := if term != "" then filtered else p.options;
      customValue := term;
    }

    /** Choosing the row at `i`: `onSelect` with that option, then the popover closes. */
    method SelectItem(i: nat, p: Props)
      requires i < |filteredOptions|
      modifies this`selections, this`open, this`filteredOptions
      ensures selections == old(selections) + [Selection(old(filteredOptions)[i], false)]
      ensures !open && filteredOptions == old(filteredOptions)
    {
      selections := selections + [Selection(filteredOptions[i], false)];
      SetOpen(false, p);
    }

    /** The "New ..." action of the icon layout opens the creation dialog. */
    method ChooseNewOption()
      modifies this`openDialog
      ensures openDialog
    {
      openDialog := true;
    }

    /** The "Refresh list" action, which for now also only opens the creation dialog. */
    method ChooseRefreshList()
      modifies this`openDialog
      ensures openDialog
    {
      openDialog := true;
    }

    /** The creation dialog's close callback. */
    method CloseDialog()
      modifies this`openDialog
      ensures !openDialog
    {
      openDialog := false;
    }

    /** What the trigger shows for the current state. */
    function Trigger(p: Props, formatPlaceholderName: string -> string): (t: TriggerView)
      reads this
      ensures p.value != "" && p.value in filteredOptions ==> t.text == p.value
      ensures p.value == "" || p.value !in filteredOptions ==> t.text == Placeholder(p.name, formatPlaceholderName)
      ensures t.icon == IconFor(p.value, p.options, p.optionsMetaData)
      ensures t.icon.Some? ==> p.value in p.options
    {
      TriggerView(IconFor(p.value, p.options, p.optionsMetaData),
                  TriggerLabel(p.value, filteredOptions, Placeholder(p.name, formatPlaceholderName)))
    }
  }

  // ---------------------------------------------------------------------------
  // Scenarios over several events

  /**
   * Disabling a dropdown whose value is set clears it once, silently; a
   * further render while still disabled calls nothing.
   */
  method DisableClearsOnce(p: Props) returns (calls: seq<Selection>)
    requires !p.disabled
    ensures calls == if p.value != "" then [Selection("", true)] else []
  {
    var d := new DropdownState(p);
    var disabledProps := p.(disabled := true);
    d.Rerender(disabledProps);
    d.Rerender(disabledProps);
    calls := d.selections;
  }

  /**
   * Opening always rebuilds the options on show from all options: after a
   * search, closing and opening twice shows the same list both times.
   */
  method ReopenIsIdempotent(p: Props, term: string, matcher: Matcher) returns (first: seq<string>, second: seq<string>)
    requires !p.hasChildren
    ensures first == second == OpenedView(p.options, p.combobox, p.value, term)
  {
    var d := new DropdownState(p);
    d.SetOpen(true, p);
    d.SearchByTerm(term, p, matcher);
    d.SetOpen(false, p);
    d.SetOpen(true, p);
    first := d.filteredOptions;
    d.SetOpen(false, p);
    d.SetOpen(true, p);
    second := d.filteredOptions;
  }

  /**
   * In combobox mode a typed term the matcher does not return is offered
   * last, and choosing it passes exactly that term to `onSelect`.
   */
  method TypeAndSelectNewValue(p: Props, term: string, matcher: Matcher) returns (calls: seq<Selection>, isOpen: bool)
    requires p.combobox && !p.disabled && !p.hasChildren && term != "" && term !in matcher(p.options, term)
    ensures calls == [Selection(term, false)] && !isOpen
  {
    var d := new DropdownState(p);
    d.OnOpenChange(true, p);
    d.SearchByTerm(term, p, matcher);
    d.SelectItem(|d.filteredOptions| - 1, p);
    calls, isOpen := d.selections, d.open;
  }

  /**
   * The label is decided by the options on show: after a search whose
   * matches leave out the selected option, the trigger shows the
   * placeholder although the value is one of the options.
   */
  method SearchHidesSelectedValue(p: Props, term: string, matcher: Matcher, formatPlaceholderName: string -> string)
    returns (t: TriggerView)
    requires p.value in p.options && term != "" && p.value != term && p.value !in matcher(p.options, term)
    ensures t.text == Placeholder(p.name, formatPlaceholderName)
  {
    var d := new DropdownState(p);
    d.SearchByTerm(term, p, matcher);
    t := d.Trigger(p, formatPlaceholderName);
  }
}
