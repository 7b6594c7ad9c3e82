/**
 * The selection logic of CustomCombobox: static and dynamically created
 * options, single- and multi-select, the dropdown filter, creation of new
 * options and the searchable / read-only flags. Options are value records
 * in two sequence fields (see README, "Left out", for shared option objects).
 * Painting, layout, badges and the dropdown's panels are not modelled.
 */
module Combobox {
  import opened Wrappers
  import opened Text
  import opened Seqs

  /** From this many options on, a single-select combobox becomes searchable. */
  const SearchThreshold: nat := 10

  datatype ComboboxOption = ComboboxOption(value: string, labelText: string, selected: bool)

  /** The keys OnInputKeyDown reacts to. */
  datatype Key = Enter | Escape | OtherKey

  /** The values of the selected options, in list order. */
  function SelectedValuesOf(opts: seq<ComboboxOption>): (vs: seq<string>)
    ensures |vs| <= |opts|
    ensures forall i :: 0 <= i < |opts| && opts[i].selected ==> opts[i].value in vs
    ensures forall v :: v in vs ==> exists i :: 0 <= i < |opts| && opts[i].selected && opts[i].value == v
  {
    if opts == [] then []
    else if opts[0].selected then [opts[0].value] + SelectedValuesOf(opts[1..])
    else SelectedValuesOf(opts[1..])
  }

  /** The selected values of two lists together: those of the first list, then those of the second. */
  lemma {:induction false} SelectedValuesAppend(a: seq<ComboboxOption>, b: seq<ComboboxOption>)
    ensures SelectedValuesOf(a + b) == SelectedValuesOf(a) + SelectedValuesOf(b)
  {
    if a == [] {
      assert a + b == b;
    } else {
      assert (a + b)[0] == a[0];
      assert (a + b)[1..] == a[1..] + b;
      SelectedValuesAppend(a[1..], b);
    }
  }

  /** Some option carries `v` as its value. */
  predicate HasValue(opts: seq<ComboboxOption>, v: string) {
    exists i :: 0 <= i < |opts| && opts[i].value == v
  }

  /** Some option's value equals `v` ignoring case. */
  predicate HasValueIgnoringCase(opts: seq<ComboboxOption>, v: string) {
    exists i :: 0 <= i < |opts| && EqualsIgnoreCase(opts[i].value, v)
  }

  /** A list whose last option has value `v` has `v` ignoring case. */
  lemma LastValueFound(opts: seq<ComboboxOption>, v: string)
    requires opts != [] && opts[|opts| - 1].value == v
    ensures HasValueIgnoringCase(opts, v)
  {
    assert EqualsIgnoreCase(opts[|opts| - 1].value, v);
  }

  /** Each option selected iff its value is in `vs`; values and labels untouched. */
  function Marked(opts: seq<ComboboxOption>, vs: seq<string>): (r: seq<ComboboxOption>)
    ensures |r| == |opts|
    ensures forall i :: 0 <= i < |r| ==>
      r[i].value == opts[i].value && r[i].labelText == opts[i].labelText && (r[i].selected <==> opts[i].value in vs)
  {
    seq(|opts|, i requires 0 <= i < |opts| => opts[i].(selected := opts[i].value in vs))
  }

  /** Marking two lists one after the other is marking their concatenation. */
  lemma MarkedAppend(a: seq<ComboboxOption>, b: seq<ComboboxOption>, vs: seq<string>)
    ensures Marked(a + b, vs) == Marked(a, vs) + Marked(b, vs)
  {
  }

  /** After marking, exactly the values in `vs` that some option carries are selected. */
  lemma MarkedSelection(opts: seq<ComboboxOption>, vs: seq<string>, v: string)
    ensures v in SelectedValuesOf(Marked(opts, vs)) <==> v in vs && HasValue(opts, v)
  {
    var r := Marked(opts, vs);
    if v in vs && HasValue(opts, v) {
      var i :| 0 <= i < |opts| && opts[i].value == v;
      assert r[i].selected;
    }
  }

  /** MarkedSelection for every value at once. */
  lemma MarkedSelections(opts: seq<ComboboxOption>, vs: seq<string>)
    ensures forall v :: v in SelectedValuesOf(Marked(opts, vs)) <==> v in vs && HasValue(opts, v)
  {
    forall v ensures v in SelectedValuesOf(Marked(opts, vs)) <==> v in vs && HasValue(opts, v) {
      MarkedSelection(opts, vs, v);
    }
  }

  /** Single-select exclusivity: marking with one value leaves that value, and nothing else, selected. */
  lemma {:induction false} ExclusiveSelection(opts: seq<ComboboxOption>, v: string)
    ensures forall x :: x in SelectedValuesOf(Marked(opts, [v])) ==> x == v
    ensures HasValue(opts, v) ==> SelectedValuesOf(Marked(opts, [v])) != [] && SelectedValuesOf(Marked(opts, [v]))[0] == v
  {
    MarkedSelection(opts, [v], v);
    var s := SelectedValuesOf(Marked(opts, [v]));
    if s != [] {
      MarkedSelection(opts, [v], s[0]);
    }
  }

  /** Marking with no values clears every selection. */
  lemma MarkedNothing(opts: seq<ComboboxOption>)
    ensures SelectedValuesOf(Marked(opts, [])) == []
  {
    var s := SelectedValuesOf(Marked(opts, []));
    if s != [] {
      MarkedSelection(opts, [], s[0]);
    }
  }

  /** The foreach loop of the SelectedValues setter and of single-select: `option.Selected = values.Contains(option.Value)`. */
  method MarkOptions(opts: seq<ComboboxOption>, vs: seq<string>) returns (r: seq<ComboboxOption>)
    ensures r == Marked(opts, vs)
  {
    r := opts;
    var i := 0;
    while i < |r|
      invariant 0 <= i <= |r| == |opts|
      invariant forall j :: 0 <= j < i ==> r[j] == opts[j].(selected := opts[j].value in vs)
      invariant forall j :: i <= j < |r| ==> r[j] == opts[j]
    {
      r := r[i := r[i].(selected := r[i].value in vs)];
      i := i + 1;
    }
  }

  /** The first selected option, if any (`FirstOrDefault(o => o.Selected)`). */
  function FirstSelected(opts: seq<ComboboxOption>): (o: Option<ComboboxOption>)
    ensures o.Some? ==> o.value in opts && o.value.selected
    ensures o.None? <==> forall i :: 0 <= i < |opts| ==> !opts[i].selected
    ensures o.Some? ==> exists i :: 0 <= i < |opts| && opts[i] == o.value && forall j :: 0 <= j < i ==> !opts[j].selected
  {
    if opts == [] then None
    else if opts[0].selected then Some(opts[0])
    else
      var rest := FirstSelected(opts[1..]);
      if rest.Some? then
        var i :| 0 <= i < |opts[1..]| && opts[1..][i] == rest.value && forall j :: 0 <= j < i ==> !opts[1..][j].selected;
        assert opts[i + 1] == rest.value;
        rest
      else rest
  }

  /** What the single-select input box shows: the first selected label, or nothing. */
  function DisplayText(opts: seq<ComboboxOption>): (t: string)
    ensures FirstSelected(opts).None? ==> t == ""
    ensures FirstSelected(opts).Some? ==> t == FirstSelected(opts).value.labelText
  {
    match FirstSelected(opts)
    case Some(o) => o.labelText
    case None => ""
  }

  /** An option matches an already lower-cased search text through its label or its value. */
  predicate OptionMatches(o: ComboboxOption, query: string) {
    Contains(ToLower(o.labelText), query) || Contains(ToLower(o.value), query)
  }

  /** The label of a created option: its value with the first character upper-cased. */
  function CapitalizedLabel(v: string): (l: string)
    requires v != []
    ensures |l| == |v| && l[0] == ToUpperChar(v[0]) && l[1..] == v[1..]
  {
    [ToUpperChar(v[0])] + v[1..]
  }

  /** The option CreateNewOption adds for `value`: selected, labelled with the value capitalised. */
  function CreatedOption(value: string): (o: ComboboxOption)
    requires value != []
    ensures o.value == value && o.selected && o.labelText == CapitalizedLabel(value)
  {
    ComboboxOption(value, CapitalizedLabel(value), true)
  }

  class CustomCombobox {
    var options: seq<ComboboxOption>
    var dynamicOptions: seq<ComboboxOption>
    var multiple: bool
    var searchable: bool
    var creatable: bool
    var isDropdownOpen: bool
    /** The text of the input box. */
    var inputText: string
    var inputReadOnly: bool
    /** The argument of every SelectionChanged event raised so far. */
    ghost var selectionChanged: seq<seq<string>>

    /** The state InitializeCustomCombobox leaves: no options, single-select, not searchable, read-only input. */
    constructor ()
      ensures options == [] && dynamicOptions == []
      ensures !multiple && !searchable && !creatable && !isDropdownOpen
      ensures inputText == "" && inputReadOnly
      ensures selectionChanged == []
    {
      options := [];
      dynamicOptions := [];
      multiple := false;
      creatable := false;
      isDropdownOpen := false;
      inputText := "";
      selectionChanged := [];
      searchable := false;
      inputReadOnly := true;
      new;
      UpdateSearchableState();
    }

    /** The static options followed by the created ones (`_options.Concat(_dynamicOptions)`). */
    function AllOptions(): seq<ComboboxOption>
      reads this
    {
      options + dynamicOptions
    }

    /** `SelectedValues` getter: the selected static values, then the selected created values, each in list order. */
    function SelectedValues(): (vs: seq<string>)
      reads this
      ensures vs == SelectedValuesOf(options) + SelectedValuesOf(dynamicOptions)
      ensures vs == SelectedValuesOf(AllOptions())
    {
      SelectedValuesAppend(options, dynamicOptions);
      SelectedValuesOf(AllOptions())
    }

    /** `SelectedValue` getter: the first selected value, or the empty string. */
    function SelectedValue(): (v: string)
      reads this
      ensures SelectedValues() == [] ==> v == ""
      ensures SelectedValues() != [] ==> v == SelectedValues()[0]
    {
      var vs := SelectedValues();
      if vs == [] then "" else vs[0]
    }

    /**
     * `FilterOptions`: in multi-select the selected options are dropped; then,
     * when searchable and the lower-cased input is not blank, only the options
     * whose lower-cased label or value contains it are kept. Order is kept.
     */
    function FilterOptions(opts: seq<ComboboxOption>): (r: seq<ComboboxOption>)
      reads this
      ensures |r| <= |opts|
      ensures forall i :: 0 <= i < |r| ==> r[i] in opts
      ensures multiple ==> forall i :: 0 <= i < |r| ==> !r[i].selected
      ensures searchable && !IsNullOrWhiteSpace(ToLower(inputText)) ==>
        forall i :: 0 <= i < |r| ==> OptionMatches(r[i], ToLower(inputText))
      ensures forall i :: 0 <= i < |opts| && (!multiple || !opts[i].selected) &&
                (!searchable || IsNullOrWhiteSpace(ToLower(inputText)) || OptionMatches(opts[i], ToLower(inputText)))
                ==> opts[i] in r
    {
      var searchText := ToLower(inputText);
      var candidates := if multiple then Filter(opts, (o: ComboboxOption) => !o.selected) else opts;
      if searchable && !IsNullOrWhiteSpace(searchText) then
        Filter(candidates, (o: ComboboxOption) => OptionMatches(o, searchText))
      else candidates
    }

    /** FilterOptions keeps order: filtering a concatenation is concatenating the filtered parts. */
    lemma {:induction false} FilterOptionsPreservesOrder(a: seq<ComboboxOption>, b: seq<ComboboxOption>)
      ensures FilterOptions(a + b) == FilterOptions(a) + FilterOptions(b)
    {
      var searchText := ToLower(inputText);
      var unselected := (o: ComboboxOption) => !o.selected;
      var matching := (o: ComboboxOption) => OptionMatches(o, searchText);
      if multiple {
        FilterAppend(a, b, unselected);
        if searchable && !IsNullOrWhiteSpace(searchText) {
          FilterAppend(Filter(a, unselected), Filter(b, unselected), matching);
        }
      } else if searchable && !IsNullOrWhiteSpace(searchText) {
        FilterAppend(a, b, matching);
      }
    }

    /** `UpdateInputState`: the input is read-only unless searchable or creatable. */
    method UpdateInputState()
      modifies this`inputReadOnly
      ensures inputReadOnly == (!searchable && !creatable)
    {
      inputReadOnly := !searchable && !creatable;
    }

    /** `UpdateSearchableState`: searchable iff multi-select or at least SearchThreshold static options. */
    method UpdateSearchableState()
      modifies this`searchable, this`inputReadOnly
      ensures searchable == (multiple || |options| >= SearchThreshold)
      ensures inputReadOnly == (!searchable && !creatable)
    {
      searchable := multiple || |options| >= SearchThreshold;
      UpdateInputState();
    }

    /** `Options` setter: a null list (`None`) stands for no options. */
    method SetOptions(opts: Option<seq<ComboboxOption>>)
      modifies this
      ensures options == opts.GetOr([]) && dynamicOptions == old(dynamicOptions)
      ensures searchable == (multiple || |options| >= SearchThreshold)
      ensures inputReadOnly == (!searchable && !creatable)
      ensures multiple == old(multiple) && creatable == old(creatable) && inputText == old(inputText)
      ensures isDropdownOpen == old(isDropdownOpen) && selectionChanged == old(selectionChanged)
    {
      options := if opts.Some? then opts.value else [];
      UpdateSearchableState();
    }

    /** `Multiple` setter. */
    method SetMultiple(b: bool)
      modifies this
      ensures multiple == b && searchable == (b || |options| >= SearchThreshold)
      ensures inputReadOnly == (!searchable && !creatable)
      ensures options == old(options) && dynamicOptions == old(dynamicOptions)
      ensures creatable == old(creatable) && inputText == old(inputText)
      ensures isDropdownOpen == old(isDropdownOpen) && selectionChanged == old(selectionChanged)
    {
      multiple := b;
      UpdateSearchableState();
    }

    /** `Searchable` setter: overrides the derived flag until the next UpdateSearchableState. */
    method SetSearchable(b: bool)
      modifies this
      ensures searchable == b && inputReadOnly == (!b && !creatable)
      ensures options == old(options) && dynamicOptions == old(dynamicOptions)
      ensures multiple == old(multiple) && creatable == old(creatable) && inputText == old(inputText)
      ensures isDropdownOpen == old(isDropdownOpen) && selectionChanged == old(selectionChanged)
    {
      searchable := b;
      UpdateInputState();
    }

    /** `Creatable` setter: stores the flag only; the read-only state is NOT refreshed. */
    method SetCreatable(b: bool)
      modifies this
      ensures creatable == b && inputReadOnly == old(inputReadOnly) && searchable == old(searchable)
      ensures options == old(options) && dynamicOptions == old(dynamicOptions)
      ensures multiple == old(multiple) && inputText == old(inputText)
      ensures isDropdownOpen == old(isDropdownOpen) && selectionChanged == old(selectionChanged)
    {
      creatable := b;
    }

    /** `UpdateSelectedDisplay`: in single-select the input shows the first selected label, or is cleared. */
    method UpdateSelectedDisplay()
      modifies this`inputText
      ensures !multiple ==> inputText == DisplayText(AllOptions())
      ensures multiple ==> inputText == old(inputText)
    {
      if multiple {
        return;
      }
      var selected := FirstSelected(options + dynamicOptions);
      if selected.Some? {
        inputText := selected.value.labelText;
      } else {
        inputText := "";
      }
    }

    /** `CloseDropdown`. */
    method CloseDropdown()
      modifies this`isDropdownOpen, this`inputText
      ensures !isDropdownOpen
      ensures !multiple ==> inputText == DisplayText(AllOptions())
      ensures multiple ==> inputText == old(inputText)
    {
      isDropdownOpen := false;
      UpdateSelectedDisplay();
    }

    /** `OnInputTextChanged`: the user edited the input text (the dropdown is redrawn, which is not modelled). */
    method OnInputTextChanged(text: string)
      modifies this`inputText
      ensures inputText == text
    {
      inputText := text;
    }

    /** The foreach over `_options.Concat(_dynamicOptions)`: each option selected iff its value is in `vs`. */
    method MarkAll(vs: seq<string>)
      modifies this`options, this`dynamicOptions
      ensures options == Marked(old(options), vs) && dynamicOptions == Marked(old(dynamicOptions), vs)
      ensures AllOptions() == Marked(old(AllOptions()), vs)
    {
      ghost var staticBefore, dynamicBefore := options, dynamicOptions;
      options := MarkOptions(options, vs);
      dynamicOptions := MarkOptions(dynamicOptions, vs);
      MarkedAppend(staticBefore, dynamicBefore, vs);
    }

    /** `option.Selected = b` for the option at position `k` of AllOptions(). */
    method SetSelectedAt(k: nat, b: bool)
      requires k < |options| + |dynamicOptions|
      modifies this`options, this`dynamicOptions
      ensures AllOptions() == old(AllOptions())[k := old(AllOptions())[k].(selected := b)]
      ensures |options| == |old(options)| && |dynamicOptions| == |old(dynamicOptions)|
    {
      if k < |options| {
        options := options[k := options[k].(selected := b)];
      } else {
        var d := k - |options|;
        dynamicOptions := dynamicOptions[d := dynamicOptions[d].(selected := b)];
      }
    }

    /**
     * Single-select's `opt.Selected = opt.Value == value` over all options,
     * followed by CloseDropdown: `value` becomes the selected value.
     */
    method SelectOnly(value: string)
      requires HasValue(AllOptions(), value)
      modifies this`options, this`dynamicOptions, this`isDropdownOpen, this`inputText
      ensures options == Marked(old(options), [value]) && dynamicOptions == Marked(old(dynamicOptions), [value])
      ensures AllOptions() == Marked(old(AllOptions()), [value])
      ensures SelectedValue() == value && forall x :: x in SelectedValues() ==> x == value
      ensures !isDropdownOpen
      ensures !multiple ==> inputText == DisplayText(AllOptions())
      ensures multiple ==> inputText == old(inputText)
    {
      ghost var before := AllOptions();
      MarkAll([value]);
      ExclusiveSelection(before, value);
      CloseDropdown();
    }

    /** `SelectedValues` setter: each option selected iff its value is in `vs`. */
    method SetSelectedValues(vs: seq<string>)
      modifies this`options, this`dynamicOptions, this`inputText
      ensures AllOptions() == Marked(old(AllOptions()), vs)
      ensures |options| == |old(options)| && |dynamicOptions| == |old(dynamicOptions)|
      ensures forall v :: v in SelectedValues() <==> v in vs && HasValue(old(AllOptions()), v)
      ensures !multiple ==> inputText == DisplayText(AllOptions())
      ensures multiple ==> inputText == old(inputText)
      ensures multiple == old(multiple) && searchable == old(searchable) && creatable == old(creatable)
      ensures inputReadOnly == old(inputReadOnly) && isDropdownOpen == old(isDropdownOpen)
      ensures selectionChanged == old(selectionChanged)
    {
      ghost var before := AllOptions();
      MarkAll(vs);
      MarkedSelections(before, vs);
      UpdateSelectedDisplay();
    }

    /** `SelectedValue` setter: the empty string clears the selection, any other value selects exactly the options carrying it. */
    method SetSelectedValue(v: string)
      modifies this`options, this`dynamicOptions, this`inputText
      ensures AllOptions() == Marked(old(AllOptions()), if v == "" then [] else [v])
      ensures |options| == |old(options)| && |dynamicOptions| == |old(dynamicOptions)|
      ensures !multiple ==> inputText == DisplayText(AllOptions())
      ensures multiple ==> inputText == old(inputText)
      ensures v == "" ==> SelectedValues() == [] && SelectedValue() == ""
      ensures v != "" ==> forall x :: x in SelectedValues() ==> x == v
      ensures v != "" && HasValue(old(AllOptions()), v) ==> SelectedValue() == v
      ensures multiple == old(multiple) && selectionChanged == old(selectionChanged)
    {
      ghost var before := AllOptions();
      SetSelectedValues(if v == "" then [] else [v]);
      if v == "" {
        MarkedNothing(before);
      } else {
        ExclusiveSelection(before, v);
      }
    }

    /**
     * `SelectOption`, for the option at position `k` of AllOptions(). Multi-select
     * toggles that option alone; single-select leaves selected exactly the options
     * with its value and closes the dropdown. Either way SelectionChanged is raised.
     */
    method SelectOption(k: nat)
      requires k < |options| + |dynamicOptions|
      modifies this`options, this`dynamicOptions, this`inputText, this`isDropdownOpen, this`selectionChanged
      ensures |options| == |old(options)| && |dynamicOptions| == |old(dynamicOptions)|
      ensures multiple ==>
        AllOptions() == old(AllOptions())[k := old(AllOptions())[k].(selected := !old(AllOptions())[k].selected)]
      ensures multiple ==> inputText == old(inputText) && isDropdownOpen == old(isDropdownOpen)
      ensures !multiple ==> AllOptions() == Marked(old(AllOptions()), [old(AllOptions())[k].value])
      ensures !multiple ==> SelectedValue() == old(AllOptions())[k].value
      ensures !multiple ==> forall x :: x in SelectedValues() ==> x == old(AllOptions())[k].value
      ensures !multiple ==> !isDropdownOpen && inputText == DisplayText(AllOptions())
      ensures selectionChanged == old(selectionChanged) + [SelectedValues()]
      ensures multiple == old(multiple) && searchable == old(searchable) && creatable == old(creatable)
      ensures inputReadOnly == old(inputReadOnly)
    {
      ghost var before := AllOptions();
      if multiple {
        SetSelectedAt(k, !AllOptions()[k].selected);
      } else {
        SelectOnly(AllOptions()[k].value);
      }
      selectionChanged := selectionChanged + [SelectedValues()];
    }

    /** Some created option already has value `v`, ignoring case (`_dynamicOptions.Any(...)`). */
    predicate HasCreated(v: string)
      reads this
    {
      HasValueIgnoringCase(dynamicOptions, v)
    }

    /** The `_dynamicOptions.Any(...)` scan of CreateNewOption. */
    method AnyCreated(v: string) returns (found: bool)
      ensures found <==> HasCreated(v)
    {
      var i := 0;
      while i < |dynamicOptions|
        invariant 0 <= i <= |dynamicOptions|
        invariant forall j :: 0 <= j < i ==> !EqualsIgnoreCase(dynamicOptions[j].value, v)
      {
        if EqualsIgnoreCase(dynamicOptions[i].value, v) {
          return true;
        }
        i := i + 1;
      }
      return false;
    }

    /**
     * `CreateNewOption(value)`: nothing happens when a created option already has
     * this value ignoring case (static options are not consulted). Otherwise a
     * selected option with the capitalised label is appended; in single-select
     * exactly the options with this value end up selected and the dropdown closes.
     * The input is cleared and SelectionChanged raised.
     */
    method CreateNewOption(value: string)
      requires value != []
      modifies this`options, this`dynamicOptions, this`inputText, this`isDropdownOpen, this`selectionChanged
      ensures old(HasCreated(value)) ==>
        && options == old(options) && dynamicOptions == old(dynamicOptions)
        && inputText == old(inputText) && isDropdownOpen == old(isDropdownOpen)
        && selectionChanged == old(selectionChanged)
      ensures !old(HasCreated(value)) ==>
        && options == (if multiple then old(options) else Marked(old(options), [value]))
        && dynamicOptions == (if multiple then old(dynamicOptions) + [CreatedOption(value)]
                              else Marked(old(dynamicOptions) + [CreatedOption(value)], [value]))
        && inputText == ""
        && selectionChanged == old(selectionChanged) + [SelectedValues()]
      ensures !old(HasCreated(value)) ==> dynamicOptions[|dynamicOptions| - 1] == CreatedOption(value)
      ensures !old(HasCreated(value)) && !multiple ==> SelectedValue() == value && !isDropdownOpen
      ensures !old(HasCreated(value)) && multiple ==> isDropdownOpen == old(isDropdownOpen)
      ensures HasCreated(value)
      ensures multiple == old(multiple) && searchable == old(searchable) && creatable == old(creatable)
      ensures inputReadOnly == old(inputReadOnly)
    {
      var duplicate := AnyCreated(value);
      if duplicate {
        return;
      }
      AddCreatedOption(value);
      LastValueFound(dynamicOptions, value);
    }

    /** CreateNewOption once the value is known to be new. */
    method AddCreatedOption(value: string)
      requires value != []
      modifies this`options, this`dynamicOptions, this`inputText, this`isDropdownOpen, this`selectionChanged
      ensures options == (if multiple then old(options) else Marked(old(options), [value]))
      ensures dynamicOptions == (if multiple then old(dynamicOptions) + [CreatedOption(value)]
                                 else Marked(old(dynamicOptions) + [CreatedOption(value)], [value]))
      ensures dynamicOptions[|dynamicOptions| - 1] == CreatedOption(value)
      ensures inputText == "" && selectionChanged == old(selectionChanged) + [SelectedValues()]
      ensures !multiple ==> SelectedValue() == value && !isDropdownOpen
      ensures multiple ==> isDropdownOpen == old(isDropdownOpen)
      ensures multiple == old(multiple) && searchable == old(searchable) && creatable == old(creatable)
      ensures inputReadOnly == old(inputReadOnly)
    {
      var newOption := CreatedOption(value);
      dynamicOptions := dynamicOptions + [newOption];
      if !multiple {
        assert AllOptions()[|AllOptions()| - 1] == newOption;
        SelectOnly(newOption.value);
      }
      inputText := "";
      selectionChanged := selectionChanged + [SelectedValues()];
    }

    /**
     * `OnInputKeyDown`: Enter on a creatable combobox with a non-blank input
     * creates an option from the trimmed input; Escape closes the dropdown.
     */
    method OnInputKeyDown(key: Key)
      modifies this`options, this`dynamicOptions, this`inputText, this`isDropdownOpen, this`selectionChanged
      ensures key.OtherKey? ==> unchanged(this)
      ensures key.Escape? ==>
        && !isDropdownOpen && options == old(options) && dynamicOptions == old(dynamicOptions)
        && selectionChanged == old(selectionChanged)
        && (!multiple ==> inputText == DisplayText(AllOptions()))
        && (multiple ==> inputText == old(inputText))
      ensures key.Enter? && !(old(creatable) && !IsNullOrWhiteSpace(old(inputText))) ==> unchanged(this)
      ensures key.Enter? && old(creatable) && !IsNullOrWhiteSpace(old(inputText)) && old(HasCreated(Trim(inputText))) ==>
        && options == old(options) && dynamicOptions == old(dynamicOptions) && inputText == old(inputText)
        && isDropdownOpen == old(isDropdownOpen) && selectionChanged == old(selectionChanged)
      ensures key.Enter? && old(creatable) && !IsNullOrWhiteSpace(old(inputText)) && !old(HasCreated(Trim(inputText))) ==>
        var v := Trim(old(inputText));
        && v != []
        && options == (if multiple then old(options) else Marked(old(options), [v]))
        && dynamicOptions == (if multiple then old(dynamicOptions) + [CreatedOption(v)]
                              else Marked(old(dynamicOptions) + [CreatedOption(v)], [v]))
        && dynamicOptions[|dynamicOptions| - 1] == CreatedOption(v)
        && inputText == ""
        && selectionChanged == old(selectionChanged) + [SelectedValues()]
        && (multiple ==> isDropdownOpen == old(isDropdownOpen))
        && (!multiple ==> SelectedValue() == v && !isDropdownOpen)
    {
      if key.Enter? && creatable && !IsNullOrWhiteSpace(inputText) {
        TrimOfNonBlankIsNonEmpty(inputText);
        CreateNewOption(Trim(inputText));
      } else if key.Escape? {
        CloseDropdown();
      }
    }

    /** `RemoveBadge`, for the option at position `k` of AllOptions(): deselects it alone and raises SelectionChanged. */
    method RemoveBadge(k: nat)
      requires k < |options| + |dynamicOptions|
      modifies this`options, this`dynamicOptions, this`selectionChanged
      ensures AllOptions() == old(AllOptions())[k := old(AllOptions())[k].(selected := false)]
      ensures |options| == |old(options)|
      ensures selectionChanged == old(selectionChanged) + [SelectedValues()]
      ensures multiple == old(multiple) && searchable == old(searchable) && creatable == old(creatable)
      ensures inputText == old(inputText) && inputReadOnly == old(inputReadOnly) && isDropdownOpen == old(isDropdownOpen)
    {
      SetSelectedAt(k, false);
      selectionChanged := selectionChanged + [SelectedValues()];
    }
  }
}
