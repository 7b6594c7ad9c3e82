# TemplateWindowForm core, modelled in Dafny

TemplateWindowForm is a WinForms application template. Most of it draws controls. This project models the parts that hold real logic and proves what they promise:

- **RouterService**: the page router. It holds a route table from names to view factories, the current view, a back stack and a forward stack of `(route name, view, parameter)` entries, and raises a `Navigated` event.
  - `RouterModel` states the router as a state machine over values. Each operation is a function, and the lemmas cover single calls and sequences of calls.
  - `Router` holds the class `RouterService`. It updates its fields in place, and each method is proved equal to the matching `RouterModel` function.
- **ThemeService** (`Theming`): the current theme, its palette and a stored custom palette, plus the `ThemeChanged` event.
- **ServiceContainer** (`Services`): two registries keyed by type, one for singleton instances and one for component factories.
- **ToolModel** (`Tools`): the tool record, the ten sample tools, and the case-insensitive search filter.
- **CustomCombobox** (`Combobox`): the control's selection model. It covers:
  - static options and options created at run time;
  - single and multiple selection;
  - the dropdown filter;
  - case-insensitive de-duplication when creating an option;
  - the searchable threshold and the read-only flag of the input box.
- **EnhancedCustomInput** (`Input`): the input control's status logic. It covers:
  - error and success flags that clear each other;
  - message precedence: error, then success, then hint;
  - the status icon;
  - the `length/max` character counter;
  - password masking and its toggle.

Shared pieces:

- `Wrappers`: `Option` and `Result`.
- `Text`: the string operations the source relies on (case folding, .NET white space, `Contains`, `Trim`, decimal formatting).
- `Seqs`: an order-preserving `Filter`.

Events are ghost logs. A method appends to the log exactly what the source would raise. Views, navigation parameters, factory delegates, services and palettes are opaque. Running a factory is code outside the model, so its outcome is passed in as an argument.

Where the source's behaviour looks accidental, the model follows the code:

- `NavigateTo` archives the outgoing view with the **new** call's parameter (`RouterService.cs:40`). `GoBack` and `GoForward` archive it with no parameter.
- `NavigateTo` fails atomically only for an unknown route. If the route's own factory call (`RouterService.cs:47`) throws, the outgoing view has already been pushed and the forward stack cleared. The factory's exception reaches the caller unwrapped.
- Assigning `HasError` clears the success flag whichever value is assigned, so `ClearError` also removes a success status. Likewise `ClearSuccess` removes an error status.
- The `Creatable` setter does not refresh the input's read-only state.
- The `MaxLength` setter does not refresh the character counter.
- `CreateNewOption` checks only the created options for duplicates, not the static ones.

## Model

| member | source | states |
|---|---|---|
| RouterModel.Initial | TemplateWindowForm/src/Infrastructure/Services/RouterService.cs:8-11 | a new router has no routes, no current view, no history and no events |
| RouterModel.CanGoBack | TemplateWindowForm/src/Infrastructure/Services/RouterService.cs:16 | true exactly when the back stack is non-empty |
| RouterModel.CanGoForward | TemplateWindowForm/src/Infrastructure/Services/RouterService.cs:17 | true exactly when the forward stack is non-empty |
| RouterModel.RegisterRoute | TemplateWindowForm/src/Infrastructure/Services/RouterService.cs:19-22 | the name maps to the delegate; every other name keeps its factory; view, stacks and events untouched |
| RouterModel.RegisterRouteType | TemplateWindowForm/src/Infrastructure/Services/RouterService.cs:24-30 | a non-UserControl type is refused with the state unchanged; otherwise the name maps to an activator for the type and nothing else changes |
| RouterModel.Archived | TemplateWindowForm/src/Infrastructure/Services/RouterService.cs:38-41 | the outgoing view is archived only when there is one |
| RouterModel.NavigateTo | TemplateWindowForm/src/Infrastructure/Services/RouterService.cs:32-51 | an unknown route changes nothing. Otherwise: the outgoing view is pushed with this call's parameter, the forward stack is cleared and the factory is recorded as invoked. On success the new view becomes current and exactly one event `(route, view, parameter)` is raised. If the factory throws, the view and events stay as they were |
| RouterModel.GoBack | TemplateWindowForm/src/Infrastructure/Services/RouterService.cs:53-67 | a no-op on an empty back stack. Otherwise the top entry is popped, the outgoing view goes onto the forward stack with no parameter, the popped instance becomes current and its route and parameter are raised |
| RouterModel.GoForward | TemplateWindowForm/src/Infrastructure/Services/RouterService.cs:69-83 | the mirror image of GoBack |
| RouterModel.ClearHistory | TemplateWindowForm/src/Infrastructure/Services/RouterService.cs:85-89 | both stacks empty; current view, routes and events unchanged |
| RouterModel.ApplyKeepsValid | TemplateWindowForm/src/Infrastructure/Services/RouterService.cs:32-89 | every public call keeps "a non-empty stack implies a current view" |
| RouterModel.RunKeepsValid | TemplateWindowForm/src/Infrastructure/Services/RouterService.cs:32-89 | any sequence of calls keeps that invariant |
| RouterModel.RunOnlyAppendsEvents | TemplateWindowForm/src/Infrastructure/Services/RouterService.cs:99-102 | a raised event is never withdrawn: later logs extend earlier ones |
| RouterModel.NavigateToSucceeds | TemplateWindowForm/src/Infrastructure/Services/RouterService.cs:38-50 | after a successful navigation the new view is current, forward is impossible, back is possible iff there was a view or history, and the last event names the route |
| RouterModel.NavigateToFactoryFailureIsPartial | TemplateWindowForm/src/Infrastructure/Services/RouterService.cs:38-48 | a throwing factory still leaves the back push and the forward clear behind, so the state differs from before |
| RouterModel.BackThenForward | TemplateWindowForm/src/Infrastructure/Services/RouterService.cs:53-83 | GoBack then GoForward restores the same current view instance and forward stack; the back stack returns to its size, but its top has lost its parameter |
| RouterModel.GoBackKeepsViews | TemplateWindowForm/src/Infrastructure/Services/RouterService.cs:53-67 | GoBack neither creates nor loses a view instance (multiset of held views) |
| RouterModel.GoForwardKeepsViews | TemplateWindowForm/src/Infrastructure/Services/RouterService.cs:69-83 | GoForward neither creates nor loses a view instance |
| RouterModel.MoveConservesHistory | TemplateWindowForm/src/Infrastructure/Services/RouterService.cs:53-83 | one GoBack or GoForward keeps the invariant, the held views and `|back| + |forward|` |
| RouterModel.MovesConserveHistory | TemplateWindowForm/src/Infrastructure/Services/RouterService.cs:53-83 | any run of GoBack/GoForward keeps the held views, a current view, and `|back| + |forward|` |
| RouterModel.SecondRegistrationWins | TemplateWindowForm/src/Infrastructure/Services/RouterService.cs:19-22 | after registering a name twice, navigating to it invokes only the second factory |
| Router.RouterService.constructor | TemplateWindowForm/src/Infrastructure/Services/RouterService.cs:8-11 | the new object's state is RouterModel.Initial |
| Router.RouterService.CurrentView | TemplateWindowForm/src/Infrastructure/Services/RouterService.cs:15 | the current view of the abstract state |
| Router.RouterService.CanGoBack | TemplateWindowForm/src/Infrastructure/Services/RouterService.cs:16 | agrees with RouterModel.CanGoBack on the object's state |
| Router.RouterService.CanGoForward | TemplateWindowForm/src/Infrastructure/Services/RouterService.cs:17 | agrees with RouterModel.CanGoForward on the object's state |
| Router.RouterService.RegisterRoute | TemplateWindowForm/src/Infrastructure/Services/RouterService.cs:19-22 | new state is RouterModel.RegisterRoute of the old one; invariant kept |
| Router.RouterService.RegisterRouteType | TemplateWindowForm/src/Infrastructure/Services/RouterService.cs:24-30 | new state and error are RouterModel.RegisterRouteType of the old state |
| Router.RouterService.NavigateTo | TemplateWindowForm/src/Infrastructure/Services/RouterService.cs:32-51 | new state and error are RouterModel.NavigateTo of the old state; invariant kept |
| Router.RouterService.GoBack | TemplateWindowForm/src/Infrastructure/Services/RouterService.cs:53-67 | new state is RouterModel.GoBack of the old one; invariant kept |
| Router.RouterService.GoForward | TemplateWindowForm/src/Infrastructure/Services/RouterService.cs:69-83 | new state is RouterModel.GoForward of the old one; invariant kept |
| Router.RouterService.ClearHistory | TemplateWindowForm/src/Infrastructure/Services/RouterService.cs:85-89 | new state is RouterModel.ClearHistory of the old one |
| Router.RouterService.OnNavigated | TemplateWindowForm/src/Infrastructure/Services/RouterService.cs:99-102 | exactly one event with the given route, view and parameter is appended |
| Theming.BuiltInPalette | TemplateWindowForm/src/Infrastructure/Services/ThemeService.cs:46-50 | each built-in theme has a fixed palette, never a user-built one, and only Light has the Light palette |
| Theming.BuiltInPalettesDistinct | TemplateWindowForm/src/Infrastructure/Services/ThemeService.cs:46-50 | two built-in themes share a palette iff they are the same theme |
| Theming.ThemeService.constructor | TemplateWindowForm/src/Infrastructure/Services/ThemeService.cs:9-21 | a new service shows Light with the Light palette, has no custom palette and has raised nothing |
| Theming.ThemeService.GetThemeColors | TemplateWindowForm/src/Infrastructure/Services/ThemeService.cs:42-54 | total and read-only: built-in themes get their palette, Custom the stored palette or Light, an unnamed value Light |
| Theming.ThemeService.SetTheme | TemplateWindowForm/src/Infrastructure/Services/ThemeService.cs:23-31 | the current theme again changes nothing and raises nothing; another theme switches theme and colours and raises one event carrying the new state; the colours always match the theme |
| Theming.ThemeService.SetCustomTheme | TemplateWindowForm/src/Infrastructure/Services/ThemeService.cs:33-40 | always stores the palette, switches to Custom with it and raises; afterwards GetThemeColors(Custom) is that palette |
| Theming.ThemeService.OnThemeChanged | TemplateWindowForm/src/Infrastructure/Services/ThemeService.cs:56-59 | one event with the current theme and colours is appended |
| Services.ServiceContainer.constructor | TemplateWindowForm/src/Presentation/WinFormsApp/Services/ServiceContainer.cs:15-18 | an empty registry, before any bootstrap registration |
| Services.ServiceContainer.GetService | TemplateWindowForm/src/Presentation/WinFormsApp/Services/ServiceContainer.cs:116-124 | succeeds iff IsServiceRegistered, with the stored instance; otherwise the not-registered error |
| Services.ServiceContainer.GetServiceByType | TemplateWindowForm/src/Presentation/WinFormsApp/Services/ServiceContainer.cs:136-144 | the same lookup as GetService, with no value instead of an error |
| Services.ServiceContainer.IsServiceRegistered | TemplateWindowForm/src/Presentation/WinFormsApp/Services/ServiceContainer.cs:146-149 | reads the services map alone and holds exactly for keys with a stored instance, so a factory does not count |
| Services.ServiceContainer.IsFactoryRegistered | TemplateWindowForm/src/Presentation/WinFormsApp/Services/ServiceContainer.cs:151-154 | reads the factories map alone and holds exactly for keys with a factory, so a service does not count |
| Services.ServiceContainer.RegisterSingleton | TemplateWindowForm/src/Presentation/WinFormsApp/Services/ServiceContainer.cs:98-105 | null is refused and nothing changes; otherwise the key maps to the instance (replacing any earlier one), GetService returns it, and factories are untouched |
| Services.ServiceContainer.RegisterFactory | TemplateWindowForm/src/Presentation/WinFormsApp/Services/ServiceContainer.cs:107-114 | null is refused and nothing changes; otherwise the key maps to the factory, IsFactoryRegistered holds and IsServiceRegistered is unchanged |
| Services.ServiceContainer.CreateComponent | TemplateWindowForm/src/Presentation/WinFormsApp/Services/ServiceContainer.cs:126-134 | with a factory: invokes it (logged) and returns its product; without one: the not-registered error and no invocation |
| Services.ServiceContainer.UnregisterService | TemplateWindowForm/src/Presentation/WinFormsApp/Services/ServiceContainer.cs:156-160 | removes only this key, only from the services map; an absent key is fine |
| Services.ServiceContainer.Clear | TemplateWindowForm/src/Presentation/WinFormsApp/Services/ServiceContainer.cs:162-167 | both maps are empty, so nothing is registered |
| Tools.SearchTools | TemplateWindowForm/src/Presentation/WinFormsApp/Models/ToolModel.cs:148-160 | a blank query returns the list itself. Otherwise the result is no longer than the input, holds only input tools that match the lower-cased query, and holds every input tool that matches |
| Tools.SearchIdempotent | TemplateWindowForm/src/Presentation/WinFormsApp/Models/ToolModel.cs:153-159 | searching the result again with the same text gives the same list |
| Tools.SearchPreservesOrder | TemplateWindowForm/src/Presentation/WinFormsApp/Models/ToolModel.cs:153-159 | the result for `a + b` is the result for `a` followed by the result for `b` |
| Tools.IdAndVersionNotSearched | TemplateWindowForm/src/Presentation/WinFormsApp/Models/ToolModel.cs:155-158 | changing a tool's id or version never changes whether it is found |
| Tools.GetFakeData | TemplateWindowForm/src/Presentation/WinFormsApp/Models/ToolModel.cs:31-146 | ten tools whose ids are 1 to 10 in order |
| Text.ContainsAt | TemplateWindowForm/src/Presentation/WinFormsApp/Models/ToolModel.cs:155-158 | `Contains` holds iff the needle occurs at some position of the text |
| Text.TrimOfNonBlankIsNonEmpty | TemplateWindowForm/src/Presentation/WinFormsApp/UserControls/Common/CustomCombobox.cs:291-293 | trimming a non-blank text leaves a non-empty text that starts with a non-white-space character |
| Text.NatToString | TemplateWindowForm/src/Presentation/WinFormsApp/UserControls/Common/CustomInput.cs:521 | non-empty decimal digits, without leading zeros, one digit exactly below ten |
| Text.Utf16Length | TemplateWindowForm/src/Presentation/WinFormsApp/UserControls/Common/CustomInput.cs:520 | `string.Length`: between one and two code units per character; exactly one per character when all are in the Basic Multilingual Plane, and more units than characters as soon as one is outside it |
| Text.Utf16LengthAppend | TemplateWindowForm/src/Presentation/WinFormsApp/UserControls/Common/CustomInput.cs:520 | code-unit lengths add up over concatenation |
| Text.NatToStringRoundTrip | TemplateWindowForm/src/Presentation/WinFormsApp/UserControls/Common/CustomInput.cs:521 | reading the decimal digits of a formatted number gives the number back |
| Seqs.FilterAppend | TemplateWindowForm/src/Presentation/WinFormsApp/Models/ToolModel.cs:154-159 | `Where` distributes over concatenation, so it keeps order |
| Seqs.FilterIdempotent | TemplateWindowForm/src/Presentation/WinFormsApp/Models/ToolModel.cs:154-159 | filtering twice with one predicate is filtering once |
| Combobox.SelectedValuesOf | TemplateWindowForm/src/Presentation/WinFormsApp/UserControls/Common/CustomCombobox.cs:101-105 | a value is listed iff some selected option carries it; never longer than the options |
| Combobox.SelectedValuesAppend | TemplateWindowForm/src/Presentation/WinFormsApp/UserControls/Common/CustomCombobox.cs:103-104 | the selected values of `a + b` are those of `a` followed by those of `b` |
| Combobox.Marked | TemplateWindowForm/src/Presentation/WinFormsApp/UserControls/Common/CustomCombobox.cs:109-112 | each option becomes selected iff its value is in the list; values and labels untouched |
| Combobox.MarkedAppend | TemplateWindowForm/src/Presentation/WinFormsApp/UserControls/Common/CustomCombobox.cs:108-112 | marking the two lists separately equals marking their concatenation |
| Combobox.MarkedSelection | TemplateWindowForm/src/Presentation/WinFormsApp/UserControls/Common/CustomCombobox.cs:106-116 | after marking, a value is selected iff it is in the list and some option carries it |
| Combobox.MarkedSelections | TemplateWindowForm/src/Presentation/WinFormsApp/UserControls/Common/CustomCombobox.cs:106-116 | MarkedSelection for every value at once: the selected values after marking are exactly the listed values some option carries |
| Combobox.ExclusiveSelection | TemplateWindowForm/src/Presentation/WinFormsApp/UserControls/Common/CustomCombobox.cs:449-455 | marking with one value leaves only that value selected, and selected at all when some option carries it |
| Combobox.MarkedNothing | TemplateWindowForm/src/Presentation/WinFormsApp/UserControls/Common/CustomCombobox.cs:121 | marking with no values clears every selection |
| Combobox.MarkOptions | TemplateWindowForm/src/Presentation/WinFormsApp/UserControls/Common/CustomCombobox.cs:109-112 | the loop's result equals Marked |
| Combobox.FirstSelected | TemplateWindowForm/src/Presentation/WinFormsApp/UserControls/Common/CustomCombobox.cs:497 | the first selected option, or none iff no option is selected |
| Combobox.DisplayText | TemplateWindowForm/src/Presentation/WinFormsApp/UserControls/Common/CustomCombobox.cs:497-505 | the first selected option's label, or empty when none is selected |
| Combobox.CapitalizedLabel | TemplateWindowForm/src/Presentation/WinFormsApp/UserControls/Common/CustomCombobox.cs:469 | the value with its first character upper-cased, same length |
| Combobox.CreatedOption | TemplateWindowForm/src/Presentation/WinFormsApp/UserControls/Common/CustomCombobox.cs:466-471 | a selected option with the value and its capitalised label |
| Combobox.LastValueFound | TemplateWindowForm/src/Presentation/WinFormsApp/UserControls/Common/CustomCombobox.cs:463-464 | an option just appended with value `v` makes `v` a duplicate ignoring case |
| Combobox.CustomCombobox.constructor | TemplateWindowForm/src/Presentation/WinFormsApp/UserControls/Common/CustomCombobox.cs:20-27 | no options, single-select, not searchable, not creatable, read-only input |
| Combobox.CustomCombobox.SelectedValues | TemplateWindowForm/src/Presentation/WinFormsApp/UserControls/Common/CustomCombobox.cs:101-105 | the static options' selected values, then the created options' |
| Combobox.CustomCombobox.SelectedValue | TemplateWindowForm/src/Presentation/WinFormsApp/UserControls/Common/CustomCombobox.cs:120 | the first selected value, or empty |
| Combobox.CustomCombobox.FilterOptions | TemplateWindowForm/src/Presentation/WinFormsApp/UserControls/Common/CustomCombobox.cs:373-391 | the result is a sub-list of the input. In multiple mode no selected option survives. When searchable with a non-blank text, every survivor matches by label or value. Every option meeting both conditions survives |
| Combobox.CustomCombobox.FilterOptionsPreservesOrder | TemplateWindowForm/src/Presentation/WinFormsApp/UserControls/Common/CustomCombobox.cs:377-390 | filtering `a + b` equals filtering `a` followed by filtering `b` |
| Combobox.CustomCombobox.UpdateInputState | TemplateWindowForm/src/Presentation/WinFormsApp/UserControls/Common/CustomCombobox.cs:228-231 | read-only iff neither searchable nor creatable |
| Combobox.CustomCombobox.UpdateSearchableState | TemplateWindowForm/src/Presentation/WinFormsApp/UserControls/Common/CustomCombobox.cs:222-226 | searchable iff multiple or at least 10 static options; read-only state refreshed |
| Combobox.CustomCombobox.SetOptions | TemplateWindowForm/src/Presentation/WinFormsApp/UserControls/Common/CustomCombobox.cs:51-60 | null means no options; searchable and read-only state follow the new count |
| Combobox.CustomCombobox.SetMultiple | TemplateWindowForm/src/Presentation/WinFormsApp/UserControls/Common/CustomCombobox.cs:62-71 | multiple mode always makes the box searchable and editable |
| Combobox.CustomCombobox.SetSearchable | TemplateWindowForm/src/Presentation/WinFormsApp/UserControls/Common/CustomCombobox.cs:73-81 | the flag is overridden and the read-only state refreshed |
| Combobox.CustomCombobox.SetCreatable | TemplateWindowForm/src/Presentation/WinFormsApp/UserControls/Common/CustomCombobox.cs:83-87 | only the flag changes; the read-only state is left stale |
| Combobox.CustomCombobox.UpdateSelectedDisplay | TemplateWindowForm/src/Presentation/WinFormsApp/UserControls/Common/CustomCombobox.cs:493-506 | in single-select the input shows DisplayText; in multiple it is untouched |
| Combobox.CustomCombobox.CloseDropdown | TemplateWindowForm/src/Presentation/WinFormsApp/UserControls/Common/CustomCombobox.cs:323-328 | dropdown closed and the display refreshed |
| Combobox.CustomCombobox.OnInputTextChanged | TemplateWindowForm/src/Presentation/WinFormsApp/UserControls/Common/CustomCombobox.cs:281-287 | the input holds the edited text |
| Combobox.CustomCombobox.MarkAll | TemplateWindowForm/src/Presentation/WinFormsApp/UserControls/Common/CustomCombobox.cs:108-112 | both lists, and so all options, become Marked |
| Combobox.CustomCombobox.SetSelectedAt | TemplateWindowForm/src/Presentation/WinFormsApp/UserControls/Common/CustomCombobox.cs:444 | exactly one option's flag changes |
| Combobox.CustomCombobox.SelectOnly | TemplateWindowForm/src/Presentation/WinFormsApp/UserControls/Common/CustomCombobox.cs:449-455 | all options marked with the one value, which becomes SelectedValue and the only selected value; the dropdown is closed |
| Combobox.CustomCombobox.SetSelectedValues | TemplateWindowForm/src/Presentation/WinFormsApp/UserControls/Common/CustomCombobox.cs:106-115 | each option selected iff its value is in the list; SelectedValues then holds exactly the listed values some option carries; the display is refreshed; no event |
| Combobox.CustomCombobox.SetSelectedValue | TemplateWindowForm/src/Presentation/WinFormsApp/UserControls/Common/CustomCombobox.cs:121 | empty clears every selection. A value `v` leaves only `v` selected, and SelectedValue is `v` when some option carries it. List sizes are kept, the display is refreshed in single mode, and only the options and the input text may change |
| Combobox.CustomCombobox.SelectOption | TemplateWindowForm/src/Presentation/WinFormsApp/UserControls/Common/CustomCombobox.cs:440-459 | multiple mode toggles that one option. Single mode leaves exactly the options with its value selected, makes it SelectedValue and closes the dropdown. SelectionChanged carries the new SelectedValues |
| Combobox.CustomCombobox.AnyCreated | TemplateWindowForm/src/Presentation/WinFormsApp/UserControls/Common/CustomCombobox.cs:463 | true iff a created option has the value ignoring case |
| Combobox.CustomCombobox.CreateNewOption | TemplateWindowForm/src/Presentation/WinFormsApp/UserControls/Common/CustomCombobox.cs:461-491 | a case-insensitive duplicate among created options changes nothing. Otherwise one selected option with the capitalised label is appended. Single mode selects exactly that value and closes the dropdown; multiple mode leaves the dropdown as it was. The input is cleared and one event raised. Afterwards the value always counts as created, so repeating the call changes nothing. Flags are untouched |
| Combobox.CustomCombobox.AddCreatedOption | TemplateWindowForm/src/Presentation/WinFormsApp/UserControls/Common/CustomCombobox.cs:466-490 | the new option is appended; in single mode all options are marked with its value |
| Combobox.CustomCombobox.OnInputKeyDown | TemplateWindowForm/src/Presentation/WinFormsApp/UserControls/Common/CustomCombobox.cs:289-300 | Enter on a creatable box with non-blank text does what CreateNewOption does for the trimmed (non-empty) text: for a duplicate nothing changes, otherwise the option is appended, marked, the input cleared and one event raised. Escape closes the dropdown and refreshes the display, with options and events unchanged. Any other key, or Enter otherwise, changes nothing |
| Combobox.CustomCombobox.RemoveBadge | TemplateWindowForm/src/Presentation/WinFormsApp/UserControls/Common/CustomCombobox.cs:571-576 | deselects exactly that option and raises SelectionChanged with the new SelectedValues |
| Input.Decorated | TemplateWindowForm/src/Presentation/WinFormsApp/UserControls/Common/CustomInput.cs:494 | glyph, space, then the message, which can be read back from position 2 |
| Input.MessageFor | TemplateWindowForm/src/Presentation/WinFormsApp/UserControls/Common/CustomInput.cs:490-514 | shown iff some non-empty message is enabled. Error beats success, which beats hint. The shown text is the chosen message after its glyph |
| Input.StatusFor | TemplateWindowForm/src/Presentation/WinFormsApp/UserControls/Common/CustomInput.cs:450-476 | the error icon iff in error; the success icon iff successful and not in error |
| Input.MessageAgreesWithIcon | TemplateWindowForm/src/Presentation/WinFormsApp/UserControls/Common/CustomInput.cs:450-514 | while the flags exclude each other, a shown error or success message comes with its own icon, and no icon means at most a hint |
| Input.CharCountText | TemplateWindowForm/src/Presentation/WinFormsApp/UserControls/Common/CustomInput.cs:521 | only digits and one slash (no other character), with a leading zero only for a zero length; CharCountRoundTrip reads it back |
| Input.FirstSlash | TemplateWindowForm/src/Presentation/WinFormsApp/UserControls/Common/CustomInput.cs:521 | the position of the first slash, or the length when there is none |
| Input.ParseCharCount | TemplateWindowForm/src/Presentation/WinFormsApp/UserControls/Common/CustomInput.cs:521 | parses only two digit strings around a slash |
| Input.CharCountRoundTrip | TemplateWindowForm/src/Presentation/WinFormsApp/UserControls/Common/CustomInput.cs:521 | the counter text parses back to the length and the maximum |
| Input.CounterFor | TemplateWindowForm/src/Presentation/WinFormsApp/UserControls/Common/CustomInput.cs:516-531 | shown iff enabled with a positive maximum. Its text is exactly the decimal length (in UTF-16 code units), a slash and the decimal maximum, in canonical NatToString digits, and it reads back as `(length, max)`. Warning iff that length exceeds nine tenths of the maximum |
| Input.EnhancedCustomInput.constructor | TemplateWindowForm/src/Presentation/WinFormsApp/UserControls/Common/CustomInput.cs:31-37 | empty, unmasked, no status, nothing shown, MaxLength 32767; the invariant holds |
| Input.EnhancedCustomInput.UpdatePasswordField | TemplateWindowForm/src/Presentation/WinFormsApp/UserControls/Common/CustomInput.cs:430-439 | masked and toggle visible iff a password field |
| Input.EnhancedCustomInput.UpdateMessage | TemplateWindowForm/src/Presentation/WinFormsApp/UserControls/Common/CustomInput.cs:490-514 | the message line is MessageFor of the current flags and texts |
| Input.EnhancedCustomInput.UpdateStatus | TemplateWindowForm/src/Presentation/WinFormsApp/UserControls/Common/CustomInput.cs:450-476 | icon is StatusFor, message is MessageFor |
| Input.EnhancedCustomInput.UpdateCharCount | TemplateWindowForm/src/Presentation/WinFormsApp/UserControls/Common/CustomInput.cs:516-531 | the counter is CounterFor of the current state |
| Input.EnhancedCustomInput.SetIsPasswordField | TemplateWindowForm/src/Presentation/WinFormsApp/UserControls/Common/CustomInput.cs:92-100 | masking and toggle visibility follow the flag; no other field changes |
| Input.EnhancedCustomInput.SetHasError | TemplateWindowForm/src/Presentation/WinFormsApp/UserControls/Common/CustomInput.cs:102-111 | the error flag takes the value and success is cleared whatever the value; icon and message follow |
| Input.EnhancedCustomInput.SetHasSuccess | TemplateWindowForm/src/Presentation/WinFormsApp/UserControls/Common/CustomInput.cs:113-122 | the success flag takes the value and error is cleared whatever the value; icon and message follow |
| Input.EnhancedCustomInput.SetErrorMessage | TemplateWindowForm/src/Presentation/WinFormsApp/UserControls/Common/CustomInput.cs:124-132 | in error iff the message is non-empty, and then the line shows it with the error icon; an empty message leaves no icon and at most the hint. Only the error message, the two flags, the icon and the line change |
| Input.EnhancedCustomInput.SetSuccessMessage | TemplateWindowForm/src/Presentation/WinFormsApp/UserControls/Common/CustomInput.cs:134-142 | the same for success; only the success message, the two flags, the icon and the line change |
| Input.EnhancedCustomInput.SetHintMessage | TemplateWindowForm/src/Presentation/WinFormsApp/UserControls/Common/CustomInput.cs:144-152 | the hint is stored and shown only if no enabled error or success message precedes it; only the hint and the line change |
| Input.EnhancedCustomInput.SetShowCharCount | TemplateWindowForm/src/Presentation/WinFormsApp/UserControls/Common/CustomInput.cs:154-162 | the counter is refreshed for the new flag; nothing else changes |
| Input.EnhancedCustomInput.SetMaxLength | TemplateWindowForm/src/Presentation/WinFormsApp/UserControls/Common/CustomInput.cs:224-232 | the maximum changes and the counter is left as it was; nothing else changes |
| Input.EnhancedCustomInput.OnTextChanged | TemplateWindowForm/src/Presentation/WinFormsApp/UserControls/Common/CustomInput.cs:603-614 | counter refreshed. Typing a non-empty text while in error clears both flags but keeps the error message. ValueChanged carries the new text. Messages, masking and the counter settings are untouched |
| Input.EnhancedCustomInput.OnPasswordToggleClick | TemplateWindowForm/src/Presentation/WinFormsApp/UserControls/Common/CustomInput.cs:626-630 | masking flips, and the glyph is the eye exactly when masked; nothing else changes |
| Input.EnhancedCustomInput.SetError | TemplateWindowForm/src/Presentation/WinFormsApp/UserControls/Common/CustomInput.cs:632-635 | as SetErrorMessage, with the same frame |
| Input.EnhancedCustomInput.SetSuccess | TemplateWindowForm/src/Presentation/WinFormsApp/UserControls/Common/CustomInput.cs:637-640 | as SetSuccessMessage, with the same frame |
| Input.EnhancedCustomInput.ClearError | TemplateWindowForm/src/Presentation/WinFormsApp/UserControls/Common/CustomInput.cs:642-645 | no error, and no success either; no icon; the line shows at most the hint. Masking, text and counter untouched |
| Input.EnhancedCustomInput.ClearSuccess | TemplateWindowForm/src/Presentation/WinFormsApp/UserControls/Common/CustomInput.cs:647-650 | no success, and no error either; no icon; the line shows at most the hint. Masking, text and counter untouched |

## Left out

- GetCurrentRouteName (`RouterService.cs:91-97`) re-runs every factory and matches by run-time type in dictionary order. This uses reflection and foreign calls. Its result is the `archivedName` argument of NavigateTo, GoBack and GoForward, and the model states nothing about its value or about the factory calls it makes.
- RouterModel.NavigateTo: a factory that throws while GetCurrentRouteName runs (`RouterService.cs:40`) is not modelled. That throw comes before the push and the clear, so the source then leaves the router unchanged.
- RouterModel.GoBack: a factory that throws while GetCurrentRouteName runs (`RouterService.cs:62`) is not modelled. The source has already popped the back stack by then, so the popped entry is lost, the view stays and no event is raised.
- RouterModel.GoForward: the same unmodelled throw path as GoBack (`RouterService.cs:78`): the popped forward entry is lost, the view stays and no event is raised.
- Router.RouterService.NavigateTo: running the factory is outside the model. Its outcome, a view or an exception, is the `creation` argument, so the model cannot say the view is fresh.
- The `Navigated`, `ThemeChanged`, `SelectionChanged` and `ValueChanged` events are ghost logs. Handler code, multicast order and handler exceptions are not modelled. UI-thread marshalling is left out, and events are synchronous.
- Palettes, views, parameters, factory delegates, service instances and type keys are opaque values compared by value.
- Theming.ThemeType: the enum is declared in `Core.Enums`, outside the modelled files. Its members follow the names GetThemeColors switches on, and an unnamed enum value is `Undefined`.
- Services.ServiceContainer.GetServiceByType: the `(T)` cast of the stored instance, which can throw for a mismatched type, is not modelled.
- Services.ServiceContainer.CreateComponent: the factory's result is the `produced` argument, and a factory that throws is not modelled.
- The ServiceContainer constructor's registrations, SetupRoutes, the debug trace lines, and GetRegisteredServices/GetRegisteredFactories are bootstrap and diagnostics, and are not part of this model.
- Text.ToLower: case folding and `OrdinalIgnoreCase` compare only ASCII letters. Culture-specific and non-ASCII case mappings are not modelled.
- Tools.ToolModel: `CreatedDate` and `LastUpdated` come from the clock and are not part of the record.
- Combobox.ComboboxOption is a value record. The source shares option objects by reference, so a list passed to the Options setter and later mutated by the caller would be aliased. That aliasing is not modelled.
- Combobox.CustomCombobox.SelectOption and RemoveBadge identify the option by its position in the static list followed by the created list, where the source passes the object itself.
- Combobox.CustomCombobox.OnInputTextChanged: the redraw of the open dropdown is not modelled. OpenDropdown and ToggleDropdown are not modelled either: they are focus and click handling, not selection logic.
- Badges, RefreshDropdown, UpdateLayout, painting, fonts, colours, positions, animations and the loading spinner are drawing code. They are not modelled in either control.
- Input.CounterFor: lengths are counted in UTF-16 code units, as `Text.Length` does, but strings of unpaired surrogates cannot be written in the model, since its strings hold Unicode scalar values.
- Input.CounterFor: the warning test `length > MaxLength * 0.9` is done in double precision. The model uses the exact comparison `10 * length > 9 * MaxLength`, which can differ only by floating-point rounding.
- Input.EnhancedCustomInput.SetMaxLength: the text box's own rejection of a negative MaxLength, and its truncation of typed text, belong to the toolkit and are not modelled.
- Input.EnhancedCustomInput.UpdatePasswordField: the toggle button is never checked in the source, so masking follows the password flag alone.
- Input.EnhancedCustomInput.OnTextChanged: the `Value` setter is modelled only as the text change it causes.
