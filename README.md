# Langflow decision logic in Dafny

This project models four pieces of decision logic from Langflow, a visual
builder for LLM pipelines, and proves properties of them:

- **Astra DB vector-store component** (`AstraDB`, `astradb.dfy`). It covers:
  - the search-type mapping;
  - the keyword arguments built for a search, and the choice between
    `search`, `metadata_search` and no search at all;
  - the refresh of the database and collection dropdowns in the build
    configuration, which is a class whose `fields` map is updated in place;
  - the API-endpoint and keyspace rules.

  Every Astra DB call is replaced by its result, passed as a parameter.
- **A flow exposed as a tool** (`FlowTool`, `flow_tool.dfy`). It covers:
  - how a call's positional or keyword arguments are bound to the flow's
    declared inputs;
  - which errors are raised;
  - how the bound values are re-keyed by component and wrapped for the runner;
  - the "No output" result.

  The synchronous (`_run`) and asynchronous (`_arun`) entry points are both
  modelled, and a lemma proves that they accept the same calls.
- **The searchable dropdown of the flow editor** (`Dropdown`, `dropdown.dfy`).
  It is a class holding the component's state:
  - `open`, `openDialog`, `customValue` and `filteredOptions`;
  - the `disabled` value the disabled-effect last ran with;
  - the log of `onSelect` calls.

  Its methods are the typing handler, the two effects, item selection and the
  dialog actions. Pure functions give the trigger's label and icon and the
  empty-options gate. The fuzzy matcher (Fuse) is a function parameter, and
  nothing is assumed about it.
- **The playground's file-card wrapper** (`FileCard`, `file_card.dfy`). It
  derives a file's name, type and path from a path string or a path object,
  and it has a `show` flag that a click toggles.

`Common` (`common.dfy`) holds the option and result types, plus the two
Python string operations used: `str.strip()` and `sep.join(...)`.

Paths below are relative to the repository root.

Where the code and its documented intent differ, the model follows the code
in the places below. There are two exceptions, both listed under "Findings".
Each models the code as written, and the dropdown class then uses the
corrected rule:
- opening the popover (`Dropdown.DropdownState.SetOpen` uses
  `Dropdown.OpenedView`, not `Dropdown.OpenedViewAsWritten`);
- the icon lookup (`Dropdown.DropdownState.Trigger` and `Dropdown.RowIcons`
  use `Dropdown.IconFor`, not `Dropdown.TriggerIconAsWritten` and
  `Dropdown.RowIconsAsWritten`).

The places where the model follows the code:

- **Trigger label.** The dropdown decides it against `filteredOptions`, not
  `options`:
  - a typed combobox value that is not an option is shown as the label once it
    is on show (`Dropdown.DropdownState.Trigger`);
  - a real option that a search has filtered out shows the placeholder
    (`Dropdown.SearchHidesSelectedValue`).
- **Keyspace of only whitespace.** `get_keyspace` passes it on as `""`
  rather than as no keyspace (`AstraDB.GetKeyspace`).
- **Missing argument in `_run`.** `_run` has no missing-argument check. A
  missing name surfaces as the `KeyError` of the dictionary lookup
  (`FlowTool.RunTweaks`).

## Model

| member | source | states |
|---|---|---|
| Common.Strip | src/backend/base/langflow/components/vectorstores/astradb.py:226 | Python `str.strip()`: an infix of the input with only whitespace before it and only whitespace after it, neither starting nor ending with whitespace; empty exactly when the input is all whitespace |
| Common.StripUnique | src/backend/base/langflow/components/vectorstores/astradb.py:226 | those properties determine the result: any infix with only whitespace around it that neither starts nor ends with whitespace is the stripped string |
| AstraDB.MapSearchType | src/backend/base/langflow/components/vectorstores/astradb.py:417-423 | "Similarity with score threshold" maps to "similarity_score_threshold" and "MMR (Max Marginal Relevance)" to "mmr", each in both directions; every other label maps to "similarity" |
| AstraDB.SearchTypeOptionsDistinct | src/backend/base/langflow/components/vectorstores/astradb.py:145 | the three labels of the Search Type dropdown select three different search types |
| AstraDB.Truthy | src/backend/base/langflow/components/vectorstores/astradb.py:435-443 | a value is falsy exactly when it is `None`, `False`, zero, `""`, `[]` or `{}` |
| AstraDB.HasQuery | src/backend/base/langflow/components/vectorstores/astradb.py:426 | a query is usable exactly when it is a string with at least one non-whitespace character |
| AstraDB.QueryArgs | src/backend/base/langflow/components/vectorstores/astradb.py:429-434 | the arguments of a query search have exactly the keys query, search_type, k and score_threshold |
| AstraDB.WithFilter | src/backend/base/langflow/components/vectorstores/astradb.py:442-444 | the result has the keys of the arguments, plus `filter` exactly when the filter is truthy; `filter` is then bound to the filter, and every other entry is kept |
| AstraDB.BuildSearchArgs | src/backend/base/langflow/components/vectorstores/astradb.py:425-446 | `query` is present iff the query is a non-blank string; `filter` is present iff the filter is truthy, and then equals it; with neither, the arguments are empty |
| AstraDB.SearchArgsEmpty | src/backend/base/langflow/components/vectorstores/astradb.py:425-440 | the arguments are empty exactly when the query is not a string with non-whitespace content and the filter is falsy |
| AstraDB.HasQueryIsStripped | src/backend/base/langflow/components/vectorstores/astradb.py:426 | a query is usable exactly when it is a string whose `strip()` is non-empty |
| AstraDB.SearchArgsWithQuery | src/backend/base/langflow/components/vectorstores/astradb.py:428-446 | with a usable query, the keys are query, search_type, k and score_threshold, plus filter only when the filter is truthy; query is the unstripped query, search_type the mapped type, k the number of results, score_threshold the threshold |
| AstraDB.SearchArgsFilterOnly | src/backend/base/langflow/components/vectorstores/astradb.py:435-446 | with no usable query but a truthy filter, the arguments are exactly `{n: number_of_results, filter: filter}` |
| AstraDB.PlanSearch | src/backend/base/langflow/components/vectorstores/astradb.py:461-466 | no search iff there is neither a usable query nor a truthy filter; `search` iff there is a usable query; `metadata_search` iff there is a filter and no query; a call gets the non-empty search arguments |
| AstraDB.GetApiEndpoint | src/backend/base/langflow/components/vectorstores/astradb.py:207-217 | a set endpoint always wins; with neither endpoint nor database name there is none; otherwise the endpoint is the one in the database list; a name missing from the list is the error raised by `.get` on `None` |
| AstraDB.GetKeyspace | src/backend/base/langflow/components/vectorstores/astradb.py:222-228 | a keyspace is returned iff one is set, and it is its stripped form: the set keyspace minus whitespace alone on each side, neither starting nor ending with whitespace; it is `""` exactly when the set keyspace is all whitespace |
| AstraDB.OptionNames | src/backend/base/langflow/components/vectorstores/astradb.py:320 | the options are the records' names, one per record, in record order |
| AstraDB.OptionsMetadata | src/backend/base/langflow/components/vectorstores/astradb.py:321-323 | the metadata is parallel to the records; entry i has the keys of record i except `name`, with the same values |
| AstraDB.OptionsSplitRecombines | src/backend/base/langflow/components/vectorstores/astradb.py:320-323 | metadata entry i with name i put back is record i: the split loses nothing |
| AstraDB.AdvancedFlags | src/backend/base/langflow/components/vectorstores/astradb.py:326-331 | the two "advanced" flags always differ; the endpoint field is not advanced exactly when a token is set and there are no databases |
| AstraDB.Refreshed | src/backend/base/langflow/components/vectorstores/astradb.py:335-338 | a refreshed dropdown holds the record names as options and the rest of each record as metadata; all its other entries are kept |
| AstraDB.Advanced | src/backend/base/langflow/components/vectorstores/astradb.py:327-331 | sets a field's `advanced` entry and keeps all its other entries |
| AstraDB.UpdatedConfig | src/backend/base/langflow/components/vectorstores/astradb.py:317-340 | the configuration keeps its set of fields, and every field other than database_name, api_endpoint and collection_name is unchanged |
| AstraDB.UpdatedConfigDropdowns | src/backend/base/langflow/components/vectorstores/astradb.py:317-340 | databases and collections are refreshed alike, with names as options and the rest as metadata; the two advanced flags differ, with the endpoint field not advanced iff a token is set and there are no databases |
| AstraDB.UpdatedDatabaseField | src/backend/base/langflow/components/vectorstores/astradb.py:320-331 | the database field gains exactly the keys `options`, `options_metadata` and `advanced`; its other entries are unchanged |
| AstraDB.UpdatedEndpointField | src/backend/base/langflow/components/vectorstores/astradb.py:327-330 | the endpoint field gains exactly the key `advanced`; its other entries are unchanged |
| AstraDB.UpdatedCollectionField | src/backend/base/langflow/components/vectorstores/astradb.py:335-338 | the collection field gains exactly the keys `options` and `options_metadata`, and no `advanced` flag; its other entries are unchanged |
| AstraDB.BuildConfig.UpdateBuildConfig | src/backend/base/langflow/components/vectorstores/astradb.py:317-340 | the configuration updated in place becomes `UpdatedConfig` of the old configuration and the fetched option records |
| FlowTool.BindKeys | src/backend/base/langflow/base/tools/flow_tool.py:80 | a dictionary built from key/value pairs has exactly the pairs' keys |
| FlowTool.BindLast | src/backend/base/langflow/base/tools/flow_tool.py:80 | in a dictionary built from pairs, a key is bound to the value of its last pair |
| FlowTool.BindPositional | src/backend/base/langflow/base/tools/flow_tool.py:79-80 | the bound names are exactly the input names; the i-th positional value is bound to the i-th name unless a later input has the same name |
| FlowTool.MissingArgsMembers | src/backend/base/langflow/base/tools/flow_tool.py:82 | the missing names are exactly the declared names that are not bound |
| FlowTool.MissingArgsInOrder | src/backend/base/langflow/base/tools/flow_tool.py:82 | the missing names are listed in input order: the list for a concatenation of inputs is the concatenation of the lists |
| FlowTool.ValidateInputs | src/backend/base/langflow/base/tools/flow_tool.py:71-86 | a non-zero positional count that differs from the input count raises the count error; success iff the counts match or there are no positional values and every name is a keyword; on success every name is bound, to the positional values (keywords discarded) or to the keywords; otherwise "Missing required arguments: " lists the missing names |
| FlowTool.Tweaks | src/backend/base/langflow/base/tools/flow_tool.py:91 | the tweaks are keyed by exactly the inputs' component names; each component receives the value bound to its input's name, and the later input wins |
| FlowTool.BuildTweaksDict | src/backend/base/langflow/base/tools/flow_tool.py:88-92 | fails exactly when validation fails, with the same error; on success it is the validated bindings re-keyed by component, keyed by exactly the component names; a component receives keyword value `kwargs[name]` for a keyword call and positional value i for a positional call, for the last input naming it |
| FlowTool.RunTweaks | src/backend/base/langflow/base/tools/flow_tool.py:44-51 | a non-zero positional count that differs from the input count raises the count error of `_run`; equal counts bind positionally; with only keywords, a missing name raises `KeyError` for the first missing input, and otherwise the keywords are re-keyed by component |
| FlowTool.RunAndArunAgree | src/backend/base/langflow/base/tools/flow_tool.py:44-51 | `_run` and `_arun` accept exactly the same calls and send the same tweaks |
| FlowTool.WrapTweaks | src/backend/base/langflow/base/tools/flow_tool.py:55 | the runner is sent one entry per component, each a dictionary with the single key `input_value` |
| FlowTool.WrapTweaksRoundTrip | src/backend/base/langflow/base/tools/flow_tool.py:107 | reading `input_value` back out of the wrapped tweaks gives the tweaks: wrapping loses nothing |
| FlowTool.RunResult | src/backend/base/langflow/base/tools/flow_tool.py:60-62 | no run outputs give "No output"; otherwise the first run output is formatted |
| Dropdown.TypedViewContents | src/frontend/src/components/core/dropdownComponent/index.tsx:59-66 | after typing, an empty term shows all options; otherwise the matches in the matcher's order, and in combobox mode the term, appended once only when the matcher did not return it |
| Dropdown.OpenedViewAsWritten | src/frontend/src/components/core/dropdownComponent/index.tsx:74-82 | as written, on opening all options come first, and `customValue` is appended exactly when combobox is on, the value is non-empty and equals `customValue`, whether or not it is already an option |
| Dropdown.OpenedViewAsWrittenDuplicates | src/frontend/src/components/core/dropdownComponent/index.tsx:74-82 | as written, reopening after typing and selecting an existing option lists that option twice |
| Dropdown.OpenedView | src/frontend/src/components/core/dropdownComponent/index.tsx:74-82 | on opening, all options come first; the typed value is appended, once, exactly when combobox is on, the value is non-empty, equals `customValue` and is not an option; a duplicate-free option list stays duplicate-free |
| Dropdown.IndexOf | src/frontend/src/components/core/dropdownComponent/index.tsx:106 | `findIndex` is -1 iff the value is absent; otherwise it is the value's first position |
| Dropdown.IconAt | src/frontend/src/components/core/dropdownComponent/index.tsx:105-116 | an icon exists iff there is metadata, the index is inside it and the icon is non-empty; index -1 or past the end gives none |
| Dropdown.TriggerIconAsWritten | src/frontend/src/components/core/dropdownComponent/index.tsx:105-116 | as written, the trigger icon is the metadata icon at the value's first position in `filteredOptions`, and there is none when the value is not on show |
| Dropdown.RowIconsAsWritten | src/frontend/src/components/core/dropdownComponent/index.tsx:238-240 | as written, row i of the icon layout shows the metadata icon at position i, whatever option the row shows |
| Dropdown.IconFor | src/frontend/src/components/core/dropdownComponent/index.tsx:105-116 | an option's icon is the metadata icon at its first position among all options; a value that is not an option has none |
| Dropdown.RowIcons | src/frontend/src/components/core/dropdownComponent/index.tsx:238-240 | one icon per row on show, each the icon of the option that row shows |
| Dropdown.IconAsWrittenMisaligned | src/frontend/src/components/core/dropdownComponent/index.tsx:105-116 | as written, after a search narrows ["a","b"] to ["b"], the trigger and the row show a's icon; the corrected icons show b's |
| Dropdown.TriggerLabel | src/frontend/src/components/core/dropdownComponent/index.tsx:117-121 | the label is the value when it is non-empty and on show, otherwise the placeholder |
| Dropdown.SearchHidesSelectedValue | src/frontend/src/components/core/dropdownComponent/index.tsx:117-121 | a selected option that a search has filtered out is labelled with the placeholder |
| Dropdown.Placeholder | src/frontend/src/components/core/dropdownComponent/index.tsx:40-42 | the formatted field name, or "Choose an option..." for a field without a name |
| Dropdown.Render | src/frontend/src/components/core/dropdownComponent/index.tsx:298-321 | there is no popover exactly when there are no options and combobox is off, and the text is then "Loading..." or "No parameters are available for display."; a popover is anchored to the children iff there are children |
| Dropdown.DropdownState.constructor | src/frontend/src/components/core/dropdownComponent/index.tsx:46-82 | at mount the popover is open iff there are children and the options are on show; a disabled dropdown with a value clears it once, silently |
| Dropdown.DropdownState.Rerender | src/frontend/src/components/core/dropdownComponent/index.tsx:68-72 | the disabled effect runs only when `disabled` changed, and calls `onSelect("", silent)` only when it became true with a value set |
| Dropdown.DropdownState.SetOpen | src/frontend/src/components/core/dropdownComponent/index.tsx:74-82 | opening recomputes the options on show from all options; closing or staying open keeps them |
| Dropdown.DropdownState.OnOpenChange | src/frontend/src/components/core/dropdownComponent/index.tsx:313 | a dropdown anchored to children ignores open and close requests; any other dropdown opens or closes as asked; a disabled trigger button cannot ask to open |
| Dropdown.DropdownState.SearchByTerm | src/frontend/src/components/core/dropdownComponent/index.tsx:59-66 | typing sets the options on show to the typed view of the matcher's result and remembers the term as `customValue` |
| Dropdown.DropdownState.SelectItem | src/frontend/src/components/core/dropdownComponent/index.tsx:159-162 | choosing a row calls `onSelect` with that row's option, not silently, and closes the popover |
| Dropdown.DropdownState.ChooseNewOption | src/frontend/src/components/core/dropdownComponent/index.tsx:188 | "New ..." opens the creation dialog |
| Dropdown.DropdownState.ChooseRefreshList | src/frontend/src/components/core/dropdownComponent/index.tsx:200-202 | "Refresh list" also opens the creation dialog |
| Dropdown.DropdownState.CloseDialog | src/frontend/src/components/core/dropdownComponent/index.tsx:215 | closing the dialog clears `openDialog` |
| Dropdown.DropdownState.Trigger | src/frontend/src/components/core/dropdownComponent/index.tsx:105-121 | the trigger text is the value when it is non-empty and on show, otherwise the placeholder; the icon is the one `IconFor` gives the value among all options, so an icon appears only for a value that is an option |
| Dropdown.DisableClearsOnce | src/frontend/src/components/core/dropdownComponent/index.tsx:68-72 | disabling a dropdown that has a value clears it with exactly one silent call, and a further disabled render calls nothing |
| Dropdown.ReopenIsIdempotent | src/frontend/src/components/core/dropdownComponent/index.tsx:74-82 | after a search, reopening twice shows the same list both times |
| Dropdown.TypeAndSelectNewValue | src/frontend/src/components/core/dropdownComponent/index.tsx:59-66 | in combobox mode, a new typed term is offered last; choosing it makes exactly one `onSelect` call, with that term, and closes the popover |
| FileCard.LastSegment | src/playground/src/components/chatView/fileCardWrapper.tsx:18-19 | `split(sep).pop() \|\| ""` is the suffix after the last separator: it holds no separator and is preceded by one unless it is the whole string |
| FileCard.LastSegmentUnique | src/playground/src/components/chatView/fileCardWrapper.tsx:18 | any string with those three properties is the last segment, so the properties specify it completely |
| FileCard.Describe | src/playground/src/components/chatView/fileCardWrapper.tsx:17-25 | for a string path, the name is the last "/"-segment, the type the last "."-segment and the path the string itself; an object's fields are copied unchanged |
| FileCard.TypeOfDottedDirectory | src/playground/src/components/chatView/fileCardWrapper.tsx:19 | the type is cut at the last "." of the whole path, so "a.b/c" has type "b/c" |
| FileCard.FileCardWrapper.constructor | src/playground/src/components/chatView/fileCardWrapper.tsx:13 | the file starts shown |
| FileCard.FileCardWrapper.Click | src/playground/src/components/chatView/fileCardWrapper.tsx:30 | a click flips `show` |
| FileCard.FileCardWrapper.Chevron | src/playground/src/components/chatView/fileCardWrapper.tsx:34 | the chevron is "ChevronDown" iff the file is shown, and "ChevronRight" iff it is hidden |
| FileCard.ShownAfterClicks | src/playground/src/components/chatView/fileCardWrapper.tsx:13-30 | after n clicks the file is shown iff n is even |

## Left out

- Astra DB I/O is not modelled. This covers `get_database_list`, `get_database_object`, `collection_exists`, `collection_data`, `_initialize_database_options` and `_initialize_collection_options`, together with their logging and exception handling. Their results are parameters: the database map and the option records.
- The vector store is not modelled: `build_vector_store`, `_add_documents_to_vector_store`, the search call itself, `docs_to_data` and `get_retriever_kwargs`. `AstraDB.PlanSearch` stops at the choice of call.
- `get_environment` and `parse_api_endpoint` are not modelled. Neither is the component's input declarations, except the Search Type labels.
- `search_score_threshold` is a `real` that is only carried, never computed with. Python floats are not modelled.
- Dictionary key order is not modelled. Python dicts keep insertion order, but the model's maps do not.
- `AstraDB.BuildConfig.UpdateBuildConfig`: the method writes each of the three fields once, not entry by entry as the Python code does. Only the intermediate states are not modelled, since the final configuration is the same.
- `AstraDB.BuildConfig.UpdateBuildConfig` requires the three dropdown fields to exist and every option record to have a `name`. The build configuration is generated from the declared inputs, and the option records are built with a name.
- `Dropdown.DropdownState.OnOpenChange` requires that a disabled dropdown is not asked to open, because the disabled trigger button (index.tsx line 87) sends no open request.
- `AstraDB.BuildSearchArgs` works on a dictionary value, not in place. The `args` dictionary is local to the method and never shared.
- Running a flow is not modelled: `run_flow`, `run_until_complete`, `get_arg_names`, `build_data_from_result_data` and `format_flow_output_data`, along with the loop that collects output data and the run-id lookup. The declared inputs and the run outputs are parameters, and the output formatter is a function parameter.
- `get_input_schema`, `args` and the tool's other members are not modelled.
- `FlowTool.BuildTweaksDict` names each component's value directly only for the last input naming that component, and for a positional call only when that input's name is not repeated. For the other inputs the value is stated through `FlowTool.Tweaks`, which the result equals.
- Fuse's fuzzy matching is not modelled. The matcher is a function parameter, and nothing is assumed about its ranking.
- `formatPlaceholderName` is a function parameter. `formatName` and `formatFileName` only affect displayed text and are not modelled.
- React rendering is not modelled: the Radix popover, portals and positioning, tooltips, CSS classes, the `NodeDialog` contents and the metadata summary row.
- cmdk's normalisation of an item's value before `onSelect` is not modelled. The model passes the option string unchanged.
- `Dropdown.DropdownState.SetOpen` and the class use the corrected opening rule (`OpenedView`). The rule as written is `OpenedViewAsWritten` (see Findings).
- `Dropdown.DropdownState.Trigger` and `Dropdown.RowIcons` use the corrected icon lookup (`IconFor`). The lookup as written is `TriggerIconAsWritten` and `RowIconsAsWritten` (see Findings).
- The playground trigger, the running-flow skeleton, the icon wrappers and the documentation bundles are not part of this model. They are presentation only.

## Findings

| source | as written | input that shows it | evidently intended | confidence | as-written member | corrected member |
|---|---|---|---|---|---|---|
| src/frontend/src/components/core/dropdownComponent/index.tsx:105-116 | the trigger icon, and each row's icon in the icon layout (238-240), is read from `optionsMetaData` at the position in `filteredOptions` | options ["a","b"] with icons "icon-a" and "icon-b", a search that leaves ["b"], value "b": both the trigger and the row show "icon-a" | the metadata is parallel to `options`, so the icon should be read at the option's position in `options` | medium, not executed | Dropdown.IconAsWrittenMisaligned | Dropdown.IconFor |
| src/frontend/src/components/core/dropdownComponent/index.tsx:74-82 | on opening, `customValue` is appended whenever it equals `value` in combobox mode, even when it is already an option | combobox with options ["Add","Subtract"]: type "Add", select it, reopen; the list on show is ["Add","Subtract","Add"] | append the typed value only when it is not already an option, so the list stays free of duplicates | medium, not executed | Dropdown.OpenedViewAsWrittenDuplicates | Dropdown.OpenedView |
