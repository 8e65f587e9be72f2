# Remote Home Assistant: configuration core in Dafny

This project models the parts of the Remote Home Assistant integration that decide things, rather than talk to the host platform:

- **Option lists of the configuration forms.**
  - The grouped option list, the organised service and entity lists, and the sorted domains and entities (`config_flow.py`).
  - The search-enabled select lists: grouped by domain with a header per domain, search metadata per id, and per-domain counts (`search_selector.py`).
- **Numbered filter labels** of the options flow, and the list position parsed back from a selected label.
- **Step handlers** of the configuration flow (`user`, `connection_details`) and the options flow (`init`, `domain_entity_filters`, `general_filters`, `events`). They are classes whose fields the steps update: the claimed unique id, and the options, filters and events being collected.
- **Instance discovery** (`rest_api.py`). It is a pure decision over the replies of the remote instance. It tries the custom discovery endpoint first, then the basic API, then the config endpoint, and in the last case synthesises an id.
- **The searchable select web component**: its selection, item list and search term (`frontend/searchable-select.js`). It is a class whose methods update those fields.

Modules:

| Module | Contents |
|---|---|
| `Wrappers` | `Option` and `Result` |
| `SeqFacts` | small sequence lemmas |
| `Text` | string order, splitting at the first dot, decimal numerals, ASCII case mapping, substring search |
| `Sorting` | `sorted` on lists and sets |
| `Grouping` | the group-by-domain loop shared by every builder, and counts |
| `Selector` | `search_selector.py` |
| `ConfigOptions` | the helpers and list builders of `config_flow.py` |
| `RestApi` | `rest_api.py` |
| `ConfigFlow` | the step handlers |
| `SearchableSelect` | the web component's state |

Both Python dicts and JavaScript `Set`s keep insertion order. A Python dict of lists is modelled as its keys in insertion order plus a map. The JavaScript `Set` is modelled as a sequence without repeats.

## Model

| member | source | states |
|---|---|---|
| Sorting.Sort | custom_components/remote_homeassistant/config_flow.py:456 | `sorted(list)` is ascending and a permutation of its input |
| Sorting.SortDistinct | custom_components/remote_homeassistant/config_flow.py:473 | sorting distinct keys (dict keys) gives a strictly ascending list |
| Sorting.SortedElements | custom_components/remote_homeassistant/config_flow.py:555 | `sorted(set)` lists every member once, strictly ascending, and nothing else |
| Grouping.GroupByDomain | custom_components/remote_homeassistant/config_flow.py:503-513 | the grouping loop gives each domain the ids whose key it is, in input order; dict keys in first-seen order; the remaining ids apart |
| Grouping.KeysInOrderMembers | custom_components/remote_homeassistant/config_flow.py:507-509 | a domain is a dict key exactly when some id falls into its group |
| Grouping.SortedKeysFacts | custom_components/remote_homeassistant/config_flow.py:473 | the sorted dict keys are strictly ascending, cover every group, and together with the ungrouped ids gather every input id exactly once |
| Grouping.CountsOfFacts | custom_components/remote_homeassistant/config_flow.py:536 | a count map over distinct domains has those keys, the group sizes as values, and sums to the number of ids gathered |
| ConfigOptions.FilterLabelsAt | custom_components/remote_homeassistant/config_flow.py:384 | the label `FilterLabels` offers at position i is `FilterStr(i, filters[i])`, the model of `_filter_str` with its 1-based number |
| ConfigOptions.FilterIndexOfFilterStr | custom_components/remote_homeassistant/config_flow.py:43-48 | `FilterIndex` (the parse at lines 365-368: the number before the first dot, minus one) of `FilterStr(i, f)` (`_filter_str`) is i, whatever the entity id contains |
| ConfigOptions.LabelIndex | custom_components/remote_homeassistant/config_flow.py:365-368 | every offered label parses to a valid list position |
| ConfigOptions.PickFiltersAt | custom_components/remote_homeassistant/config_flow.py:365-370 | `PickFilters` (the comprehension at lines 369-370): the k-th picked filter is the one at the position the k-th selected label parses to |
| ConfigOptions.PickFiltersFacts | custom_components/remote_homeassistant/config_flow.py:365-370 | `PickFilters`: a selected label rendered for filter i picks exactly `filters[i]` |
| ConfigOptions.PlainOptionsFacts | custom_components/remote_homeassistant/config_flow.py:495-496 | plain options offer exactly the given ids in order, no header, and each label equals its value |
| ConfigOptions.NamedOptionsFacts | custom_components/remote_homeassistant/config_flow.py:481-485 | `NamedOptions`, built from `NamedOption`: a group's options offer exactly its members in order, no header, each labelled `"  " + name` |
| ConfigOptions.GroupBlockFacts | custom_components/remote_homeassistant/config_flow.py:475-485 | a group is its `GroupHeader(d)` (disabled `__d__`) followed by its members |
| ConfigOptions.GroupSectionsMembers | custom_components/remote_homeassistant/config_flow.py:473-485 | the groups offer every member of the listed domains, each as often as it occurs |
| ConfigOptions.GroupSectionsHeaders | custom_components/remote_homeassistant/config_flow.py:473-479 | one header `__d__` per listed domain, in order |
| ConfigOptions.UngroupedOptionsFacts | custom_components/remote_homeassistant/config_flow.py:455-456 | `GroupedOptions` without grouping offers the sorted ids, value == label, and no header |
| ConfigOptions.SeparatorFacts | custom_components/remote_homeassistant/config_flow.py:490-494 | the `OtherSeparator` entry `__other__` is disabled |
| ConfigOptions.OtherPartMembers | custom_components/remote_homeassistant/config_flow.py:488-496 | the ungrouped ids are offered in ascending order |
| ConfigOptions.OtherPartHeaders | custom_components/remote_homeassistant/config_flow.py:488-494 | the separator appears exactly when groups precede ungrouped ids |
| ConfigOptions.GroupedOptionsSplit | custom_components/remote_homeassistant/config_flow.py:472-498 | the grouped list is the groups followed by the ungrouped part |
| ConfigOptions.GroupedOptionsMembers | custom_components/remote_homeassistant/config_flow.py:458-498 | in `GroupedOptions` with grouping, the non-disabled options are a permutation of the input |
| ConfigOptions.GroupedOptionsHeaders | custom_components/remote_homeassistant/config_flow.py:473-494 | `GroupedOptions` with grouping has one header per domain in ascending order, then `__other__` exactly when there are both dotted and undotted ids |
| ConfigOptions.KeyedExists | custom_components/remote_homeassistant/config_flow.py:463-467 | some id has a dot exactly when some group exists |
| ConfigOptions.UnkeyedExists | custom_components/remote_homeassistant/config_flow.py:468-469 | some id has no dot exactly when some id is left ungrouped |
| ConfigOptions.KeyedMember | custom_components/remote_homeassistant/config_flow.py:463-467 | a dotted id lands in the group of the text before its first dot |
| ConfigOptions.UnkeyedMembers | custom_components/remote_homeassistant/config_flow.py:468-469 | the ungrouped ids are exactly the undotted ones |
| ConfigOptions.GroupSortedByName | custom_components/remote_homeassistant/config_flow.py:481 | a group's members all carry its domain and come in ascending order of name |
| ConfigOptions.AppendNamedOptions | custom_components/remote_homeassistant/config_flow.py:481-485 | the loop over a group appends exactly the group's options |
| ConfigOptions.AppendPlainOptions | custom_components/remote_homeassistant/config_flow.py:495-496 | the loop over the ungrouped ids appends exactly their plain options |
| ConfigOptions.CreateGroupedOptions | custom_components/remote_homeassistant/config_flow.py:453-498 | `_create_grouped_options` returns `GroupedOptions` (or the plain sorted list), whose facts the lemmas above state |
| ConfigOptions.FlattenedMembers | custom_components/remote_homeassistant/config_flow.py:516-518 | `Flattened`, the sorted groups of some domains concatenated, gathers exactly those groups' ids |
| ConfigOptions.FlattenedOrdered | custom_components/remote_homeassistant/config_flow.py:516-518 | with strictly ascending domains the result is ordered by domain, then by id |
| ConfigOptions.GroupOrderedAppend | custom_components/remote_homeassistant/config_flow.py:517-518 | extending by one sorted group with a larger domain keeps that order |
| ConfigOptions.OrganizeServices | custom_components/remote_homeassistant/config_flow.py:500-520 | `_organize_services` returns `Flattened` over the ascending domains: each group sorted, undotted services under "other" |
| ConfigOptions.OrganizedServicesFacts | custom_components/remote_homeassistant/config_flow.py:500-520 | the organised services are a permutation of the input, ordered by domain, then by id |
| ConfigOptions.OrganizeEntitiesWithCounts | custom_components/remote_homeassistant/config_flow.py:522-538 | `_organize_entities_with_counts` returns `Flattened` over the ascending domains, and the count map |
| ConfigOptions.OrganizedEntitiesFacts | custom_components/remote_homeassistant/config_flow.py:522-538 | a permutation of the input, ordered by domain then id; `counts[d]` is the size of domain d; the counts sum to the number of entities |
| ConfigOptions.DomainsAndEntities | custom_components/remote_homeassistant/config_flow.py:540-557 | entities: the union of remote, included and excluded names, each once, ascending; domains: the text before the dot of the dotted ones, each once, ascending |
| Selector.SelectableAppend | custom_components/remote_homeassistant/search_selector.py:57-105 | the selectable values and header values of a concatenation are those of its parts |
| Selector.CreateSearchableSelector | custom_components/remote_homeassistant/search_selector.py:21-35 | options passed through unchanged; multiple, dropdown mode, no custom value, no sorting |
| Selector.SelectorIgnoresSelection | custom_components/remote_homeassistant/search_selector.py:21-35 | the preselected values and the placeholder do not affect the configuration |
| Selector.ItemOptionsFacts | custom_components/remote_homeassistant/search_selector.py:86-103 | a domain's item options offer exactly its sorted ids, each by the option its id determines |
| Selector.ItemOptionFacts | custom_components/remote_homeassistant/search_selector.py:86-103 | an id's `ItemOption` is selectable with the id as value; its label is `"  name"`, or `"  name (friendly)"` exactly when a friendly name exists and differs; its four search terms are the lowered id, name and domain, then the lowered friendly name or "" |
| Selector.SectionHeader | custom_components/remote_homeassistant/search_selector.py:72-83 | a domain's header is disabled `__d__`; its `HeaderLabel` is the upper-cased domain and, with counts shown, the number of ids in the domain |
| Selector.SectionFacts | custom_components/remote_homeassistant/search_selector.py:68-103 | a domain's section is one header followed by its ids in ascending order, all of that domain |
| Selector.SectionsFacts | custom_components/remote_homeassistant/search_selector.py:68-103 | the sections of some domains: one header per domain in order, and every id of those domains once |
| Selector.SortedDomainsFacts | custom_components/remote_homeassistant/search_selector.py:44-68 | the domains are strictly ascending and cover every id, undotted ones under "other" |
| Selector.OrganizedOptionsFacts | custom_components/remote_homeassistant/search_selector.py:57-105 | the list starts with the `SearchHint`; its non-disabled options are a permutation of the input, each the `ItemOption` of its id; its headers are the hint then `__d__` per domain ascending |
| Selector.AppendItemOptions | custom_components/remote_homeassistant/search_selector.py:86-103 | the inner loop appends exactly one option per id of the domain |
| Selector.OrganizeOptionsByDomain | custom_components/remote_homeassistant/search_selector.py:38-105 | returns the organised list; `counts` holds exactly the non-empty domains, each mapped to its size, summing to the number of ids |
| Selector.CreateServiceSearchSelector | custom_components/remote_homeassistant/search_selector.py:108-118 | the organised services with counts and no friendly names, under the fixed configuration |
| Selector.CreateEntitySearchSelector | custom_components/remote_homeassistant/search_selector.py:121-136 | the organised entities with counts and the given friendly names, under the fixed configuration |
| Selector.DomainOptionsAt | custom_components/remote_homeassistant/search_selector.py:151-157 | the option at position k is the `DomainOption` of the k-th domain |
| Selector.DomainOptionsValues | custom_components/remote_homeassistant/search_selector.py:151-157 | the domain options offer exactly the domains in order and no header |
| Selector.CreateDomainSearchSelector | custom_components/remote_homeassistant/search_selector.py:139-163 | the hint followed by one option per domain in ascending order |
| Selector.DomainSelectorFacts | custom_components/remote_homeassistant/search_selector.py:145-157 | only the hint is disabled; the domains are offered ascending, each as often as given, labelled `"d (n entities)"` with n defaulting to 0 |
| RestApi.Endpoint | custom_components/remote_homeassistant/rest_api.py:41 | a URL starts with `https://` exactly when `secure` |
| RestApi.Head32 | custom_components/remote_homeassistant/rest_api.py:111 | `[:32]` keeps at most the first 32 characters |
| RestApi.GetDiscoveryInfo | custom_components/remote_homeassistant/rest_api.py:39-122 | one to three requests, each with the bearer token and the chosen scheme; discovery, basic API and config endpoints, in that order |
| RestApi.NativeShortCircuit | custom_components/remote_homeassistant/rest_api.py:52-56 | a 200 object with "uuid" is returned unchanged after one request |
| RestApi.UnauthorizedStops | custom_components/remote_homeassistant/rest_api.py:57-63 | a 401 from the discovery endpoint is InvalidAuth after one request |
| RestApi.NativeOrFallback | custom_components/remote_homeassistant/rest_api.py:50-70 | `NativeOutcome`: discovery stops after one request exactly on a 401 or a 200 object with "uuid"; otherwise the basic API is asked next |
| RestApi.FallbackApiDecides | custom_components/remote_homeassistant/rest_api.py:71-82 | `ApiOutcome`: on the fallback, a 401 is InvalidAuth; a failure, another status or an unreadable body is CannotConnect; only a readable 200 reaches the config endpoint |
| RestApi.FallbackInfoFacts | custom_components/remote_homeassistant/rest_api.py:105-119 | `FallbackInfo` has exactly five keys; location and version default to "Remote HA at host" and "unknown"; it is flagged as fallback; its uuid is the `PseudoUuid` of host, port and location |
| RestApi.PseudoUuidLength | custom_components/remote_homeassistant/rest_api.py:109-111 | with a 64-character digest, `PseudoUuid` is its 32-character prefix |
| RestApi.FallbackUuidStable | custom_components/remote_homeassistant/rest_api.py:107-111 | the same host, port and config reply give the same uuid |
| RestApi.WrongBodyEscapes | custom_components/remote_homeassistant/rest_api.py:96-105 | after a readable basic API reply (`ApiOutcome`), discovery fails exactly when that reply is a number, boolean or null, or the config reply (`ConfigOutcome`, a failure counting as an empty object) is not an object |
| ConfigFlow.ErrorCode | custom_components/remote_homeassistant/config_flow.py:123-135 | each exception maps to its own form error: api_problem, cannot_connect, invalid_auth, unsupported_version, missing_endpoint, unknown |
| ConfigFlow.ErrorCodeInjective | custom_components/remote_homeassistant/config_flow.py:123-135 | different exceptions show different errors |
| ConfigFlow.ValidateInput | custom_components/remote_homeassistant/config_flow.py:51-65 | succeeds exactly when discovery succeeds with both keys; InvalidAuth and CannotConnect pass through |
| ConfigFlow.FallbackValidates | custom_components/remote_homeassistant/config_flow.py:65 | a fallback discovery always validates |
| ConfigFlow.InstanceFlow.ClaimAndCreate | custom_components/remote_homeassistant/config_flow.py:97-99 | claims the id; aborts when an entry holds it, creates the entry otherwise |
| ConfigFlow.InstanceFlow.StepUser | custom_components/remote_homeassistant/config_flow.py:91-114 | remote: entry under the fixed remote id; main: the connection form; other: error "unknown"; no input: the form |
| ConfigFlow.InstanceFlow.StepConnectionDetails | custom_components/remote_homeassistant/config_flow.py:117-159 | a validation error shows its code and creates nothing; success claims the uuid and creates the entry titled with the location name |
| ConfigFlow.OptionsFlow.constructor | custom_components/remote_homeassistant/config_flow.py:214-216 | options, filters and events start unset |
| ConfigFlow.OptionsFlow.StepInit | custom_components/remote_homeassistant/config_flow.py:212-289 | the remote role aborts; a submission becomes the options and leads on; filters and events are untouched |
| ConfigFlow.OptionsFlow.StepDomainEntityFilters | custom_components/remote_homeassistant/config_flow.py:291-352 | a submission is merged into the options (later keys win), then the filter form shows the stored filters' labels, all selected |
| ConfigFlow.OptionsFlow.StepGeneralFilters | custom_components/remote_homeassistant/config_flow.py:354-398 | rendering loads the stored filters; adding appends one filter, keeps the earlier ones, and selects a label that parses to the new filter's position; finishing stores the filters the selected labels name and renders the events form over the stored events, sorted, value == label |
| ConfigFlow.OptionsFlow.StepEvents | custom_components/remote_homeassistant/config_flow.py:400-447 | finishing stores the submitted list and creates the entry; adding joins the event set and the selection; the offered events are always the set, ascending, value == label |
| SearchableSelect.RemoveFacts | custom_components/remote_homeassistant/frontend/searchable-select.js:88 | `Remove` (`delete(v)`) removes exactly v and keeps the set without repeats |
| SearchableSelect.AddFacts | custom_components/remote_homeassistant/frontend/searchable-select.js:90 | `Add` (`add(v)`) adds exactly v, keeps no repeats, and leaves earlier members in place |
| SearchableSelect.ToggleFacts | custom_components/remote_homeassistant/frontend/searchable-select.js:86-94 | `Toggled` flips v's membership and no other's; toggling twice restores the members |
| SearchableSelect.DedupFacts | custom_components/remote_homeassistant/frontend/searchable-select.js:27 | `Dedup` (a set built from a list) holds each of its values exactly once |
| SearchableSelect.DedupOfDistinct | custom_components/remote_homeassistant/frontend/searchable-select.js:27-32 | building the set from a list without repeats keeps the list |
| SearchableSelect.SubsequenceRefl | custom_components/remote_homeassistant/frontend/searchable-select.js:104-105 | the unfiltered list is a subsequence of itself |
| SearchableSelect.FilterMatchingFacts | custom_components/remote_homeassistant/frontend/searchable-select.js:108-121 | `FilterMatching` keeps order, keeps every header, and keeps an option exactly when its lower-cased label or value, or a search term, contains the term |
| SearchableSelect.FilteredFacts | custom_components/remote_homeassistant/frontend/searchable-select.js:103-122 | `Filtered` with an empty term returns the items unchanged; otherwise an order-preserving subsequence of exactly the matching items |
| SearchableSelect.AddAllFacts | custom_components/remote_homeassistant/frontend/searchable-select.js:71-75 | `AddAll`, adding values one by one, keeps earlier members in place, adds exactly those values, and keeps no repeats |
| SearchableSelect.EnabledValuesMembers | custom_components/remote_homeassistant/frontend/searchable-select.js:71-75 | the values added are exactly those of the enabled items |
| SearchableSelect.Widget.constructor | custom_components/remote_homeassistant/frontend/searchable-select.js:7-14 | no items, nothing selected, empty search term |
| SearchableSelect.Widget.SetItems | custom_components/remote_homeassistant/frontend/searchable-select.js:21-24 | a missing list is empty; nothing else changes |
| SearchableSelect.Widget.SetSelected | custom_components/remote_homeassistant/frontend/searchable-select.js:26-29 | the selection is the given values without repeats, in first-occurrence order |
| SearchableSelect.Widget.Selected | custom_components/remote_homeassistant/frontend/searchable-select.js:31-33 | each selected value exactly once; setting it back changes nothing |
| SearchableSelect.Widget.SetSearchTerm | custom_components/remote_homeassistant/frontend/searchable-select.js:40-43 | the stored term is the lower-cased input, so it is already lower case |
| SearchableSelect.Widget.ToggleItem | custom_components/remote_homeassistant/frontend/searchable-select.js:86-94 | flips v's membership, no other's, keeps no repeats |
| SearchableSelect.Widget.SelectNone | custom_components/remote_homeassistant/frontend/searchable-select.js:80-84 | the selection is empty |
| SearchableSelect.Widget.SelectAll | custom_components/remote_homeassistant/frontend/searchable-select.js:69-78 | earlier selections stay in place; exactly the values of the visible enabled items are added |

## Left out

- HTTP sessions, headers other than `Authorization`, `verify_ssl` and JSON decoding are not modelled. Each request is a `Request`, and the instance's replies are a function from request to `HttpOutcome`.
- A JSON body is reduced to its shape. The JSON values inside an object are strings, booleans, or other values represented by their text.
- SHA-256 is a function parameter. The uuid properties assume only that it yields 64 characters.
- The host's flow machinery (schemas, selectors, `async_show_form`, `async_create_entry`, unique-id registry) is not modelled. A form is its step id, errors, choices and defaults. The registry is the set of configured ids.
- The following are not part of this model:
  - the zeroconf and YAML import steps;
  - `slugify`;
  - the debug logger;
  - the smoke-test scripts.
- The following are not modelled:
  - the service, domain and entity selectors in the `init` and `domain_entity_filters` forms (their builders are modelled on their own);
  - the description placeholders;
  - the connection form's prefilled defaults.
- `const.py` is not part of this model. Its keys are assumed as follows:
  - `type`, `remote`, `main`, `filter` and `subscribe_events`;
  - the remote role's unique id `remote`.
- Case mapping covers ASCII letters only.
- The float thresholds of a filter are opaque text.
- `str()` of a non-string title or uuid is a text field of the JSON value.
- Integers are unbounded, as in Python.
- Rendering, shadow DOM, event listeners, the open/closed state of the dropdown and `dispatchEvent` of the web component are UI and not modelled. An item's label and value are always present, so the optional chaining and `filter(Boolean)` change nothing once the term is non-empty.
- ConfigFlow.OptionsFlow.StepInit requires the live connection when it renders the form. The source reads `remote` there even when the lookup failed, which raises `NameError`.
- ConfigFlow.OptionsFlow.StepGeneralFilters has two requirements:
  - A submission requires the form to have been rendered first. Otherwise `filters` is None and appending to it raises.
  - On finishing, the selected labels must be ones the form offered. The host's multi-select enforces this.
- ConfigFlow.OptionsFlow.StepGeneralFilters does not model aliasing. In the source, `self.filters` is the stored options' own list, so appending also changes the stored entry's list.
- ConfigFlow.OptionsFlow.StepEvents requires collected options when finishing. Without them the source falls through and raises `KeyError` on the missing new event.
- ConfigFlow.OptionsFlow.StepEvents does not model `vol.UNDEFINED` in its render path. There the defaults are the stored event list, and an empty list stands for `vol.UNDEFINED`.
- ConfigOptions.CreateGroupedOptions sorts a group by full id where the source sorts by name. ConfigOptions.GroupSortedByName proves the two orders agree: every member of a group shares the same text before its dot.
- ConfigOptions.OrganizeServices does not treat a real domain named "other" separately. The undotted services join it, as in the source.
