# TRMNL configuration flows in Dafny

This project models the configuration flows of two Home Assistant
integrations that push dashboard data to a TRMNL e-ink display.

- The **dashboard** integration is `custom_components/trmnl_dashboard/config_flow.py`.
  It stores entity references: a list of groups, pills and weather
  visualizations, plus layout settings. Whenever the webhook URL is truthy, it
  POSTs an expanded copy of them.
- The **webhook** integration is `trmnl-plugin-hacs-webhook/trmnl_webhook/config_flow.py`.
  It stores the current state dictionaries of the entities it knows, and POSTs
  that record every time a form is submitted without adding a group.

Both integrations have the same two steps:

- **Setup** (`async_step_user`): shows a form, or creates the config entry.
- **Options** (`async_step_init`): does the same for an existing entry. It
  adds one `remove_group_{i}` toggle per group.

Each form holds any number of groups. The checkbox `add_another_group`
re-renders the form with one more group slot. Each step rebuilds its groups
from the submitted form, as follows:

1. It counts the longest run `group_0_…`, `group_1_…`, … of indices with a
   name or an entities field (at least one).
2. In the options step, it drops the groups whose removal toggle is truthy.
3. It builds each remaining group from its own index.

Layout of the model:

| file | module | contents |
|---|---|---|
| `values.dfy` | `Values` | submitted form values with Python truthiness; the `group_{i}_…` key builders and their injectivity; the `if ent` filter `Keep` |
| `groups.dfy` | `Groups` | the stored record and the overlay of entry data and options; the group-counting loop; the removal pass; the group-building recursion `KeptGroups` shared by all four steps |
| `schema.dfy` | `Schema` | form fields and their defaults; the loop appending the group blocks; the form engine's submission of an unchanged form; the facts that keep keys distinct |
| `dashboard.dfy` | `Dashboard` | the dashboard variant: display settings and toggle encoding, the three schema builders, entity expansion and weather forecasts, the payload, and both steps |
| `webhook.dfy` | `Webhook` | the webhook variant: filtering to known entity states, the three schema builders, and both steps with the send that can fail |

How the model stands in for the runtime:

- A step is a function `UserStep`/`InitStep` returning a `Step`. A `Step`
  holds an outcome (a form shown or an entry created) and the delivery the
  step attempts, if any. The methods `AsyncStepUser`/`AsyncStepInit` carry
  the source's loops and are proved equal to these functions.
- Both steps take the persisted record as a parameter `prev`. It stands for
  `{**entry.data, **entry.options}`, the merge that `Groups.Overlay` models;
  the steps do not call `Overlay` themselves.
- The entity registry (`hass.states.get`) and the weather forecast service
  are function parameters.
- The webhook variant's transport outcome is the boolean `transportOk`.
- A form submitted without edits is modelled by `Schema.SubmitDefaults`: every
  field that has a default comes back holding it, and a field without one
  is left out. This is the Home Assistant frontend's
  behaviour, not code of these integrations. The round-trip lemmas depend on it.

## Model

| member | source | states |
|---|---|---|
| Values.NatToString | custom_components/trmnl_dashboard/config_flow.py:22 | the decimal rendering used in field keys is a non-empty string of digits |
| Values.NatToStringInjective | custom_components/trmnl_dashboard/config_flow.py:22 | different indices render to different digit strings |
| Values.IndexedKeysDistinct | custom_components/trmnl_dashboard/config_flow.py:239-241 | `group_{i}_name`, `group_{j}_entities` and `remove_group_{k}` never collide, and each is injective in its index |
| Values.IndexedKeysInitial | custom_components/trmnl_dashboard/config_flow.py:483-485 | every per-group key starts with `g` or `r`, unlike the fixed keys of the forms |
| Values.KeepMembers | custom_components/trmnl_dashboard/config_flow.py:32 | the `if ent` filter keeps exactly the members of the input that pass, and never lengthens it |
| Values.KeepAppend | custom_components/trmnl_dashboard/config_flow.py:32 | filtering a concatenation filters each part |
| Values.KeepAllPass | custom_components/trmnl_dashboard/config_flow.py:53 | a list whose ids all pass is kept unchanged |
| Values.KeepIdempotent | custom_components/trmnl_dashboard/config_flow.py:53 | filtering twice is filtering once |
| Groups.Overlay | custom_components/trmnl_dashboard/config_flow.py:257 | merging with no options gives the entry data, and with no data gives the options |
| Groups.InitialSlots | custom_components/trmnl_dashboard/config_flow.py:412-413 | the first render shows one slot per stored group, and one slot when there are none |
| Groups.GroupCount | custom_components/trmnl_dashboard/config_flow.py:21-24 | the count is at least 1; when group 0 is present, every index below it has a field and the count itself has none |
| Groups.GroupCountIsLongestPrefix | trmnl-plugin-hacs-webhook/trmnl_webhook/config_flow.py:17-20 | any n whose lower indices all have a field while index n has none is the count (or 1 when n is 0) |
| Groups.CountGroups | custom_components/trmnl_dashboard/config_flow.py:264-267 | the `while` loop returns the longest run of indices with a group field |
| Groups.RemovedIndicesMeaning | custom_components/trmnl_dashboard/config_flow.py:270-273 | the removed list holds exactly the indices below the count whose removal toggle is truthy, in increasing order |
| Groups.SurvivorsMeaning | custom_components/trmnl_dashboard/config_flow.py:276-278 | the kept indices are exactly those below the count that are not removed, in increasing order |
| Groups.SurvivorsCount | custom_components/trmnl_dashboard/config_flow.py:270-278 | kept and removed indices together account for every counted index |
| Groups.SurvivorsAll | custom_components/trmnl_dashboard/config_flow.py:28 | without the removal pass, every index from 0 to the count is kept |
| Groups.KeptGroupsAreSurvivors | custom_components/trmnl_dashboard/config_flow.py:276-286 | the k-th built group is the group built from the k-th surviving index |
| Groups.KeptGroupsNoFlags | custom_components/trmnl_dashboard/config_flow.py:277-278 | when no toggle is set, the removal pass changes nothing |
| Groups.KeptGroupsWithoutRemoval | custom_components/trmnl_dashboard/config_flow.py:27-36 | the setup step builds one group per counted index, group k from index k |
| Schema.GroupDefaultPrecedence | custom_components/trmnl_dashboard/config_flow.py:228-238 | a group field's default is the submitted value when present; otherwise the stored group's value; otherwise `Group {i+1}` and no entities |
| Schema.GroupFields | custom_components/trmnl_dashboard/config_flow.py:227-240 | n group blocks occupy n times the block width |
| Schema.GroupFieldsShape | custom_components/trmnl_dashboard/config_flow.py:470-485 | block i holds the name field, then the entities field, then (in the options form) `remove_group_{i}` defaulting to false |
| Schema.GroupFieldsKeys | custom_components/trmnl_dashboard/config_flow.py:227-240 | the block keys are pairwise distinct, per-group keys, none for index n or above, and no removal key in the setup form |
| Schema.AppendGroupFields | custom_components/trmnl_dashboard/config_flow.py:226-240 | the loop appends exactly the n group blocks to the fields built so far |
| Schema.SubmitDefaultsKeys | custom_components/trmnl_dashboard/config_flow.py:239-241 | an unchanged submission holds only keys of the form |
| Schema.SubmitDefaultsAt | custom_components/trmnl_dashboard/config_flow.py:239-241 | in a form with distinct keys, every field with a default comes back holding that default |
| Schema.SubmittedGroups | custom_components/trmnl_dashboard/config_flow.py:226-241 | a form made of fixed fields, n group blocks and a tail has distinct keys; submitted unchanged, it returns each block's defaults and no group at index n or above |
| Schema.UrlPillKeys | trmnl-plugin-hacs-webhook/trmnl_webhook/config_flow.py:95-104 | the URL and pills fields have distinct keys that never look like group keys |
| Dashboard.ToggleRoundTrip | custom_components/trmnl_dashboard/config_flow.py:195-198 | a toggle stored as `"true"`/`"false"` is shown as its truth value, and stored again unchanged; the string `"false"` is truthy before normalization |
| Dashboard.DisplayDefaultPrecedence | custom_components/trmnl_dashboard/config_flow.py:189-224 | the defaults of the display fields (computed by `SelectDefault`, `ToggleDefault` and `ListDefault` inside `DisplayFields`) follow a per-kind precedence. Selects (`layout`, `pill_position`, `scale`) read a non-empty draft only and have no default when it lacks the key; with no draft they use the stored value, else `groups`/`top`/`normal`. Toggles read any draft, fall back to the stored value and then to true, and are shown normalised. The two entity lists read a non-empty draft, falling back to the stored ids |
| Dashboard.GetDynamicSchema | custom_components/trmnl_dashboard/config_flow.py:177-242 | the builder returns the setup form: URL, display fields, n group blocks, `add_another_group` |
| Dashboard.GetDynamicOptionsSchema | custom_components/trmnl_dashboard/config_flow.py:425-487 | the builder returns the options form, whose URL default is always the persisted one |
| Dashboard.GetOptionsSchema | custom_components/trmnl_dashboard/config_flow.py:489-520 | the builder returns URL, pills and group blocks with removal toggles, and nothing else |
| Dashboard.DynamicSchemaShape | custom_components/trmnl_dashboard/config_flow.py:177-242 | the setup form has 10+2n fields: URL first, the 8 display fields, group i at 9+2i and 10+2i, `add_another_group` last |
| Dashboard.DynamicSchemaKeys | custom_components/trmnl_dashboard/config_flow.py:184-241 | the setup form's keys are distinct and no key names a group at index n or above |
| Dashboard.DynamicOptionsSchemaShape | custom_components/trmnl_dashboard/config_flow.py:425-487 | the options form has 10+3n fields: the persisted URL, the display fields, group i at 9+3i with its removal toggle at 11+3i, `add_another_group` last |
| Dashboard.DynamicOptionsSchemaKeys | custom_components/trmnl_dashboard/config_flow.py:427-486 | the options form's keys are distinct and name no group at index n or above |
| Dashboard.OptionsSchemaShape | custom_components/trmnl_dashboard/config_flow.py:489-520 | the older options form has 2+3n fields: URL, pills, then group blocks with removal toggles |
| Dashboard.OptionsSchemaKeys | custom_components/trmnl_dashboard/config_flow.py:489-520 | the older options form has distinct keys and no `add_another_group` |
| Dashboard.RefsOf | custom_components/trmnl_dashboard/config_flow.py:53 | one reference per truthy id |
| Dashboard.RefsOfIds | custom_components/trmnl_dashboard/config_flow.py:53-55 | the references carry exactly the truthy ids, in order, and are all unexpanded and non-empty |
| Dashboard.RefsOfRefs | custom_components/trmnl_dashboard/config_flow.py:214-216 | rendering stored references as ids and submitting them gives back the same references |
| Dashboard.BuildGroupMeaning | custom_components/trmnl_dashboard/config_flow.py:29-36 | a group is named `Group {idx+1}` when no name is submitted, keeps a submitted name exactly when it is truthy, and holds references to exactly the truthy ids submitted for it (none when the field is absent) |
| Dashboard.MaterializeGroups | custom_components/trmnl_dashboard/config_flow.py:270-286 | the removal and build loops return the groups of the surviving indices, in order |
| Dashboard.ExpandEntityList | custom_components/trmnl_dashboard/config_flow.py:95-109 | the expansion loop returns the expansion of every entity |
| Dashboard.ExpandGroupList | custom_components/trmnl_dashboard/config_flow.py:75-94 | the group loop expands the entities of every group |
| Dashboard.ExpandVisualizationList | custom_components/trmnl_dashboard/config_flow.py:110-140 | the visualization loop expands each entity and attaches a weather forecast where one is answered |
| Dashboard.ExpandAllMeaning | custom_components/trmnl_dashboard/config_flow.py:96-109 | expansion keeps length, order and ids; passes unknown ids through; replaces known ones by their snapshot; is idempotent |
| Dashboard.ExpandGroupsMeaning | custom_components/trmnl_dashboard/config_flow.py:76-94 | expanding groups keeps their number, names and entity ids |
| Dashboard.ForecastOnlyForWeather | custom_components/trmnl_dashboard/config_flow.py:112-140 | ids and order are kept; an unknown visualization passes through unchanged; a known one carries its snapshot; a reference gets a forecast exactly when it is a known `weather.` entity whose service call answered for it, and then gets that answer's `forecast` entry (empty when missing) |
| Dashboard.RecordMeaning | custom_components/trmnl_dashboard/config_flow.py:56-67 | the toggles are stored as `"true"` exactly when submitted truthy or absent; pills and visualizations hold exactly the truthy submitted ids |
| Dashboard.Finish | custom_components/trmnl_dashboard/config_flow.py:69-159 | the entry is created with the record; the expanded payload is delivered exactly when the URL is truthy, whatever the send does |
| Dashboard.AsyncStepUser | custom_components/trmnl_dashboard/config_flow.py:13-175 | the setup handler computes the setup step |
| Dashboard.AsyncStepInit | custom_components/trmnl_dashboard/config_flow.py:255-423 | the options handler computes the options step |
| Dashboard.UserStepOutcomes | custom_components/trmnl_dashboard/config_flow.py:19-175 | with no input: a form sized by the stored groups, and nothing sent. With add-a-group: the form again with one slot more and numbered labels. Otherwise: the entry, group k built from index k, delivered exactly when the URL is truthy |
| Dashboard.InitStepRemoval | custom_components/trmnl_dashboard/config_flow.py:270-409 | the options entry holds the unflagged groups in order, built from their own indices; removed plus kept groups make up the count; delivery exactly when the URL is truthy |
| Dashboard.UrlPrecedence | custom_components/trmnl_dashboard/config_flow.py:51 | an empty submitted URL falls back to the stored one in setup, but is kept (and nothing delivered) in the options step (line 302) |
| Dashboard.InitAddRendersByRawIndex | custom_components/trmnl_dashboard/config_flow.py:287-301 | adding a group in the options step sends nothing and sizes the form by survivors + 1, but slot j shows the draft's raw group j, removal toggle reset |
| Dashboard.ResubmittedGrowth | custom_components/trmnl_dashboard/config_flow.py:37-50 | the add-a-group form submitted unchanged counts one group more, asks for no further group, and keeps the draft's group fields |
| Dashboard.SetupAddGrowsByOne | custom_components/trmnl_dashboard/config_flow.py:37-50 | submitting that form then creates an entry with one group more, the draft's filled groups rebuilt as they were |
| Dashboard.FirstRenderHead | custom_components/trmnl_dashboard/config_flow.py:160-163 | the first render has distinct keys, opens with the stored URL and display fields, and ends with `add_another_group` |
| Dashboard.UnchangedSelects | custom_components/trmnl_dashboard/config_flow.py:184-193 | an unchanged first render returns the stored URL, layout, pill position and scale (or their defaults), and no add request |
| Dashboard.UnchangedToggles | custom_components/trmnl_dashboard/config_flow.py:195-208 | an unchanged first render returns each toggle as its stored value's truth |
| Dashboard.UnchangedLists | custom_components/trmnl_dashboard/config_flow.py:212-224 | an unchanged first render returns the stored pill and visualization ids |
| Dashboard.UnchangedGroups | custom_components/trmnl_dashboard/config_flow.py:226-241 | an unchanged first render returns each shown group's stored name and ids, removal toggles false, and nothing past the last slot |
| Dashboard.RoundTripGroups | custom_components/trmnl_dashboard/config_flow.py:19-36 | for a record in the form the steps persist (`Persistable`: at least one group, every group named, references only, every field present, toggles as `"true"`/`"false"`), the groups shown and submitted unchanged are counted and rebuilt exactly, with none flagged |
| Dashboard.RebuildStoredGroup | custom_components/trmnl_dashboard/config_flow.py:29-36 | a stored group whose own defaults are submitted is rebuilt as it was |
| Dashboard.RoundTripFields | custom_components/trmnl_dashboard/config_flow.py:51-67 | for a `Persistable` record, the other stored fields, shown and submitted unchanged, are stored again as they were |
| Dashboard.OptionsRoundTrip | custom_components/trmnl_dashboard/config_flow.py:255-423 | for a `Persistable` record, opening the options form and submitting it unchanged creates the very same record; other records do not round-trip (see `NamelessGroupRenamed`, `EmptyGroupsGainOne`) |
| Dashboard.SetupRoundTrip | custom_components/trmnl_dashboard/config_flow.py:13-175 | the same holds for the setup form shown over a `Persistable` record |
| Dashboard.NamelessGroupRenamed | custom_components/trmnl_dashboard/config_flow.py:228-239 | a group stored without a name is shown as `Group {k+1}` and comes back under that name, so it differs from the stored group |
| Dashboard.EmptyGroupsGainOne | custom_components/trmnl_dashboard/config_flow.py:160-163 | a record without groups, shown in either form and submitted unchanged, is stored with the single group `Group 1` and no entities |
| Dashboard.SingleEmptySlot | custom_components/trmnl_dashboard/config_flow.py:237-238 | the one empty slot shown over a record without groups comes back as one group `Group 1`, no entities, no add request, and no removal flag |
| Webhook.ValidEntities | trmnl-plugin-hacs-webhook/trmnl_webhook/config_flow.py:28-33 | the loop returns the state dictionaries of the truthy ids the registry knows |
| Webhook.KnownStatesMeaning | trmnl-plugin-hacs-webhook/trmnl_webhook/config_flow.py:28-33 | one state per kept id, in order: the registry's snapshot of that id |
| Webhook.KnownStatesIds | trmnl-plugin-hacs-webhook/trmnl_webhook/config_flow.py:50-56 | the kept states carry exactly the known truthy ids; an unknown id never appears; none carries a forecast |
| Webhook.BuildGroupMeaning | trmnl-plugin-hacs-webhook/trmnl_webhook/config_flow.py:24-37 | a group is named as in the dashboard variant and holds the states of its known truthy ids |
| Webhook.MaterializeGroups | trmnl-plugin-hacs-webhook/trmnl_webhook/config_flow.py:150-171 | the removal and build loops return the groups of the surviving indices, in order |
| Webhook.GetDynamicSchema | trmnl-plugin-hacs-webhook/trmnl_webhook/config_flow.py:87-124 | the builder returns the setup form |
| Webhook.GetDynamicOptionsSchema | trmnl-plugin-hacs-webhook/trmnl_webhook/config_flow.py:212-244 | the builder returns the options form |
| Webhook.GetOptionsSchema | trmnl-plugin-hacs-webhook/trmnl_webhook/config_flow.py:246-277 | the builder returns the older options form |
| Webhook.DynamicSchemaShape | trmnl-plugin-hacs-webhook/trmnl_webhook/config_flow.py:87-124 | the setup form has 3+2n fields: URL, pills, group i at 2+2i and 3+2i, `add_another_group` last; keys distinct; no group at n or above |
| Webhook.DynamicOptionsSchemaShape | trmnl-plugin-hacs-webhook/trmnl_webhook/config_flow.py:212-244 | the options form has 3+3n fields with the persisted URL and removal toggles at 4+3i; keys distinct; no group at n or above |
| Webhook.OptionsSchemaIsPrefix | trmnl-plugin-hacs-webhook/trmnl_webhook/config_flow.py:246-277 | the older options form is the options form without `add_another_group` |
| Webhook.AsyncStepUser | trmnl-plugin-hacs-webhook/trmnl_webhook/config_flow.py:9-85 | the setup handler computes the setup step |
| Webhook.AsyncStepInit | trmnl-plugin-hacs-webhook/trmnl_webhook/config_flow.py:137-210 | the options handler computes the options step |
| Webhook.UserStepOutcomes | trmnl-plugin-hacs-webhook/trmnl_webhook/config_flow.py:15-85 | with no input: the form with info text. With add-a-group: one slot more, nothing sent. Otherwise: the record is always sent, whatever the URL; it becomes the entry exactly when the send succeeds, else the form returns with `webhook_failed` |
| Webhook.InitStepRemoval | trmnl-plugin-hacs-webhook/trmnl_webhook/config_flow.py:150-205 | the sent record holds the submitted URL, the known pills and the unflagged groups in order; a failed send shows the options form with one slot per survivor and `webhook_failed` |
| Webhook.InitAddRenders | trmnl-plugin-hacs-webhook/trmnl_webhook/config_flow.py:172-182 | adding a group in the options step sends nothing and shows the options form again with survivors + 1 slots, no errors and the options info text |
| Webhook.InitFailureRendersByRawIndex | trmnl-plugin-hacs-webhook/trmnl_webhook/config_flow.py:199-205 | after a failed send, slot j of the options form shows the draft's raw group j, although the form is sized by survivors |
| Webhook.UrlPrecedence | trmnl-plugin-hacs-webhook/trmnl_webhook/config_flow.py:49 | an empty submitted URL falls back to the stored one in setup; the options step sends to the empty URL (line 183) |
| Webhook.ResubmittedGrowth | trmnl-plugin-hacs-webhook/trmnl_webhook/config_flow.py:38-48 | the add-a-group form submitted unchanged counts one group more, asks for no further group, and keeps the draft's group fields |
| Webhook.SetupAddGrowsByOne | trmnl-plugin-hacs-webhook/trmnl_webhook/config_flow.py:38-64 | submitting that form with a working transport creates an entry with one group more, filled groups rebuilt as they were |
| Webhook.UnknownIdsDiverge | trmnl-plugin-hacs-webhook/trmnl_webhook/config_flow.py:28-33 | an unknown non-empty id is kept as a reference by the dashboard variant but dropped by the webhook variant |

## Left out

- `webhook.py`, `__init__.py` and `panel_custom.py` are not part of this model. The send `send_to_trmnl_webhook` is seen only through its effect: in the webhook variant, whether it raised (`transportOk`).
- Voluptuous validation, the selector widgets and translation keys are not modelled. A field is its key, whether it is required, a kind and a default.
- Logging, `async`/`await`, the HTTP client session and the `hass` object are not modelled. Registry lookups and the forecast service are pure function parameters.
- The setup flow reads `self.config_entry` to find a stored record. The model takes that record (`prev`) as a parameter, with no record as `NoRecord`.
- Snapshots keep the entity id, state, attributes and the two timestamps as values. The dashboard's `str(...)` of the timestamps and `as_dict`'s extra keys (for example `context`) are not distinguished.
- Dashboard.InitStep: the unreachable second `async_create_entry` in the options step (line 410) is not modelled.
- Dashboard.Finish: a failed dashboard send is only logged in the source. The model records the attempted delivery and still creates the entry.
- Dashboard.UserStepOutcomes: the description placeholders are modelled by their count and whether they include removal labels, not as the dictionary of numbers.
- Values.Items: a list field holding a boolean would raise in Python; the model reads it as an empty list. The forms never submit one.
- Values.Get: `dict.get` returns a stored value of any type; values are limited to strings, booleans and string lists, which is all these forms produce.
- Schema.SubmitDefaults models the frontend submitting an unedited form with every default filled in. It is an assumption about Home Assistant, not code of these integrations.
- Dashboard.OptionsRoundTrip and Dashboard.SetupRoundTrip cover only `Persistable` records, because the source does not round-trip the others. A nameless group comes back named `Group {k+1}` (`NamelessGroupRenamed`), and a record with no groups gains `Group 1` (`EmptyGroupsGainOne`). Records holding expanded entities or toggles not stored as strings are not covered.
- The webhook variant has no round-trip lemma. Its stored entities are state dictionaries, and the registry can change between two submissions.
