# Diff module: revision overview, layout plugins and field diff builder settings

A Dafny model of three pieces of logic in the Drupal `diff` module:

- **The revision overview form** (`EntityRevisionOverviewForm`). `buildForm` walks a page of revision ids, newest first. It leaves out every revision that no longer loads, and every revision that is not a real edit of the viewed translation. For each remaining id it builds a table row with:
  - the previous revision, taken by position in the unfiltered page;
  - whether the row is the current revision;
  - the defaults of the left and right radios;
  - the revert and delete operations.

  `validateForm` runs three checks in a fixed order; the first to fail is recorded. `submitForm` puts the older revision on the left and redirects to the comparison in the default layout.
- **The layout plugin manager** (`DiffLayoutManager`). `getPluginOptions` sorts the configured layout plugins by weight and keeps the enabled ones, each id mapped to its label. `getDefaultLayout` returns the first of those ids, or FALSE.
- **The field diff builder base** (`FieldDiffBuilderBase`). The configuration is completed with defaults, updated from the settings form, and written to the `diff.plugins` configuration. It is stored under the field type, with the internal `#field_type` marker removed.

Files:
- `wrappers.dfy`: `Option`, which stands for PHP's NULL or FALSE results.
- `diff_layout_manager.dfy`: the layout manager.
- `entity_revision_overview_form.dfy`: the overview form, plus a client module `OverviewScenario`. The client checks the contract of `BuildForm` on a page where one revision no longer loads.
- `field_diff_builder_base.dfy`: the field diff builder base, as a class whose `configuration` map is updated in place. The `diff.plugins` store is a `PluginsConfig` object.

The framework services become inputs:
- The entity query result is the sequence `ids`.
- `loadRevision`, `hasTranslation` and `isRevisionTranslationAffected` become the oracle `loadRevision`. It returns an `Option<Revision>`, and a `Revision` is its map from language code to translation.
- The URL access checks become the oracles `revertAccess` and `deleteAccess`.
- Plugin definition labels come from the function `labelOf`.
- The `layout_plugins` configuration is an `Option` of an ordered array with unique keys.

Revision ids are natural numbers. Messages are enum constants.

Points of the code that the model keeps as written:
- The current row's left radio defaults to FALSE (src/Form/EntityRevisionOverviewForm.php:201).
- `validateForm` checks the table-value count before the radios (src/Form/EntityRevisionOverviewForm.php:288).
- A non-current row always gets both radio columns, even on a page with a single id. The header then has no radio columns. This happens on a paged last page, contrary to the comment at src/Form/EntityRevisionOverviewForm.php:242-244.
- `getConfiguration` reads the entry keyed by the plugin id, but `setConfiguration` writes under the field type. The model states exactly when a write is visible to a later read, and claims no general round trip.

## Model

| member | source | states |
|---|---|---|
| `DiffLayoutManager.InsertByWeight` | src/DiffLayoutManager.php:75 | inserting into a weight-sorted array keeps it sorted and grows it by one; the first entry is either the new one or the old first one |
| `DiffLayoutManager.InsertIsPermutation` | src/DiffLayoutManager.php:75 | inserting adds exactly the one new entry and loses none (multiset equality) |
| `DiffLayoutManager.InsertKeepsUniqueKeys` | src/DiffLayoutManager.php:75 | inserting a new key into an array with unique keys keeps the keys unique |
| `DiffLayoutManager.SortByWeight` | src/DiffLayoutManager.php:75 | the `uasort` by weight yields a permutation of the configured plugins, ordered by non-decreasing weight |
| `DiffLayoutManager.SortKeepsUniqueKeys` | src/DiffLayoutManager.php:75 | sorting an array whose keys are unique keeps them unique, so the sorted array is still a PHP array |
| `DiffLayoutManager.FirstKey` | src/DiffLayoutManager.php:95-96 | `reset(array_keys(...))` is FALSE exactly for an empty array, and is otherwise the first key, which is a key of the array |
| `DiffLayoutManager.GetPluginOptions` | src/DiffLayoutManager.php:69-84 | a missing or empty configuration gives no options. An id is an option exactly when it is configured with `enabled` true. Each option maps to its label, ids are unique, and options follow non-decreasing configured weight |
| `DiffLayoutManager.KeepEnabled` | src/DiffLayoutManager.php:76-81 | the `foreach` appends `id => label` for exactly the enabled entries, visiting them in array order: each option comes from an enabled entry at an increasing position, and every enabled entry yields one |
| `DiffLayoutManager.SelectedOptions` | src/DiffLayoutManager.php:73-83 | what the loop picks from the sorted permutation is, as a set of ids, exactly the enabled configured plugins, with unique ids, in non-decreasing configured weight |
| `DiffLayoutManager.PickedInWeightOrder` | src/DiffLayoutManager.php:75-81 | entries picked at increasing positions of the sorted permutation follow the weights they have in the configuration |
| `DiffLayoutManager.GetDefaultLayout` | src/DiffLayoutManager.php:94-97 | FALSE exactly when no plugin is enabled. Otherwise it is an enabled plugin that no enabled plugin outweighs |
| `DiffLayoutManager.FirstOptionIsLightest` | src/DiffLayoutManager.php:94-96 | the first of the weight-ordered options, which are exactly the enabled plugins, weighs no more than any enabled plugin |
| `EntityRevisionOverviewForm.BuildSelectColumn` | src/Form/EntityRevisionOverviewForm.php:385-393 | the radio carries the given group name, submits the given revision id and has the given default (FALSE as None); every radio in `BuildForm` is built by it |
| `EntityRevisionOverviewForm.TableHeader` | src/Form/EntityRevisionOverviewForm.php:140-150 | the header starts with the revision column and ends with operations. It has the two radio columns exactly when the page holds more than one id |
| `EntityRevisionOverviewForm.BuildForm` | src/Form/EntityRevisionOverviewForm.php:103-279 | (1) a row is emitted for position p exactly when the revision at p loads, has the entity's langcode and is revision-affected there; (2) rows keep the order of the page, so row ids strictly decrease when the page's ids do; (3) a row's previous revision is the load of position p+1 of the unfiltered page, or none at the last position; (4) the current row has radios only when more than one id is on the page, left default FALSE, right default its own id, the "Current revision" marker and no links; (5) any other row has left default the page's second id (else FALSE), right default FALSE, a revert link titled "Revert" below the current revision id and "Set as current revision" otherwise when access allows, and a delete link when access allows; (6) with distinct ids at most one row is current; (7) the compare button and the hidden entity fields |
| `EntityRevisionOverviewForm.SelectionError` | src/Form/EntityRevisionOverviewForm.php:288-297 | for each error, an iff with its guard, checked in fixed order with the first failure winning: at most one table value gives "multiple revisions needed"; else a missing left or right gives "select two"; else left == right gives "select different"; no error exactly when there are more than one table value and two different picks |
| `EntityRevisionOverviewForm.ValidateForm` | src/Form/EntityRevisionOverviewForm.php:285-298 | appends exactly the first failing check's error (or nothing) to the form state and touches nothing else |
| `EntityRevisionOverviewForm.OrderRevisions` | src/Form/EntityRevisionOverviewForm.php:310-317 | after the swap, left is at most right and the pair is the submitted pair. A pair already in order is left as it is |
| `EntityRevisionOverviewForm.OlderFirstIsOrderIndependent` | src/Form/EntityRevisionOverviewForm.php:313-317 | submitting (a, b) and (b, a) yields the same ordered pair |
| `EntityRevisionOverviewForm.ValidatedPairIsStrict` | src/Form/EntityRevisionOverviewForm.php:294-317 | a pair that passed validation is compared strictly older to newer |
| `EntityRevisionOverviewForm.SubmitForm` | src/Form/EntityRevisionOverviewForm.php:303-329 | the redirect carries the entity type and id, the picked pair older-first, and the default layout as its filter. The filter is FALSE exactly when no layout plugin is enabled, and otherwise a lightest enabled plugin |
| `FieldDiffBuilderBase.MarkdownOptions` | src/FieldDiffBuilderBase.php:73-77 | the markdown callback is chosen among exactly three distinct values: `drupal_html_to_text`, `filter_xss`, `filter_xss_all` |
| `FieldDiffBuilderBase.DefaultConfiguration` | src/FieldDiffBuilderBase.php:104-109 | the defaults are exactly `show_header` = 1 and `markdown` = the first offered callback, `drupal_html_to_text` |
| `FieldDiffBuilderBase.MergeDefaults` | src/FieldDiffBuilderBase.php:44 | PHP's `+=`: afterwards every default key is present, keys supplied by the caller keep their values, and missing keys take the default |
| `FieldDiffBuilderBase.FieldTypeSettings` | src/FieldDiffBuilderBase.php:122-128 | the settings are the configuration with only `#field_type` removed: every other key is kept with its value, and `#field_type` is absent |
| `FieldDiffBuilderBase.FieldDiffBuilder.constructor` | src/FieldDiffBuilderBase.php:40-45 | the plugin's configuration is the caller's merged with the defaults, and the invariant "all default keys present" holds |
| `FieldDiffBuilderBase.FieldDiffBuilder.BuildConfigurationForm` | src/FieldDiffBuilderBase.php:62-82 | the settings form shows the current `show_header` and `markdown` values and offers the three markdown callbacks |
| `FieldDiffBuilderBase.FieldDiffBuilder.GetConfiguration` | src/FieldDiffBuilderBase.php:114-116 | the entry read is the one keyed by the plugin id, or NULL when there is none |
| `FieldDiffBuilderBase.FieldDiffBuilder.SetConfiguration` | src/FieldDiffBuilderBase.php:121-135 | `diff.plugins` changes only at the key `configuration['#field_type']`, which now holds `{type: plugin id, settings: configuration without #field_type}`. getConfiguration returns that entry when the field type is the plugin id, and is unchanged otherwise |
| `FieldDiffBuilderBase.FieldDiffBuilder.SubmitConfigurationForm` | src/FieldDiffBuilderBase.php:94-99 | overwrites exactly `show_header`, `markdown` and `#field_type` from the form, keeps every other key and the default-keys invariant, and persists the result under the submitted field type |

## Left out

- `src/Controller/EntityRevisionController.php`: it only looks up the route and the entity and calls the form builder. There is no logic to model.
- The entity query, pager and storage: inputs (`ids`, `loadRevision`). The page size and the `radio_behavior` setting are passed to the framework untouched.
- The URL access checks: inputs (`revertAccess`, `deleteAccess`). They are indexed by revision id, which is what varies in the route parameters.
- Rendering and formatting are not modelled. This covers `buildRevision`, the inline template, the user name, date formatting, `getRevisionDescription`, translated strings, the form title and the attached libraries. A row keeps the previous revision that `buildRevision` receives, and a link kind in place of the rendered link.
- `getFormId`, the `create` factories and the constructors' service wiring: no logic.
- The `DiffLayoutManager` constructor: plugin discovery, annotations, cache backend and alter hook. Every configured id is assumed to have a label (`labelOf`); what `getDefinition` does for an unknown id is framework code not shown here.
- `validateConfigurationForm` is empty and `calculateDependencies` returns an empty array: nothing to model.
- Persistence (`$config->save()`, the config factory) is a map update on the `PluginsConfig` object.
- PHP loose comparison of submitted strings (`==`, `>`): revision ids are natural numbers.
- DiffLayoutManager.SortByWeight: states only that the result is a weight-sorted permutation. The tie-breaking and stability of `SortArray::sortByWeightElement` are not modelled.
- DiffLayoutManager.GetPluginOptions: each configured entry always has `weight` and `enabled`. A missing `weight` (weight 0 in `sortByWeightElement`) and a missing `enabled` (a PHP notice, then falsy) are not modelled.
- FieldDiffBuilderBase.FieldDiffBuilder.SetConfiguration: requires `#field_type` to be present and a string. Otherwise PHP would pass NULL as the key to `Config::set`, which is framework behaviour not shown here.
- EntityRevisionOverviewForm.SubmitForm: requires both radios to be set. The form framework runs `submitForm` only after `validateForm` passed.
