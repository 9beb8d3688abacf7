# Publisher controller model

A Dafny model of the publish engine behind the AYON publisher tool
(`client/ayon_core/tools/publisher/control.py`). The engine takes the pyblish
plugins discovered for a scene. It walks them in order as a generator that
hands out one unit of work at a time: a plugin against one instance, or a
plugin against the whole context. After each unit it files the plugin's
result. A `PublishValidationError` raised before the validation order has
passed is stored as a validation error item. Any other exception is treated
as a crash. The run pauses at the validation boundary when errors forbid
going on, when only validation was asked for, after a crash, and at the
end. The engine also keeps the run report, the plugin/action proxy that
decides which actions a failure offers, and the change-notified state flags
the UI listens to.

The model is a set of pure functions over immutable records:

- `Base`: `Option`, the `Outcome` of an operation, and the `Fault`s that
  escape the controller (`ValueError`, `KeyError`, `StopIteration`, use
  of a context or proxy that is still `None`).
- `Seqs`: order-preserving filters and first-seen de-duplication.
- `Data`: the JSON-like values of `to_data`/`from_data`.
- `Plugins`: the pyblish plugin, action, instance and exception records,
  `_is_publish_plugin_active` and `collect_families_from_instances`.
- `PluginsProxy`: `PublishPluginsProxy`, its action filter, and
  `PublishPluginActionItem`.
- `ValidationErrors`: `ValidationErrorItem`, `PublishValidationErrors` and
  `PublishValidationErrorsReport`, including `group_items_by_title`.
- `ReportMaker`: `PublishReportMaker`.
- `Creators`: `CreatorTypes.from_str` and the merged view of
  `get_creator_attribute_definitions`.
- `Publisher`: the controller's publish state and operations. This covers
  the state setters, `_reset_publish`, `publish`, `validate`,
  `ignore_non_blocking_errors`, `stop_publish`, `run_action`,
  `set_comment`, `_publish_next_process`, `_process_and_continue` and the
  `_publish_iterator` generator.
- `PublisherTheorems`: properties of whole runs, stated against independent
  definitions.

The generator is a cursor (`At(plugin index, phase)`, `Done`, `Broken`).
`Advance` is one step of the generator's body. `Next` runs it to the next
`yield`. The main-thread loop of `_publish_next_process` and
`_process_and_continue` is a pair of mutually recursive functions that end
on a lexicographic rank of the cursor. Everything the controller asks
pyblish or the host lives in an `Env` record of data and total functions:

- the discovered and mismatched plugins;
- the context;
- `instances_by_plugin` and `plugins_by_families`;
- what `pyblish.plugin.process` raises for a plugin and instance;
- whether an action's `process` succeeds;
- `_is_interactive`.

Emitted events are appended to a log in the state.

Behaviour of the code worth noting, which the model keeps:

- `group_items_by_title` (control.py:683-723) groups by plugin first, in
  the order of each plugin's first error, and then by title within the
  plugin. Its docstring says "ordered by plugin order"; the order is that
  of first appearance in the error list.
- `add_plugin_iter` marks the previous plugin's record as passed
  unconditionally, even when that plugin was skipped or crashed.
- The plugin whose order first reaches the validation order sets
  `publish_has_validated` before it runs. A `PublishValidationError` it
  raises is therefore handled as a crash, and `validate()` pauses before
  running it.
- `ignore_non_blocking_errors` resets the publish first, and the reset
  clears `publish_is_running`, so its "still running" branch is never
  taken.
- `_reset_publish` (control.py:2432-2437) replaces the plugin proxy before
  it resets the run report, and resets the error list only after that. When
  the report's reset raises on a duplicate plugin, the error list keeps the
  proxy it had: none after a failed first reset, so the next validation
  error raises on the list's plugin-id lookup (control.py:825), and
  otherwise the replaced proxy, whose action items it then reads
  (control.py:839).
- Calling `publish()` again after a run has finished pulls from an
  exhausted generator. This raises `StopIteration` and leaves
  `publish_is_running` set.

## Model

| member | source | states |
|---|---|---|
| Plugins.CollectFamilies | client/ayon_core/tools/publisher/control.py:2827-2852 | a family is collected exactly when some instance contributes it, through a non-empty "family" or an entry of "families"; with `only_active`, instances whose "publish" is `False` contribute nothing |
| PluginsProxy.ActiveActions | client/ayon_core/tools/publisher/control.py:468-511 | an action is kept exactly when it is in the plugin's list, is active, and its `on` is "all", or "failedOrWarning" after a validation error, or "failed" after a blocking validation error |
| PluginsProxy.ActiveActionsOrdered | client/ayon_core/tools/publisher/control.py:468-511 | the kept actions appear in the plugin's own order |
| PluginsProxy.ActiveActionsCount | client/ayon_core/tools/publisher/control.py:468-511 | every copy of an active action is kept and no copy of an inactive one |
| PluginsProxy.NonValidationFiltersAlike | client/ayon_core/tools/publisher/control.py:487-511 | any exception other than a validation error selects the same actions as no exception, and only "all" actions |
| PluginsProxy.ActionsGrowWithSeverity | client/ayon_core/tools/publisher/control.py:487-511 | the actions offered grow from no error, to a non-blocking validation error, to a blocking one; the extra ones are "failed"/"failedOrWarning" actions |
| PluginsProxy.CreateActionItem | client/ayon_core/tools/publisher/control.py:455-465 | the item carries the action's id, the plugin id, `active`, `on` and icon, and the action's label or else its name |
| PluginsProxy.ActionItemToData | client/ayon_core/tools/publisher/control.py:537-565 | `to_data` writes exactly the six documented keys, and `from_data` reads the same item back |
| PluginsProxy.ActionItemDataExact | client/ayon_core/tools/publisher/control.py:537-565 | any dictionary that `from_data` accepts is reproduced exactly by `to_data` |
| Seqs.IndexBy | client/ayon_core/tools/publisher/control.py:386-388 | the index holds exactly the elements' keys, each mapped to an element with that key |
| Seqs.IndexByLast | client/ayon_core/tools/publisher/control.py:386-388 | of several elements with one key, the index keeps the last |
| Seqs.IndexByLastAt | client/ayon_core/tools/publisher/control.py:386-388 | the element kept under a key sits at a position after which no element has that key |
| PluginsProxy.NewProxy | client/ayon_core/tools/publisher/control.py:381-388 | the proxy indexes exactly the given plugins' ids, each to the last plugin in the list with that id, and starts with no actions |
| PluginsProxy.NewProxyFindsPlugins | client/ayon_core/tools/publisher/control.py:381-420 | with distinct ids, `get_plugin` finds every discovered plugin |
| PluginsProxy.GetPlugin | client/ayon_core/tools/publisher/control.py:419-420 | the lookup succeeds exactly for an indexed id and returns that plugin; otherwise it is the `KeyError` |
| PluginsProxy.GetAction | client/ayon_core/tools/publisher/control.py:416-417 | the lookup succeeds exactly when the plugin's actions were set and include the id |
| PluginsProxy.SetPluginActions | client/ayon_core/tools/publisher/control.py:390-414 | it fails only for an unknown plugin; it files the plugin's actions and leaves every other plugin's actions unchanged |
| PluginsProxy.GetPluginActionItems | client/ayon_core/tools/publisher/control.py:437-453 | it succeeds exactly after the plugin's actions were set, and lists one item per filed action id, in order |
| PluginsProxy.ItemsAfterSetPluginActions | client/ayon_core/tools/publisher/control.py:390-453 | for a plugin whose actions have distinct ids: after setting its actions for an exception, its action items are those of the actions active for that exception, in order |
| PluginsProxy.GetActionAfterSetPluginActions | client/ayon_core/tools/publisher/control.py:390-417 | for a plugin whose actions have distinct ids, every action active for the exception can afterwards be looked up by id |
| PluginsProxy.FiledActions | client/ayon_core/tools/publisher/control.py:390-414 | for a plugin whose actions have distinct ids, the filed ids are the active actions' ids in order, and each id maps to its action |
| ValidationErrors.ItemFromResult | client/ayon_core/tools/publisher/control.py:624-649 | a context error has no instance id or label; an instance error carries the instance's id and label; title, description, detail and blocking come from the error |
| ValidationErrors.ErrorItemToData | client/ayon_core/tools/publisher/control.py:605-652 | `to_data` writes exactly the eight documented keys, and `from_data` reads the same item back |
| ValidationErrors.ErrorItemDataExact | client/ayon_core/tools/publisher/control.py:605-652 | any dictionary that `from_data` accepts is reproduced exactly by `to_data` |
| ValidationErrors.TitledFor | client/ayon_core/tools/publisher/control.py:826-831 | an error keeps its own title when set, and otherwise takes the plugin's label, or else the class name |
| ValidationErrors.TitleFallbacksAgree | client/ayon_core/tools/publisher/control.py:2763-2768 | the controller's title fallback followed by `add_error`'s stores the same title as `add_error`'s alone |
| ValidationErrors.AddError | client/ayon_core/tools/publisher/control.py:814-842 | a list that holds no proxy faults on the plugin-id lookup and stores nothing; otherwise the item is appended even when the action lookup then fails; action items are fetched, from the proxy the list holds, only for a plugin not yet cached, and the lookup fails exactly when that proxy never had the plugin's actions set |
| ValidationErrors.Orphaned | client/ayon_core/tools/publisher/control.py:2432-2437 | when the controller replaces its proxy without resetting the list, items and cached action items are kept, and a list that held the controller's proxy holds the replaced one, none if there was none |
| ValidationErrors.AddErrorKeepsCache | client/ayon_core/tools/publisher/control.py:814-842 | items and cached action items stay in step, and a plugin's cached action items are never replaced |
| ValidationErrors.NewReport | client/ayon_core/tools/publisher/control.py:664-677 | the report has blocking errors exactly when some item blocks, and non-blocking errors exactly when some item does not |
| ValidationErrors.CreateReport | client/ayon_core/tools/publisher/control.py:802-812 | the report holds the stored items and action items, with both flags computed from the items |
| ValidationErrors.GroupingDefined | client/ayon_core/tools/publisher/control.py:683-723 | grouping succeeds exactly when every item's plugin has cached action items |
| ValidationErrors.GroupingPermutes | client/ayon_core/tools/publisher/control.py:683-723 | the groups together hold exactly the report's items, each as often as it occurs |
| ValidationErrors.GroupingShape | client/ayon_core/tools/publisher/control.py:683-723 | each group holds one plugin's errors with one title, in input order, with that plugin's action items; groups are ordered by the plugin's first error, then by the title's first error within the plugin |
| ValidationErrors.GroupingCovers | client/ayon_core/tools/publisher/control.py:683-723 | every item lands in some group |
| ReportMaker.Reset | client/ayon_core/tools/publisher/control.py:85-102 | the report forgets the current plugin and the remembered instances, takes the new context, and, unless a mismatched plugin id repeats, holds one skipped record per mismatched plugin |
| ReportMaker.SkippedRecordsOk | client/ayon_core/tools/publisher/control.py:85-127 | filing the mismatched plugins succeeds exactly when their ids are distinct and new; otherwise it is the duplicate `ValueError` |
| ReportMaker.AddRecord | client/ayon_core/tools/publisher/control.py:115-147 | a fresh record is appended exactly when no record has the plugin's id; otherwise nothing changes and the fault is the duplicate `ValueError` |
| ReportMaker.AddPluginIter | client/ayon_core/tools/publisher/control.py:104-113 | the previous current record is marked passed, the plugin becomes current, the context's instances are remembered, and a fresh record is added unless the id is already filed |
| ReportMaker.AddPluginIterRemembers | client/ayon_core/tools/publisher/control.py:104-107 | after `add_plugin_iter` the remembered ids are the earlier ones and the context's; each id holds the last context instance with that id, and an id the context lacks keeps its earlier instance |
| ReportMaker.Remember | client/ayon_core/tools/publisher/control.py:106-107 | storing instances one by one under their ids keeps every earlier id and adds every instance's id, no other; the last instance with an id is the one stored, and ids no instance has keep their entries |
| ReportMaker.RememberStep | client/ayon_core/tools/publisher/control.py:106-107 | storing the first instance and then the rest remembers the whole list |
| ReportMaker.RememberStepLast | client/ayon_core/tools/publisher/control.py:106-107 | the last instance with each id survives the rest of the loop |
| ReportMaker.AddPluginIterValid | client/ayon_core/tools/publisher/control.py:104-127 | record ids stay distinct, and after success the current id names a record |
| ReportMaker.SetPluginSkipped | client/ayon_core/tools/publisher/control.py:149-151 | the record the reference points at is marked skipped and every other record, the current plugin and the reference are kept; with the placeholder nothing changes |
| ReportMaker.SkipRegistered | client/ayon_core/tools/publisher/control.py:104-151 | skipping right after a registration marks exactly the newly added record |
| ReportMaker.RegisteredLast | client/ayon_core/tools/publisher/control.py:104-127 | a newly registered plugin's record is the one found for its id, at the end of the records |
| ReportMaker.SetPluginActionItems | client/ayon_core/tools/publisher/control.py:153-163 | only the current plugin's record takes the action items |
| ReportMaker.AddResult | client/ayon_core/tools/publisher/control.py:165-184 | with a current plugin, its record gains one instance run and takes the result's error and blocking flags, and no other record changes; without one it is the `KeyError` |
| ReportMaker.AddResultOverwrites | client/ayon_core/tools/publisher/control.py:165-184 | two results in a row leave both instance runs and the second result's flags |
| ReportMaker.AddActionResult | client/ayon_core/tools/publisher/control.py:186-202 | the action run is appended to the plugin's record, or to a new record when the plugin has none |
| ReportMaker.AddActionResultValid | client/ayon_core/tools/publisher/control.py:186-202 | record ids stay distinct, and the current id still names a record |
| ReportMaker.GetReport | client/ayon_core/tools/publisher/control.py:204-259 | the snapshot copies every record, marking the current one passed; it lists one instance entry per remembered instance, telling whether the instance is still in the context; it uses the context label, or "Context" without a context, and the report version |
| ReportMaker.SnapshotCoversListed | client/ayon_core/tools/publisher/control.py:204-259 | every listed publish plugin has a record in the snapshot, and records beyond the filed ones are fresh records of listed plugins |
| ReportMaker.SnapshotDistinct | client/ayon_core/tools/publisher/control.py:204-259 | the snapshot has no two records for one plugin |
| ReportMaker.InstancesDetails | client/ayon_core/tools/publisher/control.py:269-279 | one entry per remembered instance, with its label and whether it is still in the context |
| ReportMaker.SnapshotAnticipatesNextPlugin | client/ayon_core/tools/publisher/control.py:104-259 | while the current plugin is the one whose record is referenced (every state except right after a duplicate registration), the snapshot's copies of the filed records equal what the next `add_plugin_iter` will leave |
| ReportMaker.DuplicateSnapshotExample | client/ayon_core/tools/publisher/control.py:104-259 | after a duplicate plugin, the snapshot still shows the earlier current plugin as passed, but the next `add_plugin_iter` does not mark it |
| ReportMaker.IncoherentSnapshotDiffers | client/ayon_core/tools/publisher/control.py:104-259 | whenever the current plugin has an unpassed record that the reference does not point at, the snapshot shows that record passed while the next `add_plugin_iter` leaves it unpassed |
| Creators.FromStr | client/ayon_core/tools/publisher/control.py:845-876 | a found type has the given name, and the `ValueError` is raised only when no type has that name |
| Creators.FromStrName | client/ayon_core/tools/publisher/control.py:845-876 | every creator type is found from its own name |
| Creators.CollectDefined | client/ayon_core/tools/publisher/control.py:2150-2172 | the merge loop succeeds exactly when every value definition finds its key in the instance's creator attributes |
| Creators.CollectGroups | client/ayon_core/tools/publisher/control.py:2150-2172 | the merge loop yields one group per distinct definition, in order of first appearance, each listing the offering instances and their values in input order |
| Creators.AttributeDefinitionsMeaning | client/ayon_core/tools/publisher/control.py:2141-2172 | the merged view exists exactly when no value is missing, and then it is the first-seen grouping of all instances' definitions |
| Publisher.SetFlag | client/ayon_core/tools/publisher/control.py:1536-1597 | one flag takes the value and nothing else changes; a changed flag emits its topic with the value, except `publish_has_started`, which emits nothing |
| Publisher.SetFlagIdempotent | client/ayon_core/tools/publisher/control.py:1536-1597 | setting a flag twice is setting it once, and setting it to its value is a no-op |
| Publisher.SetProgress | client/ayon_core/tools/publisher/control.py:1607-1613 | progress takes the value; a change emits "publish.progress.changed" |
| Publisher.SetMaxProgress | client/ayon_core/tools/publisher/control.py:1599-1605 | max progress takes the value; a change emits "publish.max_progress.changed" |
| Publisher.SetErrorMsg | client/ayon_core/tools/publisher/control.py:1615-1620 | the error message takes the value; a change emits "publish.publish_error.changed" |
| Publisher.ResetAttributes | client/ayon_core/tools/publisher/control.py:1657-1669 | all flags are cleared, progress is 0, the error message is cleared, and max progress is kept |
| Publisher.Advance | client/ayon_core/tools/publisher/control.py:2652-2761 | one step moves the cursor strictly down; a duplicate plugin breaks the generator; a finished generator raises `StopIteration`; only flags, progress, events and the report change; error flags are never touched; reaching the end sets finished with progress at max |
| Publisher.StartPlugin | client/ayon_core/tools/publisher/control.py:2663-2670 | progress is the plugin's index, and validated becomes set once a plugin reaches the validation order |
| Publisher.EnterPlugin | client/ayon_core/tools/publisher/control.py:2692-2756 | a duplicate plugin breaks the generator; otherwise it moves on to the next plugin, or to the instance list of an instance plugin; a context plugin's only unit is the context |
| Publisher.EnterPluginReport | client/ayon_core/tools/publisher/control.py:2692-2756 | entering a plugin fails exactly when its id already has a record, and then leaves the report as `add_plugin_iter` did |
| Publisher.EnterPluginRecord | client/ayon_core/tools/publisher/control.py:2692-2756 | when entering succeeds, the plugin gets a fresh current record, marked skipped exactly when it is inactive, an instance plugin without instances, or a context plugin the active families do not match; the earlier records and the other report fields are as `add_plugin_iter` leaves them, and a skipped plugin hands out no unit and moves on to the next plugin |
| Publisher.Finish | client/ayon_core/tools/publisher/control.py:2758-2761 | finished is set and progress reaches max progress |
| Publisher.Next | client/ayon_core/tools/publisher/control.py:2652-2761 | running the generator to its next `yield` gives exactly one of an item or a fault, moves the cursor down, and never touches error flags |
| Publisher.StopPublishNow | client/ayon_core/tools/publisher/control.py:2509-2513 | running is cleared, the ignore override is dropped, and nothing else changes beyond the event |
| Publisher.StopPublish | client/ayon_core/tools/publisher/control.py:2515-2519 | stopping acts only on a running publish |
| Publisher.AddValidationError | client/ayon_core/tools/publisher/control.py:2770-2786 | a non-blocking error under the override is dropped; otherwise validation errors are flagged, blocking is flagged for a blocking error, and one titled item is appended, unless the error list holds no proxy, when the add faults after the flags are set and the list is unchanged |
| Publisher.HandleException | client/ayon_core/tools/publisher/control.py:2788-2812 | no exception changes nothing; a validation error before the validation order is filed as one; anything else is a crash with the known message or the generic one |
| Publisher.RunUnit | client/ayon_core/tools/publisher/control.py:2788-2822 | running a unit leaves the cursor, run flags and buttons alone; before any reset it is the missing-context fault |
| Publisher.RecordResult | client/ayon_core/tools/publisher/control.py:2821-2823 | only the report changes, and it succeeds exactly when a plugin is current and its actions were set |
| Publisher.PublishNextProcess | client/ayon_core/tools/publisher/control.py:2578-2616 | when errors forbid going on or the run crashed, the publish stops without pulling from the generator |
| Publisher.StartPublish | client/ayon_core/tools/publisher/control.py:2497-2507 | starting a running publish does nothing |
| Publisher.Validate | client/ayon_core/tools/publisher/control.py:2466-2477 | once validated, `validate()` only remembers the button |
| Publisher.ResetPublish | client/ayon_core/tools/publisher/control.py:2416-2441 | flags, progress and the error message are cleared; the generator restarts at the first plugin; comment and validation-only mode are reset; the proxy is rebuilt before the report is reset; after success the errors are empty, the list holds the new proxy and max progress is the plugin count; after a failure the list keeps its items, its cached action items and the proxy it held, which the controller no longer holds |
| Publisher.SetComment | client/ayon_core/tools/publisher/control.py:2443-2453 | the comment is stored only once per reset; before any reset it is the missing-context fault |
| Publisher.RunAction | client/ayon_core/tools/publisher/control.py:2521-2551 | it succeeds exactly when the plugin and action are found, and then files the action's result in the report; flags, cursor and errors are untouched |
| PublisherTheorems.AdvanceUnits | client/ayon_core/tools/publisher/control.py:2652-2761 | each generator step hands out the next owed unit or none, and owes the rest |
| PublisherTheorems.EnterPluginUnits | client/ayon_core/tools/publisher/control.py:2692-2756 | entering a plugin hands out its first unit or none, and owes the rest |
| PublisherTheorems.InstanceUnits | client/ayon_core/tools/publisher/control.py:2719-2734 | the instance loop hands out the published instances one by one, in order |
| PublisherTheorems.NextUnits | client/ayon_core/tools/publisher/control.py:2652-2761 | each `yield` hands out exactly the next owed unit: active plugins in order, their published instances in order, a context plugin once when its families match |
| PublisherTheorems.StopKeepsUnits | client/ayon_core/tools/publisher/control.py:2672-2690 | a stop item skips no unit; resuming continues where it stopped |
| PublisherTheorems.AdvanceLatch | client/ayon_core/tools/publisher/control.py:2663-2670 | after each step, validated says whether some started plugin reached the validation order |
| PublisherTheorems.NextLatch | client/ayon_core/tools/publisher/control.py:2652-2761 | the validated flag keeps that meaning from `yield` to `yield` |
| PublisherTheorems.PublishNextProcessLatch | client/ayon_core/tools/publisher/control.py:2578-2616 | the validated flag keeps that meaning through the main-thread loop |
| PublisherTheorems.ProcessAndContinueLatch | client/ayon_core/tools/publisher/control.py:2788-2824 | running a unit and continuing keeps that meaning |
| PublisherTheorems.ResetLatch | client/ayon_core/tools/publisher/control.py:2416-2441 | a reset establishes it |
| PublisherTheorems.StartPublishLatch | client/ayon_core/tools/publisher/control.py:2497-2507 | starting keeps it |
| PublisherTheorems.ButtonsLatch | client/ayon_core/tools/publisher/control.py:2455-2477 | `publish()` and `validate()` keep it |
| PublisherTheorems.AdvanceStopReason | client/ayon_core/tools/publisher/control.py:2672-2690 | a stop item is yielded only when errors forbid going on, validation-only mode has reached validation, or the run finished |
| PublisherTheorems.NextStopReason | client/ayon_core/tools/publisher/control.py:2652-2761 | the same holds for every stop item `next` returns |
| PublisherTheorems.StopKeepsReasons | client/ayon_core/tools/publisher/control.py:2509-2519 | stopping clears running and keeps every reason to stop |
| PublisherTheorems.PublishNextProcessPauses | client/ayon_core/tools/publisher/control.py:2578-2616 | the main-thread loop returns only paused, not running, for one of those reasons or a crash, and keeps validation-only mode |
| PublisherTheorems.ProcessAndContinuePauses | client/ayon_core/tools/publisher/control.py:2788-2824 | the same holds after running a unit |
| PublisherTheorems.PublishPauses | client/ayon_core/tools/publisher/control.py:2455-2464 | a `publish()` that does not fault returns paused |
| PublisherTheorems.ValidateStopsAtValidation | client/ayon_core/tools/publisher/control.py:2466-2477 | a `validate()` that ends without errors, crash or finish has reached the validation order |
| PublisherTheorems.HandleOnlyBlocking | client/ayon_core/tools/publisher/control.py:2770-2786 | under the override, handling an exception never records a non-blocking error on its own |
| PublisherTheorems.RunUnitOnlyBlocking | client/ayon_core/tools/publisher/control.py:2788-2824 | under the override, running a unit records validation errors only when blocking ones are recorded |
| PublisherTheorems.PublishNextProcessOnlyBlocking | client/ayon_core/tools/publisher/control.py:2578-2616 | the main-thread loop keeps that |
| PublisherTheorems.ProcessAndContinueOnlyBlocking | client/ayon_core/tools/publisher/control.py:2788-2824 | running and continuing keeps that |
| PublisherTheorems.StartPublishOnlyBlocking | client/ayon_core/tools/publisher/control.py:2497-2507 | starting keeps that |
| PublisherTheorems.FirstResetFailureLeavesNoProxy | client/ayon_core/tools/publisher/control.py:776-779 | when the first reset raises, the error list holds no proxy, and the next validation error that is not dropped faults and stores nothing |
| PublisherTheorems.FailedResetKeepsFormerProxy | client/ayon_core/tools/publisher/control.py:2416-2437 | after a successful reset and then a failing one, the controller holds the second reset's proxy and the error list the first's |
| PublisherTheorems.IgnoreRecordsOnlyBlocking | client/ayon_core/tools/publisher/control.py:2479-2495 | after `ignore_non_blocking_errors`, any validation errors recorded include a blocking one; the publish was reset to not running first |

## Left out

- `_is_interactive` is an input of the environment, because it reads the host application.
- `pyblish.plugin.process`, `instances_by_plugin`, `plugins_by_families`, `pyblish.api.discover` and an action's `process` are oracles of the environment; the validation order is pyblish's `ValidatorOrder` (1) plus the controller's 0.5 offset.
- The event system is reduced to an appended log of topics and payloads; callbacks and the Qt bridge are not modelled.
- Timestamps, uuids, tracebacks and log records in the report are not modelled, because they come from the clock, the random source and the logging system.
- The report's per-instance log extraction is not modelled, because it reads pyblish's log records.
- `PublishValidationErrorsReport.to_data`/`from_data` are not modelled; only the item-level round trips are. The report-level `from_data` iterates the keys of `plugin_action_items` rather than its items, so it does not read back what `to_data` writes.
- Plugin side effects on the pyblish context are not modelled; the context and its instances are fixed for a run.
- The report's instance details keep the label and whether the instance is still in the context; the product type, creator identifier and instance id are not kept.
- Plugin discovery crashes and the file paths of crashed plugins are not modelled, because they come from the filesystem.
- ReportMaker.GetReport: requires that nothing was remembered before the first reset (no context means no instances), a state every caller of the report maker reaches.
- Publisher.ResetAttributes: does not state the order of the change events it emits.
- Publisher.PublishNextProcess: states only the stop-before-pulling case; the other paths are stated by the `PublisherTheorems` lemmas about it.
- `_process_main_thread_item` as written calls the item itself, `item()`, but `MainThreadItem` (control.py:55-64) defines only `process()`, so on this class the call would raise `TypeError`; the model runs each unit at once through its callback, as `process()` does, and the Qt subclass that queues items is not part of this model.
- Work the UI thread does between two units (repaints, a `stop_publish` clicked while a run is going) is not modelled, because the main-thread loop runs in one call up to its next pause; `stop_publish` is modelled only as a call between runs.
- Publisher.StartPublish: states only the already-running case; the rest is covered by `StartPublishLatch` and `StartPublishOnlyBlocking`.
- Publisher.Validate: states only the already-validated case; the rest is covered by `ValidateStopsAtValidation` and `ButtonsLatch`.
- `publish()` and `ignore_non_blocking_errors()` have no contracts of their own; `PublishPauses`, `ButtonsLatch` and `IgnoreRecordsOnlyBlocking` state them.
- The `CreateContext` bridge, creator items, host and server calls, profile filters and every widget are not modelled, because they are not part of the publish engine.
- PluginsProxy.ActionItemFromData: rejects values of types other than the documented ones (control.py:558-559), which `cls(**data)` would accept, because the action item's fields are typed.
- Creator attribute values (`instance.creator_attributes`, control.py:2163) are modelled as a plain mapping from key to value; the attribute-values class they come from is not part of this model, and the `KeyError` that `Creators.CollectDefined` states for a missing key rests on that reading.
- Attribute-definition equality is structural equality of key, value kind and label; the attribute-definition classes are not part of this model.
