/** The pyblish objects the publisher drives, reduced to the fields the
    controller reads. Plugin classes, actions, instances and the exceptions a
    plugin raises are plain records here. */
module Plugins {
  import opened Base

  /** A pyblish action attached to a plugin. `labelText` is the class's
      `label`, "" when it sets none; `on` is the pyblish trigger condition
      ("all", "failed", "failedOrWarning", ...). */
  datatype Action = Action(
    id: string,
    name: string,
    labelText: string,
    icon: Option<string>,
    active: bool,
    on: string)

  /** A discovered publish plugin class. `labelText` is its `label`, "" when
      unset; `hasOptionalMixin` says whether `OptionalPyblishPluginMixin` is among its
      bases; `instanceEnabled` is pyblish's `__instanceEnabled__` (an instance
      plugin rather than a context plugin). */
  datatype Plugin = Plugin(
    id: string,
    name: string,
    labelText: string,
    order: real,
    targets: seq<string>,
    active: bool,
    optional: bool,
    hasOptionalMixin: bool,
    instanceEnabled: bool,
    families: seq<string>,
    actions: seq<Action>)

  /** A pyblish instance. `labelText` and `family` are "" when the data has
      none; `publish` is
      the data's "publish" key (`None` when the key is missing). */
  datatype Instance = Instance(
    id: string,
    name: string,
    labelText: string,
    family: string,
    families: seq<string>,
    publish: Option<bool>)

  /** The fields of a `PublishValidationError`; `title` is "" when unset. */
  datatype ValidationException = ValidationException(
    title: string,
    description: Option<string>,
    detail: Option<string>,
    isBlocking: bool)

  /** What one plugin execution raised: nothing, a `PublishValidationError`, a
      `KnownPublishError` (with its `str()`), or any other exception. */
  datatype Exc =
    | NoError
    | Validation(error: ValidationException)
    | Known(message: string)
    | Other

  /** The label shown for a plugin: its `label` when set, else its class name. */
  function PluginLabel(p: Plugin): string
  {
    if p.labelText != "" then p.labelText else p.name
  }

  /** The label shown for an instance: data "label" when set, else data "name". */
  function InstanceLabel(x: Instance): string
  {
    if x.labelText != "" then x.labelText else x.name
  }

  /** An instance is left out of publishing only when its "publish" key is
      literally `False`. */
  predicate IsPublished(x: Instance)
  {
    x.publish != Some(false)
  }

  /** `_is_publish_plugin_active`: the optional-plugin mixin uses `active` as
      the default of a UI toggle, so an optional plugin with the mixin runs
      even when `active` is off. */
  predicate IsPublishPluginActive(p: Plugin)
  {
    if p.active then true
    else if !p.optional then false
    else p.hasOptionalMixin
  }

  /** Family `f` is contributed by instance `x`: by its non-empty "family" or
      by an entry of "families". With `onlyActive`, unpublished instances
      contribute nothing. */
  predicate Contributes(x: Instance, onlyActive: bool, f: string)
  {
    (!onlyActive || IsPublished(x)) && ((x.family != "" && f == x.family) || f in x.families)
  }

  /** `collect_families_from_instances`: every family some instance contributes. */
  function CollectFamilies(instances: seq<Instance>, onlyActive: bool): (r: set<string>)
    ensures forall f :: f in r <==> exists i :: 0 <= i < |instances| && Contributes(instances[i], onlyActive, f)
    decreases |instances|
  {
    if |instances| == 0 then {}
    else
      var init := instances[..|instances| - 1];
      var x := instances[|instances| - 1];
      var rest := CollectFamilies(init, onlyActive);
      var own :=
        if onlyActive && !IsPublished(x) then {}
        else (if x.family != "" then {x.family} else {}) + (set f | f in x.families);
      assert forall i :: 0 <= i < |init| ==> init[i] == instances[i];
      assert forall f :: f in own <==> Contributes(x, onlyActive, f);
      rest + own
  }
}
