/** `PublishPluginsProxy` and `PublishPluginActionItem`: the controller-side
    index of discovered plugins, and of the actions that are available on each
    plugin once it has been processed. */
module PluginsProxy {
  import opened Base
  import opened Seqs
  import opened Data
  import opened Plugins

  /** `isinstance(exception, PublishValidationError)`. */
  predicate PluginErrored(exc: Exc)
  {
    exc.Validation?
  }

  /** `getattr(exception, "is_blocking", False)`: only validation errors carry
      the attribute. */
  predicate ErrorIsBlocking(exc: Exc)
  {
    exc.Validation? && exc.error.isBlocking
  }

  /** An action is offered after a plugin ran when it is active and its `on`
      condition matches what the plugin raised. */
  predicate IsActionActive(a: Action, exc: Exc)
  {
    a.active
    && (a.on == "all"
        || (a.on == "failedOrWarning" && PluginErrored(exc))
        || (a.on == "failed" && PluginErrored(exc) && ErrorIsBlocking(exc)))
  }

  /** `_filter_plugin_active_actions`: the active actions, in declaration
      order, each as often as it is declared. */
  function ActiveActions(actions: seq<Action>, exc: Exc): (r: seq<Action>)
    ensures forall a :: a in r <==> a in actions && IsActionActive(a, exc)
    decreases |actions|
  {
    if |actions| == 0 then []
    else
      var rest := ActiveActions(actions[1..], exc);
      assert actions == [actions[0]] + actions[1..];
      if IsActionActive(actions[0], exc) then [actions[0]] + rest else rest
  }

  /** The filter only deletes: what is left keeps its declaration order. */
  lemma {:induction false} ActiveActionsOrdered(actions: seq<Action>, exc: Exc)
    ensures IsSubseq(ActiveActions(actions, exc), actions)
    decreases |actions|
  {
    if |actions| > 0 {
      ActiveActionsOrdered(actions[1..], exc);
    }
  }

  /** The filter keeps every copy of an active action and no copy of any other. */
  lemma {:induction false} ActiveActionsCount(actions: seq<Action>, exc: Exc)
    ensures forall a :: multiset(ActiveActions(actions, exc))[a]
                     == if IsActionActive(a, exc) then multiset(actions)[a] else 0
    decreases |actions|
  {
    if |actions| > 0 {
      ActiveActionsCount(actions[1..], exc);
      assert actions == [actions[0]] + actions[1..];
    }
  }

  /** A plugin that raised nothing, a `KnownPublishError` or any other
      exception offers the same actions: only "all" ones. */
  lemma {:induction false} NonValidationFiltersAlike(actions: seq<Action>, exc: Exc)
    requires !exc.Validation?
    ensures ActiveActions(actions, exc) == ActiveActions(actions, NoError)
    ensures forall a :: a in ActiveActions(actions, exc) ==> a.on == "all"
    decreases |actions|
  {
    if |actions| > 0 {
      NonValidationFiltersAlike(actions[1..], exc);
      assert IsActionActive(actions[0], exc) == IsActionActive(actions[0], NoError);
    }
  }

  /** A blocking validation error offers every action a non-blocking one
      offers, and a non-blocking one every action a clean run offers. */
  lemma ActionsGrowWithSeverity(a: Action, t: string, d: Option<string>, e: Option<string>)
    ensures IsActionActive(a, NoError) ==> IsActionActive(a, Validation(ValidationException(t, d, e, false)))
    ensures IsActionActive(a, Validation(ValidationException(t, d, e, false)))
        ==> IsActionActive(a, Validation(ValidationException(t, d, e, true)))
    ensures IsActionActive(a, Validation(ValidationException(t, d, e, true))) && !IsActionActive(a, NoError)
        ==> a.on == "failedOrWarning" || a.on == "failed"
  {
  }

  /** The data-driven description of one offered action, as sent to the UI. */
  datatype ActionItem = ActionItem(
    actionId: string,
    pluginId: string,
    active: bool,
    onFilter: string,
    labelText: string,
    icon: Option<string>)

  /** The keyword arguments of the item's constructor. */
  const ActionItemKeys: set<string> := {"action_id", "plugin_id", "active", "on_filter", "label", "icon"}

  function ActionItemToData(it: ActionItem): (v: Value)
    ensures v.Dict? && v.entries.Keys == ActionItemKeys
    ensures ActionItemFromData(v) == Some(it)
  {
    Dict(map[
      "action_id" := Str(it.actionId),
      "plugin_id" := Str(it.pluginId),
      "active" := Bool(it.active),
      "on_filter" := Str(it.onFilter),
      "label" := Str(it.labelText),
      "icon" := OfOptStr(it.icon)])
  }

  /** `cls(**data)`: a dictionary with a missing or an unexpected key is a
      `TypeError`, here `None`. The values are modelled with the types the
      docstring gives them (strings, booleans and an optional icon); a value
      of another type, which the constructor would accept, is `None` here. */
  function ActionItemFromData(v: Value): Option<ActionItem>
  {
    match v
    case Dict(m) =>
      if m.Keys == ActionItemKeys
         && m["action_id"].Str? && m["plugin_id"].Str? && m["active"].Bool?
         && m["on_filter"].Str? && m["label"].Str? && AsOptStr(m["icon"]).Some?
      then Some(ActionItem(m["action_id"].s, m["plugin_id"].s, m["active"].b,
                           m["on_filter"].s, m["label"].s, AsOptStr(m["icon"]).value))
      else None
    case _ => None
  }

  /** Whatever `from_data` accepts, `to_data` gives back unchanged. */
  lemma ActionItemDataExact(v: Value)
    requires ActionItemFromData(v).Some?
    ensures ActionItemToData(ActionItemFromData(v).value) == v
  {
    var m := v.entries;
    OptStrBack(m["icon"]);
    var w := ActionItemToData(ActionItemFromData(v).value).entries;
    assert w.Keys == m.Keys;
    assert w["action_id"] == m["action_id"] && w["plugin_id"] == m["plugin_id"] && w["active"] == m["active"];
    assert w["on_filter"] == m["on_filter"] && w["label"] == m["label"] && w["icon"] == m["icon"];
    assert w == m;
  }

  /** `_create_action_item`: the label falls back to the class name. */
  function CreateActionItem(a: Action, pluginId: string): (it: ActionItem)
    ensures it.actionId == a.id && it.pluginId == pluginId
    ensures it.active == a.active && it.onFilter == a.on && it.icon == a.icon
    ensures it.labelText == (if a.labelText == "" then a.name else a.labelText)
  {
    ActionItem(a.id, pluginId, a.active, a.on, if a.labelText != "" then a.labelText else a.name, a.icon)
  }

  function PluginIdOf(p: Plugin): string
  {
    p.id
  }

  function ActionIdOf(a: Action): string
  {
    a.id
  }

  /** The proxy's three dictionaries. Every recorded action id of a plugin is
      also in its actions-by-id dictionary, which is what makes
      `get_plugin_action_items` total once a plugin's actions are set. */
  datatype Proxy = Proxy(
    pluginsById: map<string, Plugin>,
    actionIds: map<string, seq<string>>,
    actionsById: map<string, map<string, Action>>)

  predicate Consistent(p: Proxy)
  {
    && p.actionIds.Keys == p.actionsById.Keys
    && (forall pid :: pid in p.actionIds ==> ActionsIndexed(p.actionIds[pid], p.actionsById[pid]))
  }

  /** Every listed id can be looked up, and every action is filed under its own id. */
  predicate ActionsIndexed(ids: seq<string>, byId: map<string, Action>)
  {
    && (forall aid :: aid in ids ==> aid in byId)
    && (forall aid :: aid in byId ==> byId[aid].id == aid)
  }

  type ValidProxy = p: Proxy | Consistent(p) witness Proxy(map[], map[], map[])

  /** `PublishPluginsProxy(plugins)`: plugins indexed by id, the last of
      several with one id winning; no actions yet. */
  function NewProxy(plugins: seq<Plugin>): (p: ValidProxy)
    ensures forall id :: id in p.pluginsById <==> id in Keys(plugins, PluginIdOf)
    ensures forall id :: id in p.pluginsById ==> p.pluginsById[id] in plugins && p.pluginsById[id].id == id
    ensures forall id :: id in p.pluginsById ==>
              exists i :: 0 <= i < |plugins| && p.pluginsById[id] == plugins[i] && LastWithKey(plugins, PluginIdOf, i)
    ensures p.actionIds == map[]
  {
    IndexByLast(plugins, PluginIdOf);
    Proxy(IndexBy(plugins, PluginIdOf), map[], map[])
  }

  /** With distinct plugin ids the proxy hands back each plugin by its id. */
  lemma NewProxyFindsPlugins(plugins: seq<Plugin>)
    requires DistinctKeys(plugins, PluginIdOf)
    ensures forall i :: 0 <= i < |plugins| ==> GetPlugin(NewProxy(plugins), plugins[i].id) == Some(plugins[i])
  {
    IndexByDistinct(plugins, PluginIdOf);
  }

  /** `get_plugin`; `None` is the `KeyError`. */
  function GetPlugin(p: ValidProxy, pluginId: string): (r: Option<Plugin>)
    ensures r.Some? <==> pluginId in p.pluginsById
    ensures r.Some? ==> r.value == p.pluginsById[pluginId]
  {
    if pluginId in p.pluginsById then Some(p.pluginsById[pluginId]) else None
  }

  /** `get_action`; `None` is the `KeyError` on either lookup. */
  function GetAction(p: ValidProxy, pluginId: string, actionId: string): (r: Option<Action>)
    ensures r.Some? <==> pluginId in p.actionsById && actionId in p.actionsById[pluginId]
    ensures r.Some? ==> r.value == p.actionsById[pluginId][actionId]
  {
    if pluginId in p.actionsById && actionId in p.actionsById[pluginId]
    then Some(p.actionsById[pluginId][actionId])
    else None
  }

  /** `set_plugin_actions`: records the plugin's active actions for the
      exception it raised. `None` is the `KeyError` of an unknown plugin. */
  function SetPluginActions(p: ValidProxy, pluginId: string, exc: Exc): (r: Option<ValidProxy>)
    ensures r.None? <==> pluginId !in p.pluginsById
    ensures r.Some? ==> r.value.pluginsById == p.pluginsById
    ensures r.Some? ==> pluginId in r.value.actionIds
    ensures r.Some? ==> forall pid :: pid != pluginId ==> OthersKept(p, r.value, pid)
  {
    if pluginId !in p.pluginsById then None
    else
      var active := ActiveActions(p.pluginsById[pluginId].actions, exc);
      var ids := Keys(active, ActionIdOf);
      var byId := IndexBy(active, ActionIdOf);
      assert ActionsIndexed(ids, byId);
      var q := Proxy(p.pluginsById, p.actionIds[pluginId := ids], p.actionsById[pluginId := byId]);
      assert Consistent(q) by {
        forall pid | pid in q.actionIds ensures ActionsIndexed(q.actionIds[pid], q.actionsById[pid]) {
          if pid != pluginId {
            assert ActionsIndexed(p.actionIds[pid], p.actionsById[pid]);
          }
        }
      }
      Some(q)
  }

  /** Setting one plugin's actions leaves another plugin's entries as they were. */
  predicate OthersKept(p: Proxy, q: Proxy, pid: string)
  {
    && (pid in q.actionIds <==> pid in p.actionIds)
    && (pid in p.actionIds && pid in q.actionIds && pid in p.actionsById && pid in q.actionsById ==>
          q.actionIds[pid] == p.actionIds[pid] && q.actionsById[pid] == p.actionsById[pid])
  }

  /** `get_plugin_action_items`: one item per recorded action id; `None` is
      the `KeyError` of a plugin whose actions were never set. */
  function GetPluginActionItems(p: ValidProxy, pluginId: string): (r: Option<seq<ActionItem>>)
    ensures r.Some? <==> pluginId in p.actionIds
    ensures r.Some? ==> |r.value| == |p.actionIds[pluginId]|
    ensures r.Some? ==> forall i :: 0 <= i < |r.value| ==>
      r.value[i].actionId == p.actionIds[pluginId][i] && r.value[i].pluginId == pluginId
  {
    if pluginId !in p.actionIds then None
    else
      var ids := p.actionIds[pluginId];
      Some(seq(|ids|, i requires 0 <= i < |ids| => CreateActionItem(p.actionsById[pluginId][ids[i]], pluginId)))
  }

  /** The items offered for a list of actions. */
  function ItemsFor(actions: seq<Action>, pluginId: string): (r: seq<ActionItem>)
    ensures |r| == |actions|
  {
    seq(|actions|, i requires 0 <= i < |actions| => CreateActionItem(actions[i], pluginId))
  }

  /** After a plugin ran, the items offered for it are exactly its active
      actions, in declaration order, provided its actions have distinct ids. */
  lemma ItemsAfterSetPluginActions(p: ValidProxy, pluginId: string, exc: Exc)
    requires pluginId in p.pluginsById
    requires DistinctKeys(p.pluginsById[pluginId].actions, ActionIdOf)
    ensures SetPluginActions(p, pluginId, exc).Some?
    ensures GetPluginActionItems(SetPluginActions(p, pluginId, exc).value, pluginId)
         == Some(ItemsFor(ActiveActions(p.pluginsById[pluginId].actions, exc), pluginId))
  {
    var active := ActiveActions(p.pluginsById[pluginId].actions, exc);
    var q := SetPluginActions(p, pluginId, exc).value;
    FiledActions(p, pluginId, exc);
    var ids := q.actionIds[pluginId];
    var byId := q.actionsById[pluginId];
    var items := seq(|ids|, i requires 0 <= i < |ids| => CreateActionItem(byId[ids[i]], pluginId));
    assert GetPluginActionItems(q, pluginId) == Some(items);
    assert items == ItemsFor(active, pluginId) by {
      forall i | 0 <= i < |active| ensures items[i] == ItemsFor(active, pluginId)[i] {
        assert byId[ids[i]] == active[i];
      }
    }
  }

  /** After a plugin ran, every offered action can be fetched back by `get_action`. */
  lemma GetActionAfterSetPluginActions(p: ValidProxy, pluginId: string, exc: Exc, a: Action)
    requires pluginId in p.pluginsById
    requires DistinctKeys(p.pluginsById[pluginId].actions, ActionIdOf)
    requires a in ActiveActions(p.pluginsById[pluginId].actions, exc)
    ensures SetPluginActions(p, pluginId, exc).Some?
    ensures GetAction(SetPluginActions(p, pluginId, exc).value, pluginId, a.id) == Some(a)
  {
    var active := ActiveActions(p.pluginsById[pluginId].actions, exc);
    FiledActions(p, pluginId, exc);
    var i :| 0 <= i < |active| && active[i] == a;
  }

  /** What `set_plugin_actions` files for the plugin: the ids of its active
      actions, and each of them under its own id. */
  lemma FiledActions(p: ValidProxy, pluginId: string, exc: Exc)
    requires pluginId in p.pluginsById
    requires DistinctKeys(p.pluginsById[pluginId].actions, ActionIdOf)
    ensures SetPluginActions(p, pluginId, exc).Some?
    ensures var q := SetPluginActions(p, pluginId, exc).value;
            var active := ActiveActions(p.pluginsById[pluginId].actions, exc);
            && q.actionIds[pluginId] == Keys(active, ActionIdOf)
            && q.actionsById[pluginId] == IndexBy(active, ActionIdOf)
            && forall i :: 0 <= i < |active| ==> q.actionsById[pluginId][active[i].id] == active[i]
  {
    var all := p.pluginsById[pluginId].actions;
    var active := ActiveActions(all, exc);
    var q := SetPluginActions(p, pluginId, exc).value;
    assert q.actionsById[pluginId] == IndexBy(active, ActionIdOf);
    ActiveActionsOrdered(all, exc);
    SubseqKeysDistinct(active, all, ActionIdOf);
    IndexByDistinct(active, ActionIdOf);
  }
}
