/** `ValidationErrorItem`, `PublishValidationErrors` and
    `PublishValidationErrorsReport`: the validation errors collected during one
    publish, the action items cached for each failing plugin, and the report
    the UI groups by plugin and title. */
module ValidationErrors {
  import opened Base
  import opened Seqs
  import opened Data
  import opened Plugins
  import opened PluginsProxy

  /** One validation error, as handed to the UI. `instanceId` and
      `instanceLabel` are `None` for an error raised on the context. */
  datatype ValidationErrorItem = ValidationErrorItem(
    instanceId: Option<string>,
    instanceLabel: Option<string>,
    pluginId: string,
    contextValidation: bool,
    title: string,
    description: Option<string>,
    detail: Option<string>,
    isBlocking: bool)

  /** `ValidationErrorItem.from_result`: an error on an instance carries the
      instance's id and label; one on the context carries neither and is
      flagged as a context validation. */
  function ItemFromResult(pluginId: string, error: ValidationException, instance: Option<Instance>): (it: ValidationErrorItem)
    ensures it.contextValidation <==> instance.None?
    ensures instance.None? ==> it.instanceId.None? && it.instanceLabel.None?
    ensures instance.Some? ==> it.instanceId == Some(instance.value.id) && it.instanceLabel == Some(InstanceLabel(instance.value))
    ensures it.pluginId == pluginId && it.title == error.title && it.isBlocking == error.isBlocking
    ensures it.description == error.description && it.detail == error.detail
  {
    match instance
    case None =>
      ValidationErrorItem(None, None, pluginId, true, error.title, error.description, error.detail, error.isBlocking)
    case Some(x) =>
      ValidationErrorItem(Some(x.id), Some(InstanceLabel(x)), pluginId, false, error.title, error.description, error.detail, error.isBlocking)
  }

  const ErrorItemKeys: set<string> :=
    {"instance_id", "instance_label", "plugin_id", "context_validation", "title", "description", "detail", "is_blocking"}

  function ErrorItemToData(it: ValidationErrorItem): (v: Value)
    ensures v.Dict? && v.entries.Keys == ErrorItemKeys
    ensures ErrorItemFromData(v) == Some(it)
  {
    Dict(map[
      "instance_id" := OfOptStr(it.instanceId),
      "instance_label" := OfOptStr(it.instanceLabel),
      "plugin_id" := Str(it.pluginId),
      "context_validation" := Bool(it.contextValidation),
      "title" := Str(it.title),
      "description" := OfOptStr(it.description),
      "detail" := OfOptStr(it.detail),
      "is_blocking" := Bool(it.isBlocking)])
  }

  /** `cls(**data)`: exactly the constructor's arguments, each of its type. */
  function ErrorItemFromData(v: Value): Option<ValidationErrorItem>
  {
    match v
    case Dict(m) =>
      if m.Keys == ErrorItemKeys
         && AsOptStr(m["instance_id"]).Some? && AsOptStr(m["instance_label"]).Some?
         && m["plugin_id"].Str? && m["context_validation"].Bool? && m["title"].Str?
         && AsOptStr(m["description"]).Some? && AsOptStr(m["detail"]).Some? && m["is_blocking"].Bool?
      then Some(ValidationErrorItem(
        AsOptStr(m["instance_id"]).value, AsOptStr(m["instance_label"]).value, m["plugin_id"].s,
        m["context_validation"].b, m["title"].s, AsOptStr(m["description"]).value,
        AsOptStr(m["detail"]).value, m["is_blocking"].b))
      else None
    case _ => None
  }

  /** Whatever `from_data` accepts, `to_data` gives back unchanged. */
  lemma ErrorItemDataExact(v: Value)
    requires ErrorItemFromData(v).Some?
    ensures ErrorItemToData(ErrorItemFromData(v).value) == v
  {
    var m := v.entries;
    OptStrBack(m["instance_id"]);
    OptStrBack(m["instance_label"]);
    OptStrBack(m["description"]);
    OptStrBack(m["detail"]);
    var w := ErrorItemToData(ErrorItemFromData(v).value).entries;
    assert w.Keys == m.Keys;
    assert w["instance_id"] == m["instance_id"] && w["instance_label"] == m["instance_label"];
    assert w["description"] == m["description"] && w["detail"] == m["detail"];
    assert w["plugin_id"] == m["plugin_id"] && w["context_validation"] == m["context_validation"];
    assert w["title"] == m["title"] && w["is_blocking"] == m["is_blocking"];
    assert w == m;
  }

  /** The title an error is stored under: its own when set, else the plugin's
      label, else the plugin's class name. */
  function TitledFor(plugin: Plugin, error: ValidationException): (e: ValidationException)
    ensures e.title != "" || (plugin.labelText == "" && plugin.name == "")
    ensures error.title != "" ==> e == error
    ensures error.title == "" ==> e == error.(title := PluginLabel(plugin))
  {
    if error.title != "" then error else error.(title := PluginLabel(plugin))
  }

  /** `PublisherController._set_error_title_if_missing`: an untitled error
      takes the plugin's `label` attribute, which may itself be unset. */
  function SetErrorTitleIfMissing(plugin: Plugin, error: ValidationException): ValidationException
  {
    if error.title != "" then error else error.(title := plugin.labelText)
  }

  /** The controller's own fallback followed by `add_error`'s stores the same
      title as `add_error`'s alone. */
  lemma TitleFallbacksAgree(plugin: Plugin, error: ValidationException)
    ensures TitledFor(plugin, SetErrorTitleIfMissing(plugin, error)) == TitledFor(plugin, error)
  {
  }

  /** The proxy `PublishValidationErrors` looks plugins up in: none before
      its first `reset`, the controller's current one after a `reset`, or one
      the controller has since replaced without resetting this list. The
      controller's `set_plugin_actions` changes the proxy object it holds, so
      only a list that holds that same object sees the change. */
  datatype ProxyRef = Unset | Current | Former(proxy: ValidProxy)

  /** `PublishValidationErrors`: the items in the order they were added, the
      action items of every plugin that failed validation, and the proxy. */
  datatype Errors = Errors(items: seq<ValidationErrorItem>, actionItems: map<string, seq<ActionItem>>, proxy: ProxyRef)

  /** `__init__`. */
  const NewErrors: Errors := Errors([], map[], Unset)

  /** `reset`, given the controller's proxy. */
  const NoErrors: Errors := Errors([], map[], Current)

  /** The proxy object the list holds, when the controller holds `current`. */
  function Held(e: Errors, current: ValidProxy): Option<ValidProxy>
  {
    match e.proxy
    case Unset => None
    case Current => Some(current)
    case Former(p) => Some(p)
  }

  /** The controller replaces its proxy and the list's `reset` is not reached:
      a list that held the controller's proxy keeps holding the replaced one,
      which is `None` when the controller had none. */
  function Orphaned(e: Errors, replaced: Option<ValidProxy>): (r: Errors)
    ensures r.items == e.items && r.actionItems == e.actionItems
    ensures !r.proxy.Current?
    ensures forall current :: Held(r, current) == (if e.proxy.Current? then replaced else Held(e, current))
  {
    if !e.proxy.Current? then e
    else if replaced.None? then e.(proxy := Unset)
    else e.(proxy := Former(replaced.value))
  }

  /** `add_error`. A list that holds no proxy raises on the plugin-id lookup,
      before anything is stored. Otherwise the item is stored before the
      plugin's action items are looked up, so a plugin whose actions were
      never set still gets its item and then faults with the `KeyError`. */
  function AddError(e: Errors, current: ValidProxy, plugin: Plugin, error: ValidationException, instance: Option<Instance>): (r: Outcome<Errors>)
    ensures e.proxy.Unset? ==> r == Outcome(e, Some(NoContext))
    ensures r.state.proxy == e.proxy
    ensures !e.proxy.Unset? ==>
      && |r.state.items| == |e.items| + 1 && r.state.items[..|e.items|] == e.items
      && r.state.items[|e.items|] == ItemFromResult(plugin.id, TitledFor(plugin, error), instance)
      && (r.fault.None? || r.fault == Some(LookupFailure))
    ensures !e.proxy.Unset? && plugin.id in e.actionItems ==> r.Ok() && r.state.actionItems == e.actionItems
    ensures !e.proxy.Unset? && plugin.id !in e.actionItems ==>
      var proxy := Held(e, current).value;
      && (r.Ok() <==> plugin.id in proxy.actionIds)
      && (r.Ok() ==> r.state.actionItems == e.actionItems[plugin.id := GetPluginActionItems(proxy, plugin.id).value])
      && (!r.Ok() ==> r.state.actionItems == e.actionItems)
  {
    match Held(e, current)
    case None => Outcome(e, Some(NoContext))
    case Some(proxy) =>
      var items := e.items + [ItemFromResult(plugin.id, TitledFor(plugin, error), instance)];
      if plugin.id in e.actionItems then Outcome(e.(items := items), None)
      else
        match GetPluginActionItems(proxy, plugin.id)
        case None => Outcome(e.(items := items), Some(LookupFailure))
        case Some(acts) => Outcome(e.(items := items, actionItems := e.actionItems[plugin.id := acts]), None)
  }

  /** Action items are cached for exactly the plugins that have an item. */
  predicate Covered(e: Errors)
  {
    && (forall i :: 0 <= i < |e.items| ==> e.items[i].pluginId in e.actionItems)
    && (forall pid :: pid in e.actionItems ==> exists i :: 0 <= i < |e.items| && e.items[i].pluginId == pid)
  }

  /** `add_error` keeps the cache in step with the items, and never replaces a
      plugin's cached action items once it has some. */
  lemma AddErrorKeepsCache(e: Errors, current: ValidProxy, plugin: Plugin, error: ValidationException, instance: Option<Instance>)
    requires Covered(e)
    ensures var r := AddError(e, current, plugin, error, instance);
            && (r.Ok() ==> Covered(r.state))
            && (forall pid :: pid in e.actionItems ==> pid in r.state.actionItems && r.state.actionItems[pid] == e.actionItems[pid])
  {
    var r := AddError(e, current, plugin, error, instance);
    var n := |e.items|;
    if r.Ok() {
      assert forall i :: 0 <= i < n ==> r.state.items[i] == e.items[i];
      assert r.state.items[n].pluginId == plugin.id;
      forall pid | pid in r.state.actionItems
        ensures exists i :: 0 <= i < |r.state.items| && r.state.items[i].pluginId == pid
      {
        if pid == plugin.id {
          assert r.state.items[n].pluginId == pid;
        } else {
          var i :| 0 <= i < n && e.items[i].pluginId == pid;
          assert r.state.items[i].pluginId == pid;
        }
      }
    }
  }

  /** `PublishValidationErrorsReport`. */
  datatype Report = Report(
    items: seq<ValidationErrorItem>,
    actionItems: map<string, seq<ActionItem>>,
    hasBlockingErrors: bool,
    hasNonBlockingErrors: bool)

  /** The report's constructor: one pass over the items that stops as soon as
      both kinds of error have been seen. */
  method NewReport(items: seq<ValidationErrorItem>, actionItems: map<string, seq<ActionItem>>) returns (r: Report)
    ensures r.items == items && r.actionItems == actionItems
    ensures r.hasBlockingErrors <==> exists i :: 0 <= i < |items| && items[i].isBlocking
    ensures r.hasNonBlockingErrors <==> exists i :: 0 <= i < |items| && !items[i].isBlocking
  {
    var blocking := false;
    var nonBlocking := false;
    var k := 0;
    while k < |items|
      invariant 0 <= k <= |items|
      invariant blocking <==> exists i :: 0 <= i < k && items[i].isBlocking
      invariant nonBlocking <==> exists i :: 0 <= i < k && !items[i].isBlocking
      decreases |items| - k
    {
      if items[k].isBlocking {
        blocking := true;
      } else {
        nonBlocking := true;
      }
      k := k + 1;
      if blocking && nonBlocking {
        break;
      }
    }
    r := Report(items, actionItems, blocking, nonBlocking);
  }

  /** `create_report`. */
  method CreateReport(e: Errors) returns (r: Report)
    ensures r.items == e.items && r.actionItems == e.actionItems
    ensures r.hasBlockingErrors <==> exists i :: 0 <= i < |e.items| && e.items[i].isBlocking
    ensures r.hasNonBlockingErrors <==> exists i :: 0 <= i < |e.items| && !e.items[i].isBlocking
  {
    r := NewReport(e.items, e.actionItems);
  }

  /** One entry of `group_items_by_title`; the random group id is left out. */
  datatype ErrorGroup = ErrorGroup(
    pluginId: string,
    actionItems: seq<ActionItem>,
    errorItems: seq<ValidationErrorItem>,
    title: string)

  function ItemPluginId(it: ValidationErrorItem): string
  {
    it.pluginId
  }

  function ItemTitle(it: ValidationErrorItem): string
  {
    it.title
  }

  function PluginIdsOf(items: seq<ValidationErrorItem>): (r: seq<string>)
    ensures |r| == |items| && forall i :: 0 <= i < |items| ==> r[i] == items[i].pluginId
  {
    seq(|items|, i requires 0 <= i < |items| => items[i].pluginId)
  }

  function TitlesOf(items: seq<ValidationErrorItem>): (r: seq<string>)
    ensures |r| == |items| && forall i :: 0 <= i < |items| ==> r[i] == items[i].title
  {
    seq(|items|, i requires 0 <= i < |items| => items[i].title)
  }

  /** The items of one plugin. */
  function OfPlugin(items: seq<ValidationErrorItem>, pid: string): seq<ValidationErrorItem>
  {
    FilterKey(items, ItemPluginId, pid)
  }

  /** `group_items_by_title`. Plugins are taken in order of their first
      error, and within a plugin titles in order of their first error; each
      group lists its errors in input order. `None` is the `KeyError` of a
      plugin with no cached action items. */
  function GroupItemsByTitle(r: Report): Option<seq<ErrorGroup>>
  {
    PluginGroups(r.items, r.actionItems, FirstSeen(PluginIdsOf(r.items)))
  }

  function PluginGroups(items: seq<ValidationErrorItem>, cache: map<string, seq<ActionItem>>, pids: seq<string>): Option<seq<ErrorGroup>>
    decreases |pids|
  {
    if |pids| == 0 then Some([])
    else if pids[0] !in cache then None
    else
      match PluginGroups(items, cache, pids[1..])
      case None => None
      case Some(rest) => Some(OwnGroups(items, cache[pids[0]], pids[0]) + rest)
  }

  /** The groups of one plugin: one per title, in order of first appearance
      among that plugin's errors. */
  function OwnGroups(items: seq<ValidationErrorItem>, acts: seq<ActionItem>, pid: string): seq<ErrorGroup>
  {
    var mine := OfPlugin(items, pid);
    TitleGroups(pid, acts, mine, FirstSeen(TitlesOf(mine)))
  }

  function TitleGroups(pid: string, acts: seq<ActionItem>, mine: seq<ValidationErrorItem>, titles: seq<string>): seq<ErrorGroup>
  {
    seq(|titles|, k requires 0 <= k < |titles| => ErrorGroup(pid, acts, FilterKey(mine, ItemTitle, titles[k]), titles[k]))
  }

  lemma PluginGroupsCons(items: seq<ValidationErrorItem>, cache: map<string, seq<ActionItem>>, pids: seq<string>)
    requires |pids| > 0 && PluginGroups(items, cache, pids).Some?
    ensures pids[0] in cache && PluginGroups(items, cache, pids[1..]).Some?
    ensures PluginGroups(items, cache, pids).value
         == OwnGroups(items, cache[pids[0]], pids[0]) + PluginGroups(items, cache, pids[1..]).value
  {
  }

  /** Independent reference for a group's contents: the items with both the
      plugin id and the title, in input order. */
  function Matching(items: seq<ValidationErrorItem>, pid: string, title: string): (r: seq<ValidationErrorItem>)
    ensures IsSubseq(r, items)
    ensures forall it :: it in r <==> it in items && it.pluginId == pid && it.title == title
    decreases |items|
  {
    if |items| == 0 then []
    else
      var rest := Matching(items[1..], pid, title);
      assert items == [items[0]] + items[1..];
      if items[0].pluginId == pid && items[0].title == title then [items[0]] + rest else rest
  }

  /** Filtering by plugin and then by title is filtering by both at once. */
  lemma {:induction false} FilterTwice(items: seq<ValidationErrorItem>, pid: string, title: string)
    ensures FilterKey(OfPlugin(items, pid), ItemTitle, title) == Matching(items, pid, title)
    decreases |items|
  {
    if |items| > 0 {
      FilterTwice(items[1..], pid, title);
      var rest := OfPlugin(items[1..], pid);
      if items[0].pluginId == pid {
        assert OfPlugin(items, pid) == [items[0]] + rest;
        assert ([items[0]] + rest)[1..] == rest;
      }
    }
  }

  /** The error items of a list of groups, in group order. */
  function Flatten(gs: seq<ErrorGroup>): seq<ValidationErrorItem>
    decreases |gs|
  {
    if |gs| == 0 then [] else gs[0].errorItems + Flatten(gs[1..])
  }

  lemma {:induction false} FlattenAppend(a: seq<ErrorGroup>, b: seq<ErrorGroup>)
    ensures Flatten(a + b) == Flatten(a) + Flatten(b)
    decreases |a|
  {
    if |a| == 0 {
      assert a + b == b;
    } else {
      assert (a + b)[0] == a[0];
      assert (a + b)[1..] == a[1..] + b;
      FlattenAppend(a[1..], b);
    }
  }

  lemma {:induction false} FlattenTitleGroups(pid: string, acts: seq<ActionItem>, mine: seq<ValidationErrorItem>, titles: seq<string>)
    ensures Flatten(TitleGroups(pid, acts, mine, titles)) == Gather(mine, ItemTitle, titles)
    decreases |titles|
  {
    if |titles| > 0 {
      var gs := TitleGroups(pid, acts, mine, titles);
      assert gs[1..] == TitleGroups(pid, acts, mine, titles[1..]);
      FlattenTitleGroups(pid, acts, mine, titles[1..]);
    }
  }

  /** Grouping can only fault on a plugin that has no cached action items. */
  lemma {:induction false} PluginGroupsDefined(items: seq<ValidationErrorItem>, cache: map<string, seq<ActionItem>>, pids: seq<string>)
    ensures PluginGroups(items, cache, pids).Some? <==> forall k :: 0 <= k < |pids| ==> pids[k] in cache
    decreases |pids|
  {
    if |pids| > 0 {
      PluginGroupsDefined(items, cache, pids[1..]);
      assert forall k :: 1 <= k < |pids| ==> pids[k] == pids[1..][k - 1];
      assert forall k :: 0 <= k < |pids| - 1 ==> pids[1..][k] == pids[k + 1];
    }
  }

  /** `group_items_by_title` succeeds exactly when every failing plugin has
      cached action items, which `add_error` maintains. */
  lemma GroupingDefined(r: Report)
    ensures GroupItemsByTitle(r).Some? <==> forall i :: 0 <= i < |r.items| ==> r.items[i].pluginId in r.actionItems
  {
    var ids := PluginIdsOf(r.items);
    var pids := FirstSeen(ids);
    PluginGroupsDefined(r.items, r.actionItems, pids);
    if forall k :: 0 <= k < |pids| ==> pids[k] in r.actionItems {
      forall i | 0 <= i < |r.items| ensures r.items[i].pluginId in r.actionItems {
        assert ids[i] in pids;
      }
    }
    if forall i :: 0 <= i < |r.items| ==> r.items[i].pluginId in r.actionItems {
      forall k | 0 <= k < |pids| ensures pids[k] in r.actionItems {
        assert pids[k] in ids;
      }
    }
  }

  /** The items of a group-by-plugin pass, concatenated, are the plugin-by-
      plugin gathering of the input. */
  lemma {:induction false} PluginGroupsFlatten(items: seq<ValidationErrorItem>, cache: map<string, seq<ActionItem>>, pids: seq<string>)
    requires PluginGroups(items, cache, pids).Some?
    ensures multiset(Flatten(PluginGroups(items, cache, pids).value)) == multiset(Gather(items, ItemPluginId, pids))
    decreases |pids|
  {
    if |pids| > 0 {
      PluginGroupsCons(items, cache, pids);
      var rest := PluginGroups(items, cache, pids[1..]).value;
      var mine := OfPlugin(items, pids[0]);
      var titles := FirstSeen(TitlesOf(mine));
      var own := OwnGroups(items, cache[pids[0]], pids[0]);
      PluginGroupsFlatten(items, cache, pids[1..]);
      FlattenAppend(own, rest);
      FlattenTitleGroups(pids[0], cache[pids[0]], mine, titles);
      forall x | x in mine ensures ItemTitle(x) in titles {
        var i :| 0 <= i < |mine| && mine[i] == x;
        assert TitlesOf(mine)[i] == x.title;
      }
      GatherPermutes(mine, ItemTitle, titles);
    }
  }

  /** The groups partition the errors: their contents, concatenated, are a
      permutation of the report's items. */
  lemma GroupingPermutes(r: Report)
    requires GroupItemsByTitle(r).Some?
    ensures multiset(Flatten(GroupItemsByTitle(r).value)) == multiset(r.items)
  {
    var ids := PluginIdsOf(r.items);
    var pids := FirstSeen(ids);
    PluginGroupsFlatten(r.items, r.actionItems, pids);
    forall x | x in r.items ensures ItemPluginId(x) in pids {
      var i :| 0 <= i < |r.items| && r.items[i] == x;
      assert ids[i] == x.pluginId;
    }
    GatherPermutes(r.items, ItemPluginId, pids);
  }

  /** What one group of a group-by-plugin pass holds. */
  predicate WellFormedGroup(items: seq<ValidationErrorItem>, cache: map<string, seq<ActionItem>>, g: ErrorGroup)
  {
    && g.pluginId in cache
    && g.actionItems == cache[g.pluginId]
    && g.title in TitlesOf(OfPlugin(items, g.pluginId))
    && g.errorItems == Matching(items, g.pluginId, g.title)
  }

  /** Where a group sorts: the position of its plugin's first error, then
      the position of its title's first appearance among that plugin's errors. */
  datatype Rank = Rank(pluginPos: nat, titlePos: nat)

  predicate RankBelow(a: Rank, b: Rank)
  {
    a.pluginPos < b.pluginPos || (a.pluginPos == b.pluginPos && a.titlePos < b.titlePos)
  }

  /** The group's plugin and title both occur among the errors. */
  predicate Ranked(items: seq<ValidationErrorItem>, g: ErrorGroup)
  {
    g.pluginId in PluginIdsOf(items) && g.title in TitlesOf(OfPlugin(items, g.pluginId))
  }

  function GroupRank(items: seq<ValidationErrorItem>, g: ErrorGroup): Rank
    requires Ranked(items, g)
  {
    Rank(IndexOf(PluginIdsOf(items), g.pluginId), IndexOf(TitlesOf(OfPlugin(items, g.pluginId)), g.title))
  }

  /** `g` sorts strictly before `h`. */
  predicate GroupBefore(items: seq<ValidationErrorItem>, g: ErrorGroup, h: ErrorGroup)
  {
    Ranked(items, g) && Ranked(items, h) && RankBelow(GroupRank(items, g), GroupRank(items, h))
  }

  /** Each group of one plugin is well formed. */
  lemma OwnGroupAt(items: seq<ValidationErrorItem>, cache: map<string, seq<ActionItem>>, pid: string, k: nat)
    requires pid in cache
    requires k < |OwnGroups(items, cache[pid], pid)|
    ensures OwnGroups(items, cache[pid], pid)[k].pluginId == pid
    ensures WellFormedGroup(items, cache, OwnGroups(items, cache[pid], pid)[k])
  {
    var titles := FirstSeen(TitlesOf(OfPlugin(items, pid)));
    FilterTwice(items, pid, titles[k]);
  }

  /** One plugin's groups follow the first appearance of their titles. */
  lemma OwnGroupsOrdered(items: seq<ValidationErrorItem>, acts: seq<ActionItem>, pid: string, k: nat, l: nat)
    requires k < l < |OwnGroups(items, acts, pid)|
    ensures var gs := OwnGroups(items, acts, pid);
            var ts := TitlesOf(OfPlugin(items, pid));
            && gs[k].title in ts && gs[l].title in ts
            && IndexOf(ts, gs[k].title) < IndexOf(ts, gs[l].title)
  {
  }

  /** Every group of a group-by-plugin pass is well formed and belongs to
      one of the plugins passed. */
  lemma {:induction false} PluginGroupAt(items: seq<ValidationErrorItem>, cache: map<string, seq<ActionItem>>, pids: seq<string>, k: nat)
    requires PluginGroups(items, cache, pids).Some?
    requires k < |PluginGroups(items, cache, pids).value|
    ensures PluginGroups(items, cache, pids).value[k].pluginId in pids
    ensures WellFormedGroup(items, cache, PluginGroups(items, cache, pids).value[k])
    decreases |pids|
  {
    if |pids| > 0 {
      PluginGroupsCons(items, cache, pids);
      var own := OwnGroups(items, cache[pids[0]], pids[0]);
      if k < |own| {
        OwnGroupAt(items, cache, pids[0], k);
      } else {
        PluginGroupAt(items, cache, pids[1..], k - |own|);
        var rest := PluginGroups(items, cache, pids[1..]).value;
        var j :| 0 <= j < |pids[1..]| && pids[1..][j] == rest[k - |own|].pluginId;
        assert pids[j + 1] == pids[1..][j];
      }
    }
  }

  /** `pids` lists plugins that have errors, in order of their first error. */
  predicate InFailureOrder(items: seq<ValidationErrorItem>, pids: seq<string>)
  {
    && (forall i :: 0 <= i < |pids| ==> pids[i] in PluginIdsOf(items))
    && (forall i, j :: 0 <= i < j < |pids| ==> IndexOf(PluginIdsOf(items), pids[i]) < IndexOf(PluginIdsOf(items), pids[j]))
  }

  /** The groups are in order whenever the plugins are in order of first failure. */
  lemma {:induction false} PluginGroupsOrdered(items: seq<ValidationErrorItem>, cache: map<string, seq<ActionItem>>, pids: seq<string>, k: nat, l: nat)
    requires PluginGroups(items, cache, pids).Some?
    requires InFailureOrder(items, pids)
    requires k < l < |PluginGroups(items, cache, pids).value|
    ensures GroupBefore(items, PluginGroups(items, cache, pids).value[k], PluginGroups(items, cache, pids).value[l])
    decreases |pids|
  {
    if |pids| > 0 {
      PluginGroupsCons(items, cache, pids);
      var own := OwnGroups(items, cache[pids[0]], pids[0]);
      if k < |own| {
        HeadOrdered(items, cache, pids, k, l);
      } else {
        var rest := PluginGroups(items, cache, pids[1..]).value;
        TailOrdered(items, pids);
        PluginGroupsOrdered(items, cache, pids[1..], k - |own|, l - |own|);
        RestOrdered(items, PluginGroups(items, cache, pids).value, own, rest, k, l);
      }
    }
  }

  /** A group of the first plugin precedes every later group. */
  lemma HeadOrdered(items: seq<ValidationErrorItem>, cache: map<string, seq<ActionItem>>, pids: seq<string>, k: nat, l: nat)
    requires |pids| > 0 && PluginGroups(items, cache, pids).Some?
    requires InFailureOrder(items, pids)
    requires pids[0] in cache && k < |OwnGroups(items, cache[pids[0]], pids[0])|
    requires k < l < |PluginGroups(items, cache, pids).value|
    ensures GroupBefore(items, PluginGroups(items, cache, pids).value[k], PluginGroups(items, cache, pids).value[l])
  {
    PluginGroupsCons(items, cache, pids);
    var own := OwnGroups(items, cache[pids[0]], pids[0]);
    var rest := PluginGroups(items, cache, pids[1..]).value;
    if l < |own| {
      OwnOrdered(items, cache, pids[0], k, l);
    } else {
      OwnGroupAt(items, cache, pids[0], k);
      PluginGroupAt(items, cache, pids[1..], l - |own|);
      OwnBeforeRest(items, pids, own[k], rest[l - |own|]);
    }
  }

  /** Order between two groups of the tail carries over once the first
      plugin's groups are put in front. */
  lemma RestOrdered(items: seq<ValidationErrorItem>, gs: seq<ErrorGroup>, own: seq<ErrorGroup>, rest: seq<ErrorGroup>, k: nat, l: nat)
    requires gs == own + rest
    requires |own| <= k < l < |gs|
    requires GroupBefore(items, rest[k - |own|], rest[l - |own|])
    ensures GroupBefore(items, gs[k], gs[l])
  {
    assert gs[k] == rest[k - |own|] && gs[l] == rest[l - |own|];
  }

  /** Dropping the first plugin keeps the rest in order of first failure. */
  lemma TailOrdered(items: seq<ValidationErrorItem>, pids: seq<string>)
    requires |pids| > 0
    requires InFailureOrder(items, pids)
    ensures InFailureOrder(items, pids[1..])
  {
    var tail := pids[1..];
    forall i | 0 <= i < |tail| ensures tail[i] in PluginIdsOf(items) {
      assert tail[i] == pids[i + 1];
    }
    forall i, j | 0 <= i < j < |tail| ensures IndexOf(PluginIdsOf(items), tail[i]) < IndexOf(PluginIdsOf(items), tail[j]) {
      assert tail[i] == pids[i + 1] && tail[j] == pids[j + 1];
    }
  }

  /** A group of the first plugin precedes a group of any later plugin. */
  lemma OwnBeforeRest(items: seq<ValidationErrorItem>, pids: seq<string>, g: ErrorGroup, h: ErrorGroup)
    requires |pids| > 0
    requires InFailureOrder(items, pids)
    requires g.pluginId == pids[0] && h.pluginId in pids[1..]
    requires Ranked(items, g) && Ranked(items, h)
    ensures GroupBefore(items, g, h)
  {
    var j :| 0 <= j < |pids[1..]| && pids[1..][j] == h.pluginId;
    assert pids[j + 1] == h.pluginId;
  }

  /** Two groups of the first plugin follow the order of their titles. */
  lemma OwnOrdered(items: seq<ValidationErrorItem>, cache: map<string, seq<ActionItem>>, pid: string, k: nat, l: nat)
    requires pid in cache && pid in PluginIdsOf(items)
    requires k < l < |OwnGroups(items, cache[pid], pid)|
    ensures GroupBefore(items, OwnGroups(items, cache[pid], pid)[k], OwnGroups(items, cache[pid], pid)[l])
  {
    OwnGroupAt(items, cache, pid, k);
    OwnGroupAt(items, cache, pid, l);
    OwnGroupsOrdered(items, cache[pid], pid, k, l);
  }

  /** `group_items_by_title`: each group holds, in input order, exactly the
      errors of one plugin with one title, plus that plugin's action items;
      groups come in order of the plugin's first error and then of the title's
      first error within that plugin. */
  lemma GroupingShape(r: Report)
    requires GroupItemsByTitle(r).Some?
    ensures var gs := GroupItemsByTitle(r).value;
            && (forall k :: 0 <= k < |gs| ==> WellFormedGroup(r.items, r.actionItems, gs[k]))
            && (forall k, l :: 0 <= k < l < |gs| ==> GroupBefore(r.items, gs[k], gs[l]))
  {
    var pids := FirstSeen(PluginIdsOf(r.items));
    var gs := GroupItemsByTitle(r).value;
    forall k | 0 <= k < |gs| ensures WellFormedGroup(r.items, r.actionItems, gs[k]) {
      PluginGroupAt(r.items, r.actionItems, pids, k);
    }
    assert InFailureOrder(r.items, pids);
    forall k, l | 0 <= k < l < |gs| ensures GroupBefore(r.items, gs[k], gs[l]) {
      PluginGroupsOrdered(r.items, r.actionItems, pids, k, l);
    }
  }

  /** No two groups share both plugin and title: the order is strict. */
  lemma GroupBeforeSeparates(items: seq<ValidationErrorItem>, g: ErrorGroup, h: ErrorGroup)
    requires GroupBefore(items, g, h)
    ensures g.pluginId != h.pluginId || g.title != h.title
  {
  }

  /** Every error lands in the group of its plugin and title. */
  lemma GroupingCovers(r: Report, i: nat)
    requires GroupItemsByTitle(r).Some?
    requires i < |r.items|
    ensures exists k :: 0 <= k < |GroupItemsByTitle(r).value| && r.items[i] in GroupItemsByTitle(r).value[k].errorItems
  {
    var gs := GroupItemsByTitle(r).value;
    GroupingPermutes(r);
    assert r.items[i] in multiset(r.items);
    FlattenMember(gs, r.items[i]);
  }

  lemma {:induction false} FlattenMember(gs: seq<ErrorGroup>, x: ValidationErrorItem)
    requires x in Flatten(gs)
    ensures exists k :: 0 <= k < |gs| && x in gs[k].errorItems
    decreases |gs|
  {
    if x !in gs[0].errorItems {
      FlattenMember(gs[1..], x);
      var k :| 0 <= k < |gs[1..]| && x in gs[1..][k].errorItems;
      assert gs[k + 1] == gs[1..][k];
    }
  }
}
