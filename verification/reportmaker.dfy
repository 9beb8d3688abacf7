/** `PublishReportMaker`: the per-plugin records of one publishing run.

    The maker keeps one record per plugin id, in the order the records were
    created, and a reference to the record of the plugin being processed. The
    reference starts out as an empty placeholder dictionary that belongs to no
    record; writes to it are invisible, and reading a missing key from it
    raises `KeyError`. Here the reference is the id of the record it points at,
    or `None` for the placeholder. Log records, timings, tracebacks, discovery
    results, the uuid and the creation time are not modelled.
 */
module ReportMaker {
  import opened Base
  import opened Seqs
  import opened Plugins
  import opened PluginsProxy

  /** One `instances_data` entry: the instance a `process` call ran on. */
  datatype InstanceRun = InstanceRun(instanceId: Option<string>)

  /** One `actions_data` entry. */
  datatype ActionRun = ActionRun(success: bool, name: string, labelText: string)

  /** The record kept for one plugin; `pluginLabel` is the plugin's `label`
      attribute, `None` when it sets none. */
  datatype PluginRecord = PluginRecord(
    id: string,
    name: string,
    pluginLabel: Option<string>,
    order: real,
    targets: seq<string>,
    instancesData: seq<InstanceRun>,
    actionItems: seq<ActionItem>,
    actionsData: seq<ActionRun>,
    skipped: bool,
    passed: bool,
    errored: bool,
    isBlocking: bool)

  function RecordId(r: PluginRecord): string
  {
    r.id
  }

  /** `_create_plugin_data_item`: a record with empty lists and every flag off. */
  function NewRecord(p: Plugin): PluginRecord
  {
    PluginRecord(p.id, p.name, if p.labelText != "" then Some(p.labelText) else None,
                 p.order, p.targets, [], [], [], false, false, false, false)
  }

  /** A record in its state right after creation. */
  predicate IsFresh(r: PluginRecord, p: Plugin)
  {
    && r.id == p.id && r.name == p.name && r.order == p.order && r.targets == p.targets
    && r.instancesData == [] && r.actionItems == [] && r.actionsData == []
    && !r.skipped && !r.passed && !r.errored && !r.isBlocking
  }

  /** The pyblish context of the run: its data "label" and its instances. */
  datatype PublishContext = PublishContext(labelText: Option<string>, instances: seq<Instance>)

  datatype Maker = Maker(
    records: seq<PluginRecord>,
    current: Option<Plugin>,
    currentData: Option<string>,
    instancesById: map<string, Instance>,
    context: Option<PublishContext>)

  /** The maker as the constructor leaves it. */
  const NewMaker: Maker := Maker([], None, None, map[], None)

  /** Where the record of `id` is stored. */
  function Position(rs: seq<PluginRecord>, id: string): (r: Option<nat>)
    ensures r.Some? ==> r.value < |rs| && rs[r.value].id == id
    ensures r.None? <==> forall i :: 0 <= i < |rs| ==> rs[i].id != id
    decreases |rs|
  {
    if |rs| == 0 then None
    else if rs[0].id == id then Some(0)
    else
      var rest := Position(rs[1..], id);
      assert forall i :: 1 <= i < |rs| ==> rs[i] == rs[1..][i - 1];
      match rest
      case None => None
      case Some(k) => Some(k + 1)
  }

  /** With one record per id, the record of `rs[i].id` is `rs[i]`. */
  lemma PositionDistinct(rs: seq<PluginRecord>, i: nat)
    requires DistinctKeys(rs, RecordId)
    requires i < |rs|
    ensures Position(rs, rs[i].id) == Some(i)
  {
    var p := Position(rs, rs[i].id);
    if p.value != i {
      assert false;
    }
  }

  /** The invariant the maker keeps: one record per plugin id, and the current
      reference is the placeholder or points at a stored record. */
  predicate Valid(m: Maker)
  {
    && DistinctKeys(m.records, RecordId)
    && (m.currentData.Some? ==> Position(m.records, m.currentData.value).Some?)
  }

  /** The current plugin is the one whose record is referenced. Every step
      keeps this except `add_plugin_iter` on a duplicate, which switches the
      plugin but not the reference. */
  predicate Coherent(m: Maker)
  {
    && m.current.Some? == m.currentData.Some?
    && (m.current.Some? ==> m.current.value.id == m.currentData.value)
  }

  /** Rewrites the record referenced by `cur`; the placeholder takes the write
      without effect. */
  function Patch(rs: seq<PluginRecord>, cur: Option<string>, f: PluginRecord -> PluginRecord): (r: seq<PluginRecord>)
    ensures |r| == |rs|
    ensures forall i :: 0 <= i < |rs| ==>
              r[i] == if cur.Some? && Position(rs, cur.value) == Some(i) then f(rs[i]) else rs[i]
  {
    if cur.None? then rs
    else
      match Position(rs, cur.value)
      case None => rs
      case Some(i) => rs[i := f(rs[i])]
  }

  function MarkPassed(r: PluginRecord): PluginRecord
  {
    r.(passed := true)
  }

  function MarkSkipped(r: PluginRecord): PluginRecord
  {
    r.(skipped := true)
  }

  /** `_add_plugin_data_item`: stores a fresh record for `p`, or raises
      `ValueError` when `p.id` already has one. */
  function AddRecord(rs: seq<PluginRecord>, p: Plugin): (r: Outcome<seq<PluginRecord>>)
    ensures r.Ok() <==> forall i :: 0 <= i < |rs| ==> rs[i].id != p.id
    ensures r.Ok() ==> |r.state| == |rs| + 1 && r.state[..|rs|] == rs && IsFresh(r.state[|rs|], p)
    ensures !r.Ok() ==> r.state == rs && r.fault == Some(DuplicatePlugin(p.id))
    ensures r.Ok() && DistinctKeys(rs, RecordId) ==> DistinctKeys(r.state, RecordId)
  {
    if Position(rs, p.id).Some? then Outcome(rs, Some(DuplicatePlugin(p.id)))
    else
      var s := rs + [NewRecord(p)];
      assert s[..|rs|] == rs;
      Outcome(s, None)
  }

  /** One skipped record per plugin, in order. */
  function SkippedAll(plugins: seq<Plugin>): (r: seq<PluginRecord>)
    ensures |r| == |plugins|
  {
    seq(|plugins|, j requires 0 <= j < |plugins| => MarkSkipped(NewRecord(plugins[j])))
  }

  /** The loop of `reset` over the plugins that do not match the targets:
      one skipped record each, appended in order, until an id repeats. */
  function SkippedRecords(rs: seq<PluginRecord>, plugins: seq<Plugin>): (r: Outcome<seq<PluginRecord>>)
    ensures r.Ok() ==> r.state == rs + SkippedAll(plugins)
    ensures !r.Ok() ==> r.fault.value.DuplicatePlugin?
    decreases |plugins|
  {
    if |plugins| == 0 then
      assert rs + SkippedAll(plugins) == rs;
      Outcome(rs, None)
    else
      match AddRecord(rs, plugins[0])
      case Outcome(s, Some(f)) => Outcome(s, Some(f))
      case Outcome(s, None) =>
        var t := s[|rs| := MarkSkipped(s[|rs|])];
        var rest := SkippedRecords(t, plugins[1..]);
        if rest.Ok() then
          assert t == rs + [MarkSkipped(NewRecord(plugins[0]))] by {
            assert s == rs + [NewRecord(plugins[0])];
          }
          assert SkippedAll(plugins) == [MarkSkipped(NewRecord(plugins[0]))] + SkippedAll(plugins[1..]);
          rest
        else rest
  }

  /** `reset`: no records, the placeholder as current record, no instances
      seen; then one skipped record per plugin that does not match the
      targets. A repeated id among those raises `ValueError` half-way. */
  function Reset(ctx: PublishContext, mismatched: seq<Plugin>): (r: Outcome<Maker>)
    ensures r.state.current.None? && r.state.currentData.None?
    ensures r.state.context == Some(ctx)
    ensures r.state.instancesById == map[]
    ensures r.Ok() ==> |r.state.records| == |mismatched|
    ensures r.Ok() ==> forall j :: 0 <= j < |mismatched| ==> r.state.records[j] == MarkSkipped(NewRecord(mismatched[j]))
  {
    var o := SkippedRecords([], mismatched);
    assert o.Ok() ==> o.state == SkippedAll(mismatched);
    Outcome(Maker(o.state, None, None, map[], Some(ctx)), o.fault)
  }

  /** The mismatched plugins are registered without fault exactly when their
      ids are pairwise different, and the records then keep ids apart. */
  lemma {:induction false} SkippedRecordsOk(rs: seq<PluginRecord>, plugins: seq<Plugin>)
    requires DistinctKeys(rs, RecordId)
    ensures SkippedRecords(rs, plugins).Ok() <==>
              DistinctKeys(plugins, PluginIdOf) && forall i, j :: 0 <= i < |rs| && 0 <= j < |plugins| ==> rs[i].id != plugins[j].id
    ensures SkippedRecords(rs, plugins).Ok() ==> DistinctKeys(SkippedRecords(rs, plugins).state, RecordId)
    decreases |plugins|
  {
    if |plugins| > 0 {
      var p := plugins[0];
      var a := AddRecord(rs, p);
      var tail := plugins[1..];
      assert forall j :: 0 <= j < |tail| ==> tail[j] == plugins[j + 1];
      if a.Ok() {
        var t := a.state[|rs| := MarkSkipped(a.state[|rs|])];
        assert t == rs + [MarkSkipped(NewRecord(p))] by {
          assert a.state == rs + [NewRecord(p)];
        }
        assert DistinctKeys(t, RecordId) by {
          forall i, j | 0 <= i < j < |t| ensures RecordId(t[i]) != RecordId(t[j]) {
            if j == |rs| {
              assert t[i] == rs[i];
            } else {
              assert t[i] == rs[i] && t[j] == rs[j];
            }
          }
        }
        SkippedRecordsOk(t, tail);
        if SkippedRecords(rs, plugins).Ok() {
          forall i, j | 0 <= i < j < |plugins| ensures PluginIdOf(plugins[i]) != PluginIdOf(plugins[j]) {
            assert plugins[j] == tail[j - 1];
            if i == 0 {
              assert t[|rs|].id == p.id;
            } else {
              assert plugins[i] == tail[i - 1];
            }
          }
          forall i, j | 0 <= i < |rs| && 0 <= j < |plugins| ensures rs[i].id != plugins[j].id {
            if j > 0 {
              assert t[i] == rs[i] && plugins[j] == tail[j - 1];
            }
          }
        } else if DistinctKeys(plugins, PluginIdOf) && forall i, j :: 0 <= i < |rs| && 0 <= j < |plugins| ==> rs[i].id != plugins[j].id {
          assert false;
        }
      } else {
        var i :| 0 <= i < |rs| && rs[i].id == p.id;
        assert rs[i].id == plugins[0].id;
      }
    }
  }

  /** `add_plugin_iter`: remembers every instance of the context, marks the
      record being referenced as passed, makes `p` the current plugin and
      stores a fresh record for it. A second record for `p.id` raises
      `ValueError` after the current plugin was already switched, so the
      reference stays on the previous record. */
  function AddPluginIter(m: Maker, p: Plugin, ctx: PublishContext): (r: Outcome<Maker>)
    ensures r.Ok() <==> forall i :: 0 <= i < |m.records| ==> m.records[i].id != p.id
    ensures r.state.current == Some(p) && r.state.context == m.context
    ensures forall x :: x in ctx.instances ==> x.id in r.state.instancesById
    ensures |m.records| <= |r.state.records|
    ensures r.state.records[..|m.records|] == Patch(m.records, m.currentData, MarkPassed)
    ensures r.Ok() ==> |r.state.records| == |m.records| + 1 && IsFresh(r.state.records[|m.records|], p)
    ensures r.Ok() ==> r.state.currentData == Some(p.id)
    ensures !r.Ok() ==> |r.state.records| == |m.records|
    ensures !r.Ok() ==> r.state.currentData == m.currentData && r.fault == Some(DuplicatePlugin(p.id))
  {
    var rs := Patch(m.records, m.currentData, MarkPassed);
    var a := AddRecord(rs, p);
    var base := m.(records := rs, current := Some(p), instancesById := Remember(m.instancesById, ctx.instances));
    if a.Ok() then Outcome(base.(records := a.state, currentData := Some(p.id)), None)
    else
      assert rs[..|m.records|] == rs;
      Outcome(base, a.fault)
  }

  /** Which instance `add_plugin_iter` remembers under each id: the last one
      of the context with that id, and the earlier entry for an id the
      context does not hold. Stated apart from `AddPluginIter` so that the
      generator's proofs, which never look at the instances, do not carry it. */
  lemma AddPluginIterRemembers(m: Maker, p: Plugin, ctx: PublishContext)
    ensures Remembers(m.instancesById, ctx.instances, AddPluginIter(m, p, ctx).state.instancesById)
  {
    assert AddPluginIter(m, p, ctx).state.instancesById == Remember(m.instancesById, ctx.instances);
  }

  /** The loop of `add_plugin_iter` over the context: every instance is stored
      under its id, a later one replacing an earlier one. */
  function Remember(seen: map<string, Instance>, instances: seq<Instance>): (r: map<string, Instance>)
    ensures forall x :: x in instances ==> x.id in r
    ensures forall id :: id in seen ==> id in r
    ensures Remembers(seen, instances, r)
    decreases |instances|
  {
    if |instances| == 0 then seen
    else
      var r := Remember(seen[instances[0].id := instances[0]], instances[1..]);
      RememberStep(seen, instances, r);
      r
  }

  /** Storing the first instance and then the rest remembers them all. */
  lemma RememberStep(seen: map<string, Instance>, instances: seq<Instance>, r: map<string, Instance>)
    requires |instances| > 0
    requires Remembers(seen[instances[0].id := instances[0]], instances[1..], r)
    ensures Remembers(seen, instances, r)
  {
    var x := instances[0];
    var rest := instances[1..];
    assert forall y :: y in instances <==> y == x || y in rest;
    assert RemembersIds(seen, instances, r);
    assert RemembersUntouched(seen, instances, r);
    RememberStepLast(seen[x.id := x], instances, r);
  }

  /** The last instance with each id survives the rest of the loop. */
  lemma RememberStepLast(seen: map<string, Instance>, instances: seq<Instance>, r: map<string, Instance>)
    requires |instances| > 0 && instances[0].id in seen && seen[instances[0].id] == instances[0]
    requires RemembersLast(instances[1..], r) && RemembersUntouched(seen, instances[1..], r)
    ensures RemembersLast(instances, r)
  {
    forall k | 0 <= k < |instances| && LastWithKey(instances, InstanceKey, k)
      ensures instances[k].id in r && r[instances[k].id] == instances[k]
    {
      if k > 0 {
        RememberLater(instances, r, k);
      } else {
        RememberFirst(seen, instances, r);
      }
    }
  }

  /** A first instance that no later one shares its id with stays stored. */
  lemma RememberFirst(seen: map<string, Instance>, instances: seq<Instance>, r: map<string, Instance>)
    requires |instances| > 0 && instances[0].id in seen && seen[instances[0].id] == instances[0]
    requires LastWithKey(instances, InstanceKey, 0) && RemembersUntouched(seen, instances[1..], r)
    ensures instances[0].id in r && r[instances[0].id] == instances[0]
  {
    FirstIsLast(instances);
  }

  /** A later instance that is the last with its id is stored by the rest of the loop. */
  lemma RememberLater(instances: seq<Instance>, r: map<string, Instance>, k: nat)
    requires 0 < k < |instances| && LastWithKey(instances, InstanceKey, k)
    requires RemembersLast(instances[1..], r)
    ensures instances[k].id in r && r[instances[k].id] == instances[k]
  {
    LastInRest(instances, k);
    assert instances[k] == instances[1..][k - 1];
  }

  /** An instance last with its id is still last once the first is dropped. */
  lemma LastInRest(instances: seq<Instance>, k: nat)
    requires 0 < k < |instances| && LastWithKey(instances, InstanceKey, k)
    ensures LastWithKey(instances[1..], InstanceKey, k - 1)
  {
    var rest := instances[1..];
    forall j | k - 1 < j < |rest| ensures InstanceKey(rest[j]) != InstanceKey(rest[k - 1]) {
      assert rest[j] == instances[j + 1];
    }
  }

  /** A first instance that is last with its id has its id to itself. */
  lemma FirstIsLast(instances: seq<Instance>)
    requires |instances| > 0 && LastWithKey(instances, InstanceKey, 0)
    ensures forall y :: y in instances[1..] ==> y.id != instances[0].id
  {
    forall y | y in instances[1..] ensures y.id != instances[0].id {
      var j :| 0 <= j < |instances[1..]| && instances[1..][j] == y;
      assert instances[j + 1] == y;
    }
  }

  function InstanceKey(x: Instance): string
  {
    x.id
  }

  /** `r` is `seen` after storing each of `instances` under its id in turn:
      it holds the ids of both, each instance that is the last with its id is
      the one stored, and an id that no instance has keeps its old entry. */
  predicate Remembers(seen: map<string, Instance>, instances: seq<Instance>, r: map<string, Instance>)
  {
    RemembersIds(seen, instances, r) && RemembersLast(instances, r) && RemembersUntouched(seen, instances, r)
  }

  /** The ids kept are exactly those seen before and those of the instances. */
  predicate RemembersIds(seen: map<string, Instance>, instances: seq<Instance>, r: map<string, Instance>)
  {
    && (forall id :: id in r ==> id in seen || exists x :: x in instances && x.id == id)
    && (forall id :: id in seen ==> id in r)
    && (forall x :: x in instances ==> x.id in r)
  }

  /** Each instance that is the last with its id is the one stored. */
  predicate RemembersLast(instances: seq<Instance>, r: map<string, Instance>)
  {
    forall k {:trigger LastWithKey(instances, InstanceKey, k)} :: 0 <= k < |instances| && LastWithKey(instances, InstanceKey, k) ==>
      instances[k].id in r && r[instances[k].id] == instances[k]
  }

  /** An id that no instance has keeps its old entry. */
  predicate RemembersUntouched(seen: map<string, Instance>, instances: seq<Instance>, r: map<string, Instance>)
  {
    forall id :: id in seen && (forall x :: x in instances ==> x.id != id) ==> id in r && r[id] == seen[id]
  }

  lemma AddPluginIterValid(m: Maker, p: Plugin, ctx: PublishContext)
    requires Valid(m)
    ensures Valid(AddPluginIter(m, p, ctx).state)
    ensures AddPluginIter(m, p, ctx).Ok() ==> Coherent(AddPluginIter(m, p, ctx).state)
  {
    var r := AddPluginIter(m, p, ctx);
    var rs := Patch(m.records, m.currentData, MarkPassed);
    assert DistinctKeys(rs, RecordId) by {
      forall i, j | 0 <= i < j < |rs| ensures RecordId(rs[i]) != RecordId(rs[j]) {
        assert rs[i].id == m.records[i].id && rs[j].id == m.records[j].id;
        assert RecordId(m.records[i]) != RecordId(m.records[j]);
      }
    }
    if r.Ok() {
      assert r.state.records == AddRecord(rs, p).state;
      var n := |m.records|;
      assert r.state.records[n].id == p.id;
    } else {
      assert r.state.records == rs;
      if m.currentData.Some? {
        var k := Position(m.records, m.currentData.value).value;
        assert rs[k].id == m.currentData.value;
      }
    }
  }

  /** `set_plugin_skipped`: marks the referenced record skipped; the
      placeholder takes the write without effect. */
  function SetPluginSkipped(m: Maker): (r: Maker)
    ensures |r.records| == |m.records|
    ensures forall i :: 0 <= i < |m.records| ==>
              r.records[i] == if m.currentData.Some? && Position(m.records, m.currentData.value) == Some(i)
                              then m.records[i].(skipped := true) else m.records[i]
    ensures r.(records := m.records) == m
  {
    m.(records := Patch(m.records, m.currentData, MarkSkipped))
  }

  /** Skipping right after a registration marks the new record, which is the
      one referenced, and no other. */
  lemma SkipRegistered(m: Maker, p: Plugin, ctx: PublishContext)
    requires AddPluginIter(m, p, ctx).Ok()
    ensures var a := AddPluginIter(m, p, ctx).state;
            SetPluginSkipped(a).records == a.records[|m.records| := a.records[|m.records|].(skipped := true)]
  {
    var a := AddPluginIter(m, p, ctx).state;
    RegisteredLast(m, p, ctx);
    assert a.currentData == Some(p.id);
  }

  /** A registered plugin's record is found at the end. */
  lemma RegisteredLast(m: Maker, p: Plugin, ctx: PublishContext)
    requires AddPluginIter(m, p, ctx).Ok()
    ensures Position(AddPluginIter(m, p, ctx).state.records, p.id) == Some(|m.records|)
  {
    var rs := AddPluginIter(m, p, ctx).state.records;
    var n := |m.records|;
    var prefix := Patch(m.records, m.currentData, MarkPassed);
    forall k | 0 <= k < n ensures rs[k].id != p.id {
      assert rs[k] == rs[..n][k] == prefix[k];
    }
    PositionFirst(rs, p.id, n);
  }

  /** `set_plugin_action_items`: replaces the action items of the current record. */
  function SetPluginActionItems(m: Maker, items: seq<ActionItem>): (r: Maker)
    ensures |r.records| == |m.records|
    ensures forall i :: 0 <= i < |m.records| ==>
              r.records[i] == if m.currentData.Some? && Position(m.records, m.currentData.value) == Some(i)
                              then m.records[i].(actionItems := items) else m.records[i]
    ensures r.current == m.current && r.currentData == m.currentData
  {
    m.(records := Patch(m.records, m.currentData, (x: PluginRecord) => x.(actionItems := items)))
  }

  /** The keys of a `pyblish.plugin.process` result that the maker reads;
      the flags are `None` when the controller did not set them. */
  datatype ProcessResult = ProcessResult(
    instanceId: Option<string>,
    isValidationError: Option<bool>,
    isBlocking: Option<bool>)

  /** `add_result`: appends one `instances_data` entry to the current record
      and overwrites its `errored` and `is_blocking` flags with the result's,
      missing keys counting as `False`. The placeholder has no
      `instances_data`, so with no current record it raises `KeyError`. */
  function AddResult(m: Maker, res: ProcessResult): (r: Outcome<Maker>)
    ensures r.Ok() <==> m.currentData.Some?
    ensures !r.Ok() ==> r.state == m && r.fault == Some(LookupFailure)
    ensures |r.state.records| == |m.records|
    ensures r.state.current == m.current && r.state.currentData == m.currentData && r.state.context == m.context
    ensures r.Ok() && Valid(m) ==>
              var k := Position(m.records, m.currentData.value).value;
              && (forall i :: 0 <= i < |m.records| && i != k ==> r.state.records[i] == m.records[i])
              && r.state.records[k].instancesData == m.records[k].instancesData + [InstanceRun(res.instanceId)]
              && r.state.records[k].errored == (res.isValidationError == Some(true))
              && r.state.records[k].isBlocking == (res.isBlocking == Some(true))
              && r.state.records[k].(instancesData := m.records[k].instancesData,
                                     errored := m.records[k].errored,
                                     isBlocking := m.records[k].isBlocking) == m.records[k]
  {
    if m.currentData.None? then Outcome(m, Some(LookupFailure))
    else
      var f := (x: PluginRecord) => x.(instancesData := x.instancesData + [InstanceRun(res.instanceId)],
                                       errored := res.isValidationError.GetOr(false),
                                       isBlocking := res.isBlocking.GetOr(false));
      Outcome(m.(records := Patch(m.records, m.currentData, f)), None)
  }

  /** Flags are overwritten: after two results only the second one counts,
      while both runs stay listed. */
  lemma AddResultOverwrites(m: Maker, a: ProcessResult, b: ProcessResult)
    requires Valid(m) && m.currentData.Some?
    ensures AddResult(m, a).Ok() && Valid(AddResult(m, a).state)
    ensures var m2 := AddResult(AddResult(m, a).state, b).state;
            var k := Position(m.records, m.currentData.value).value;
            && m2.records[k].errored == (b.isValidationError == Some(true))
            && m2.records[k].isBlocking == (b.isBlocking == Some(true))
            && m2.records[k].instancesData == m.records[k].instancesData + [InstanceRun(a.instanceId), InstanceRun(b.instanceId)]
  {
    var m1 := AddResult(m, a).state;
    var k := Position(m.records, m.currentData.value).value;
    assert forall i :: 0 <= i < |m1.records| ==> m1.records[i].id == m.records[i].id;
    assert DistinctKeys(m1.records, RecordId) by {
      forall i, j | 0 <= i < j < |m1.records| ensures RecordId(m1.records[i]) != RecordId(m1.records[j]) {
        assert RecordId(m.records[i]) != RecordId(m.records[j]);
      }
    }
    PositionDistinct(m1.records, k);
  }

  /** `add_action_result`: appends an `actions_data` entry to the record of the
      action's plugin, creating that record when the plugin never ran. The
      entry's label is the action's `label`, or its class name. */
  function AddActionResult(m: Maker, action: Action, plugin: Plugin, success: bool): (r: Maker)
    ensures r.current == m.current && r.currentData == m.currentData && r.context == m.context
    ensures var run := ActionRun(success, action.name, if action.labelText != "" then action.labelText else action.name);
            match Position(m.records, plugin.id)
            case Some(k) =>
              && |r.records| == |m.records|
              && r.records[k] == m.records[k].(actionsData := m.records[k].actionsData + [run])
              && forall i :: 0 <= i < |m.records| && i != k ==> r.records[i] == m.records[i]
            case None =>
              && |r.records| == |m.records| + 1
              && r.records[..|m.records|] == m.records
              && r.records[|m.records|] == NewRecord(plugin).(actionsData := [run])
  {
    var run := ActionRun(success, action.name, if action.labelText != "" then action.labelText else action.name);
    match Position(m.records, plugin.id)
    case Some(k) => m.(records := m.records[k := m.records[k].(actionsData := m.records[k].actionsData + [run])])
    case None =>
      var s := m.records + [NewRecord(plugin).(actionsData := [run])];
      assert s[..|m.records|] == m.records;
      m.(records := s)
  }

  lemma AddActionResultValid(m: Maker, action: Action, plugin: Plugin, success: bool)
    requires Valid(m)
    ensures Valid(AddActionResult(m, action, plugin, success))
    ensures Coherent(m) ==> Coherent(AddActionResult(m, action, plugin, success))
  {
    var r := AddActionResult(m, action, plugin, success);
    assert forall i :: 0 <= i < |m.records| ==> r.records[i].id == m.records[i].id by {
      if Position(m.records, plugin.id).None? {
        assert forall i :: 0 <= i < |m.records| ==> r.records[i] == r.records[..|m.records|][i];
      }
    }
    assert DistinctKeys(r.records, RecordId) by {
      forall i, j | 0 <= i < j < |r.records| ensures RecordId(r.records[i]) != RecordId(r.records[j]) {
        if j < |m.records| {
          assert RecordId(m.records[i]) != RecordId(m.records[j]);
        }
      }
    }
    if m.currentData.Some? {
      var k := Position(m.records, m.currentData.value).value;
      assert r.records[k].id == m.currentData.value;
    }
  }

  /** What the report says about one instance that was seen during the run. */
  datatype InstanceDetails = InstanceDetails(
    name: string,
    labelText: string,
    family: Option<string>,
    families: seq<string>,
    inContext: bool)

  /** The report of `get_report`, without its uuid, timestamp and discovery
      crash tracebacks. */
  datatype Snapshot = Snapshot(
    pluginsData: seq<PluginRecord>,
    instances: map<string, InstanceDetails>,
    contextLabel: Option<string>,
    reportVersion: string)

  const ReportVersion: string := "1.0.1"

  /** The records of the plugins in `plugins` that have none yet, as
      `get_report` fills them in: a plugin listed twice gets one record. */
  function Defaults(rs: seq<PluginRecord>, plugins: seq<Plugin>): seq<PluginRecord>
    decreases |plugins|
  {
    if |plugins| == 0 then []
    else
      var added := if Position(rs, plugins[0].id).Some? then [] else [NewRecord(plugins[0])];
      added + Defaults(rs + added, plugins[1..])
  }

  /** A record found in a prefix is found at the same place in the whole. */
  lemma {:induction false} PositionExtend(rs: seq<PluginRecord>, more: seq<PluginRecord>, id: string)
    requires Position(rs, id).Some?
    ensures Position(rs + more, id) == Position(rs, id)
    decreases |rs|
  {
    if rs[0].id != id {
      assert (rs + more)[1..] == rs[1..] + more;
      PositionExtend(rs[1..], more, id);
    }
  }

  /** `Position` finds the first record with the id. */
  lemma {:induction false} PositionFirst(rs: seq<PluginRecord>, id: string, k: nat)
    requires k < |rs| && rs[k].id == id
    ensures Position(rs, id).Some? && Position(rs, id).value <= k
    decreases |rs|
  {
    if rs[0].id != id {
      assert rs[1..][k - 1] == rs[k];
      PositionFirst(rs[1..], id, k - 1);
    }
  }

  /** Every listed plugin has a record once the defaults are added. */
  lemma {:induction false} DefaultsCover(rs: seq<PluginRecord>, plugins: seq<Plugin>)
    ensures forall p :: p in plugins ==> Position(rs + Defaults(rs, plugins), p.id).Some?
    decreases |plugins|
  {
    if |plugins| > 0 {
      var p := plugins[0];
      var added := if Position(rs, p.id).Some? then [] else [NewRecord(p)];
      var rest := Defaults(rs + added, plugins[1..]);
      DefaultsCover(rs + added, plugins[1..]);
      assert rs + Defaults(rs, plugins) == (rs + added) + rest;
      if added == [] {
        assert rs + added == rs;
      } else {
        PositionFirst(rs + added, p.id, |rs|);
      }
      PositionExtend(rs + added, rest, p.id);
      assert forall q :: q in plugins ==> q == p || q in plugins[1..];
    }
  }

  /** The defaults are fresh records of listed plugins. */
  lemma {:induction false} DefaultsFresh(rs: seq<PluginRecord>, plugins: seq<Plugin>)
    ensures forall j :: 0 <= j < |Defaults(rs, plugins)| ==> exists p :: p in plugins && Defaults(rs, plugins)[j] == NewRecord(p)
    decreases |plugins|
  {
    if |plugins| > 0 {
      var added := if Position(rs, plugins[0].id).Some? then [] else [NewRecord(plugins[0])];
      DefaultsFresh(rs + added, plugins[1..]);
      var d := Defaults(rs, plugins);
      assert d == added + Defaults(rs + added, plugins[1..]);
      assert forall q :: q in plugins[1..] ==> q in plugins;
      forall j | 0 <= j < |d| ensures exists p :: p in plugins && d[j] == NewRecord(p) {
        if j < |added| {
          assert d[j] == NewRecord(plugins[0]) && plugins[0] in plugins;
        } else {
          var rest := Defaults(rs + added, plugins[1..]);
          assert d[j] == rest[j - |added|];
          var p :| p in plugins[1..] && rest[j - |added|] == NewRecord(p);
          assert p in plugins;
        }
      }
    } else {
      assert Defaults(rs, plugins) == [];
    }
  }

  /** Adding the defaults keeps one record per id. */
  lemma {:induction false} DefaultsDistinct(rs: seq<PluginRecord>, plugins: seq<Plugin>)
    requires DistinctKeys(rs, RecordId)
    ensures DistinctKeys(rs + Defaults(rs, plugins), RecordId)
    decreases |plugins|
  {
    if |plugins| > 0 {
      var p := plugins[0];
      var added := if Position(rs, p.id).Some? then [] else [NewRecord(p)];
      assert DistinctKeys(rs + added, RecordId) by {
        forall i, j | 0 <= i < j < |rs + added| ensures RecordId((rs + added)[i]) != RecordId((rs + added)[j]) {
          if j < |rs| {
            assert (rs + added)[i] == rs[i] && (rs + added)[j] == rs[j];
          } else {
            assert (rs + added)[i] == rs[i];
          }
        }
      }
      DefaultsDistinct(rs + added, plugins[1..]);
      assert rs + Defaults(rs, plugins) == (rs + added) + Defaults(rs + added, plugins[1..]);
    }
  }

  /** `get_report`: a copy of the records in which the current plugin's record
      is passed, followed by default records for the listed plugins that never
      got one; the details of every instance seen, with whether it is still in
      the context; and the context's label ("Context" before the first reset).
      It is a function of the maker, so the live records stay as they were.
      Instances are only recorded after a reset: before one the source's
      membership test on a missing context raises `TypeError`. */
  function GetReport(m: Maker, publishPlugins: seq<Plugin>): (r: Snapshot)
    requires m.context.None? ==> m.instancesById == map[]
    ensures |m.records| <= |r.pluginsData|
    ensures forall i :: 0 <= i < |m.records| ==>
              && r.pluginsData[i].(passed := m.records[i].passed) == m.records[i]
              && r.pluginsData[i].passed == (m.records[i].passed || (m.current.Some? && m.current.value.id == m.records[i].id
                                                                    && Position(m.records, m.current.value.id) == Some(i)))
    ensures r.instances.Keys == m.instancesById.Keys
    ensures forall id :: id in m.instancesById ==>
              r.instances[id].inContext == (m.context.Some? && m.instancesById[id] in m.context.value.instances)
    ensures r.contextLabel == if m.context.None? then Some("Context") else m.context.value.labelText
    ensures r.reportVersion == ReportVersion
  {
    Snapshot(SnapshotRecords(m, publishPlugins), InstancesDetails(m),
             if m.context.None? then Some("Context") else m.context.value.labelText, ReportVersion)
  }

  /** The copy of the records that `get_report` makes, with the current
      plugin's record marked passed. */
  function CopyMarked(m: Maker): (r: seq<PluginRecord>)
    ensures |r| == |m.records|
    ensures forall i :: 0 <= i < |m.records| ==>
              && r[i].(passed := m.records[i].passed) == m.records[i]
              && r[i].passed == (m.records[i].passed || (m.current.Some? && m.current.value.id == m.records[i].id
                                                        && Position(m.records, m.current.value.id) == Some(i)))
  {
    Patch(m.records, if m.current.Some? then Some(m.current.value.id) else None, MarkPassed)
  }

  /** The plugin records of `get_report`. */
  function SnapshotRecords(m: Maker, publishPlugins: seq<Plugin>): (r: seq<PluginRecord>)
    ensures |m.records| <= |r| && r[..|m.records|] == CopyMarked(m)
  {
    var copied := CopyMarked(m);
    assert (copied + Defaults(copied, publishPlugins))[..|copied|] == copied;
    copied + Defaults(copied, publishPlugins)
  }

  /** Every plugin the caller lists has a record in the snapshot, and the
      records past the stored ones are fresh records of listed plugins. */
  lemma SnapshotCoversListed(m: Maker, publishPlugins: seq<Plugin>)
    requires m.context.None? ==> m.instancesById == map[]
    ensures forall p :: p in publishPlugins ==> Position(GetReport(m, publishPlugins).pluginsData, p.id).Some?
    ensures forall j :: |m.records| <= j < |GetReport(m, publishPlugins).pluginsData| ==>
              exists p :: p in publishPlugins && GetReport(m, publishPlugins).pluginsData[j] == NewRecord(p)
  {
    assert GetReport(m, publishPlugins).pluginsData == SnapshotRecords(m, publishPlugins);
    SnapshotRecordsCover(m, publishPlugins);
  }

  lemma SnapshotRecordsCover(m: Maker, publishPlugins: seq<Plugin>)
    ensures forall p :: p in publishPlugins ==> Position(SnapshotRecords(m, publishPlugins), p.id).Some?
    ensures forall j :: |m.records| <= j < |SnapshotRecords(m, publishPlugins)| ==>
              exists p :: p in publishPlugins && SnapshotRecords(m, publishPlugins)[j] == NewRecord(p)
  {
    var copied := CopyMarked(m);
    assert SnapshotRecords(m, publishPlugins) == copied + Defaults(copied, publishPlugins);
    DefaultsAppended(copied, publishPlugins);
  }

  /** The records with the defaults appended cover every listed plugin, and
      what was appended are fresh records of listed plugins. */
  lemma DefaultsAppended(rs: seq<PluginRecord>, plugins: seq<Plugin>)
    ensures forall p :: p in plugins ==> Position(rs + Defaults(rs, plugins), p.id).Some?
    ensures forall j :: |rs| <= j < |rs + Defaults(rs, plugins)| ==>
              exists p :: p in plugins && (rs + Defaults(rs, plugins))[j] == NewRecord(p)
  {
    var extra := Defaults(rs, plugins);
    DefaultsCover(rs, plugins);
    DefaultsFresh(rs, plugins);
    forall j | |rs| <= j < |rs + extra| ensures exists p :: p in plugins && (rs + extra)[j] == NewRecord(p) {
      assert (rs + extra)[j] == extra[j - |rs|];
    }
  }

  /** The snapshot keeps one record per plugin id. */
  lemma SnapshotDistinct(m: Maker, publishPlugins: seq<Plugin>)
    requires m.context.None? ==> m.instancesById == map[]
    requires Valid(m)
    ensures DistinctKeys(GetReport(m, publishPlugins).pluginsData, RecordId)
  {
    var copied := CopyMarked(m);
    assert GetReport(m, publishPlugins).pluginsData == copied + Defaults(copied, publishPlugins);
    forall i, j | 0 <= i < j < |copied| ensures RecordId(copied[i]) != RecordId(copied[j]) {
      assert RecordId(m.records[i]) != RecordId(m.records[j]);
    }
    DefaultsDistinct(copied, publishPlugins);
  }

  /** The instance details of `get_report`: one entry per instance seen, with
      whether it is still part of the context. */
  function InstancesDetails(m: Maker): (r: map<string, InstanceDetails>)
    requires m.context.None? ==> m.instancesById == map[]
    ensures r.Keys == m.instancesById.Keys
    ensures forall id :: id in m.instancesById ==>
              && r[id].inContext == (m.context.Some? && m.instancesById[id] in m.context.value.instances)
              && r[id].labelText == InstanceLabel(m.instancesById[id])
  {
    map id | id in m.instancesById ::
      var x := m.instancesById[id];
      InstanceDetails(x.name, InstanceLabel(x), if x.family != "" then Some(x.family) else None, x.families,
                      m.context.Some? && x in m.context.value.instances)
  }

  /** While the current plugin and the referenced record agree, a snapshot
      shows every stored record exactly as the next `add_plugin_iter` would
      leave it. */
  lemma SnapshotAnticipatesNextPlugin(m: Maker, publishPlugins: seq<Plugin>, p: Plugin, ctx: PublishContext)
    requires m.context.None? ==> m.instancesById == map[]
    requires Valid(m) && Coherent(m)
    ensures forall i :: 0 <= i < |m.records| ==>
              GetReport(m, publishPlugins).pluginsData[i] == AddPluginIter(m, p, ctx).state.records[i]
  {
  }

  /** After a duplicate registration the two disagree: the snapshot marks the
      duplicate's earlier record passed, while the reference (and so the next
      `add_plugin_iter`) stays on the placeholder. */
  lemma DuplicateSnapshotExample()
    ensures var a := Plugin("a", "A", "", 0.0, [], true, false, false, true, [], []);
            var b := Plugin("b", "B", "", 1.0, [], true, false, false, true, [], []);
            var ctx := PublishContext(None, []);
            var m := AddPluginIter(Reset(ctx, [a]).state, a, ctx);
            && !m.Ok()
            && m.state.currentData.None?
            && GetReport(m.state, []).pluginsData[0].passed
            && !AddPluginIter(m.state, b, ctx).state.records[0].passed
  {
    var a := Plugin("a", "A", "", 0.0, [], true, false, false, true, [], []);
    var ctx := PublishContext(None, []);
    var m0 := Reset(ctx, [a]).state;
    assert m0.records == [MarkSkipped(NewRecord(a))];
  }

  /** In general: whenever the current plugin has a record that the reference
      does not point at, the snapshot marks that record passed while the next
      `add_plugin_iter` leaves it as it is. */
  lemma IncoherentSnapshotDiffers(m: Maker, publishPlugins: seq<Plugin>, p: Plugin, ctx: PublishContext, k: nat)
    requires m.context.None? ==> m.instancesById == map[]
    requires Valid(m) && m.current.Some? && m.currentData != Some(m.current.value.id)
    requires Position(m.records, m.current.value.id) == Some(k) && !m.records[k].passed
    ensures GetReport(m, publishPlugins).pluginsData[k].passed
    ensures !AddPluginIter(m, p, ctx).state.records[k].passed
  {
    if m.currentData.Some? {
      var j := Position(m.records, m.currentData.value).value;
      assert m.records[j].id != m.records[k].id;
    }
  }
}
