/** What a publish run promises, stated against independent definitions:
    the units the generator hands out, the validation latch, why a run
    pauses, and what the override for non-blocking errors guarantees. */
module PublisherTheorems {
  import opened Base
  import opened Plugins
  import opened PluginsProxy
  import opened ReportMaker
  import opened ValidationErrors
  import opened Publisher

  // ---------------------------------------------------------------------
  // The units of a run

  /** The units of an instance plugin: one per instance whose "publish" is
      not `False`, in the order pyblish returned them. */
  function PublishedUnits(p: Plugin, xs: seq<Instance>): seq<Item>
    decreases |xs|
  {
    if |xs| == 0 then []
    else (if IsPublished(xs[0]) then [ProcessItem(p, Some(xs[0]))] else []) + PublishedUnits(p, xs[1..])
  }

  /** The units plugin `i` contributes: none when inactive; its instances for
      an instance plugin; the context once for a context plugin whose families
      match the active instances. */
  function PluginUnits(env: Env, i: nat): seq<Item>
    requires i < |env.plugins|
  {
    var p := env.plugins[i];
    if !IsPublishPluginActive(p) then []
    else if p.instanceEnabled then PublishedUnits(p, env.instancesByPlugin(p))
    else if env.matchesFamilies(p, CollectFamilies(env.context.instances, true)) then [ProcessItem(p, None)]
    else []
  }

  /** The units of plugins `i` onwards, plugin by plugin. */
  function UnitsFrom(env: Env, i: nat): seq<Item>
    decreases |env.plugins| - i
  {
    if i >= |env.plugins| then [] else PluginUnits(env, i) + UnitsFrom(env, i + 1)
  }

  /** The units the generator still owes from cursor `c`. */
  function Units(env: Env, c: Cursor): seq<Item>
  {
    match c
    case At(i, Instances(xs)) =>
      if i < |env.plugins| then PublishedUnits(env.plugins[i], xs) + UnitsFrom(env, i + 1) else []
    case At(i, _) => UnitsFrom(env, i)
    case _ => []
  }

  function Yielded(item: Option<Item>): seq<Item>
  {
    if item.Some? && item.value.ProcessItem? then [item.value] else []
  }

  /** One step of the generator hands out the next owed unit, or none. */
  lemma AdvanceUnits(env: Env, s: State, c: Cursor)
    requires c.At?
    ensures var r := Advance(env, s, c);
            r.fault.None? ==> Units(env, c) == Yielded(r.item) + Units(env, r.cursor)
  {
    var i := c.index;
    if i < |env.plugins| {
      match c.phase
      case Enter =>
      case AfterValidateStop =>
      case AfterErrorStop =>
        EnterPluginUnits(env, s, i);
      case Instances(xs) =>
        InstanceUnits(env, s, i, xs);
    }
  }

  /** Entering a plugin owes its units: all of them are still to come, or the
      context unit is handed out right away. */
  lemma EnterPluginUnits(env: Env, s: State, i: nat)
    requires i < |env.plugins|
    ensures var r := EnterPlugin(env, s, i);
            r.fault.None? ==> PluginUnits(env, i) + UnitsFrom(env, i + 1) == Yielded(r.item) + Units(env, r.cursor)
  {
    var p := env.plugins[i];
    var r := EnterPlugin(env, s, i);
    if r.fault.None? {
      assert AddPluginIter(s.report, p, env.context).Ok();
      if !IsPublishPluginActive(p) {
        assert r.cursor == At(i + 1, Enter) && r.item.None?;
      } else if p.instanceEnabled {
        var xs := env.instancesByPlugin(p);
        if |xs| == 0 {
          assert r.cursor == At(i + 1, Enter) && r.item.None?;
        } else {
          assert r.cursor == At(i, Instances(xs)) && r.item.None?;
        }
      } else if env.matchesFamilies(p, CollectFamilies(env.context.instances, true)) {
        assert r.cursor == At(i + 1, Enter) && r.item == Some(ProcessItem(p, None));
      } else {
        assert r.cursor == At(i + 1, Enter) && r.item.None?;
      }
    }
  }

  /** The loop over instances hands out the next published instance. */
  lemma InstanceUnits(env: Env, s: State, i: nat, xs: seq<Instance>)
    requires i < |env.plugins|
    ensures var r := Advance(env, s, At(i, Instances(xs)));
            Units(env, At(i, Instances(xs))) == Yielded(r.item) + Units(env, r.cursor)
  {
    var r := Advance(env, s, At(i, Instances(xs)));
    var p := env.plugins[i];
    if |xs| == 0 {
      assert r.cursor == At(i + 1, Enter) && r.item.None?;
    } else {
      assert r.cursor == At(i, Instances(xs[1..]));
      var head := if IsPublished(xs[0]) then [ProcessItem(p, Some(xs[0]))] else [];
      assert Yielded(r.item) == head;
      assert PublishedUnits(p, xs) == head + PublishedUnits(p, xs[1..]);
    }
  }

  /** Every `next()` on the generator hands out exactly the next owed unit
      (or a stop item, which owes nothing), so over a run the units come out
      in plugin order, each plugin's instances in pyblish's order, and none
      is handed out twice. */
  lemma {:induction false} NextUnits(env: Env, s: State, c: Cursor)
    requires c.At?
    ensures var r := Next(env, s, c);
            r.fault.None? ==> Units(env, c) == Yielded(r.item) + Units(env, r.cursor)
    decreases Outer(env, c), PhaseRank(c), Pending(c)
  {
    var st := Advance(env, s, c);
    AdvanceUnits(env, s, c);
    if st.item.None? && st.fault.None? {
      NextUnits(env, st.state, st.cursor);
    }
  }

  /** A run owes nothing once its generator has ended. */
  lemma DoneOwesNothing(env: Env)
    ensures Units(env, Done) == [] && Units(env, Broken) == []
  {
  }

  /** A stop item does not consume a unit: the next `next()` continues with
      the same owed units. */
  lemma StopKeepsUnits(env: Env, s: State, c: Cursor)
    requires c.At?
    ensures var r := Next(env, s, c);
            r.item == Some(StopItem) ==> Units(env, r.cursor) == Units(env, c)
  {
    NextUnits(env, s, c);
  }

  // ---------------------------------------------------------------------
  // The validation latch

  /** Some plugin among the first `n` is at or above the validation order. */
  function ValidatedUpTo(env: Env, n: nat): bool
    decreases n
  {
    if n == 0 || |env.plugins| == 0 then false
    else if n > |env.plugins| then ValidatedUpTo(env, |env.plugins|)
    else ValidatedUpTo(env, n - 1) || env.plugins[n - 1].order >= ValidationOrder
  }

  lemma {:induction false} ValidatedUpToMeans(env: Env, n: nat)
    requires n <= |env.plugins|
    ensures ValidatedUpTo(env, n) <==> exists j :: 0 <= j < n && env.plugins[j].order >= ValidationOrder
    decreases n
  {
    if n > 0 {
      ValidatedUpToMeans(env, n - 1);
      if ValidatedUpTo(env, n - 1) {
        var j :| 0 <= j < n - 1 && env.plugins[j].order >= ValidationOrder;
        assert 0 <= j < n;
      }
    }
  }

  /** How many plugins the generator has started at cursor `c`. */
  function Seen(env: Env, c: Cursor): nat
  {
    match c
    case At(i, Enter) => if i <= |env.plugins| then i else |env.plugins|
    case At(i, _) => if i < |env.plugins| then i + 1 else |env.plugins|
    case _ => |env.plugins|
  }

  /** `publish_has_validated` says whether a started plugin has reached the
      validation order; the generator only ever sets it. */
  predicate Latch(env: Env, s: State, c: Cursor)
  {
    c != Broken ==> s.props.flags.hasValidated == ValidatedUpTo(env, Seen(env, c))
  }

  lemma AdvanceLatch(env: Env, s: State, c: Cursor)
    requires c.At? && Latch(env, s, c)
    ensures var r := Advance(env, s, c); Latch(env, r.state, r.cursor)
  {
    var r := Advance(env, s, c);
    var i := c.index;
    if i < |env.plugins| {
      match c.phase
      case Enter =>
        assert Seen(env, r.cursor) == i + 1;
      case AfterValidateStop =>
      case AfterErrorStop =>
        EnterPluginLatch(env, s, i);
      case Instances(xs) =>
        if |xs| == 0 {
          assert Seen(env, r.cursor) == i + 1;
        }
    }
  }

  /** Entering plugin `i` leaves its flags alone and moves the generator on
      within the plugins already started, or to the next one when it skips. */
  lemma EnterPluginLatch(env: Env, s: State, i: nat)
    requires i < |env.plugins| && Latch(env, s, At(i, AfterErrorStop))
    ensures var r := EnterPlugin(env, s, i); Latch(env, r.state, r.cursor)
  {
    var r := EnterPlugin(env, s, i);
    assert r.cursor != Broken ==> Seen(env, r.cursor) == i + 1;
    LatchMoves(env, s, At(i, AfterErrorStop), r.state, r.cursor);
  }

  /** The latch survives a step that keeps the flags and the number of
      plugins started. */
  lemma LatchMoves(env: Env, s: State, c: Cursor, t: State, d: Cursor)
    requires Latch(env, s, c) && c != Broken && t.props.flags == s.props.flags
    requires d != Broken ==> Seen(env, d) == Seen(env, c)
    ensures Latch(env, t, d)
  {
  }

  lemma {:induction false} NextLatch(env: Env, s: State, c: Cursor)
    requires c.At? && Latch(env, s, c)
    ensures var r := Next(env, s, c); Latch(env, r.state, r.cursor)
    decreases Outer(env, c), PhaseRank(c), Pending(c)
  {
    var st := Advance(env, s, c);
    AdvanceLatch(env, s, c);
    if st.item.None? && st.fault.None? {
      NextLatch(env, st.state, st.cursor);
    }
  }

  /** The latch of a state, read at its own generator. */
  predicate LatchOf(env: Env, s: State)
  {
    s.cursor.Some? ==> Latch(env, s, s.cursor.value)
  }

  /** A publish run keeps the latch: `publish_has_validated` stays true
      exactly from the first plugin at the validation order onwards. */
  lemma {:induction false} PublishNextProcessLatch(env: Env, s: State)
    requires LatchOf(env, s)
    ensures LatchOf(env, PublishNextProcess(env, s).state)
    decreases Rank1(env, s.cursor), Rank2(s.cursor), Rank3(s.cursor), 0
  {
    if !(ShouldStop(env, s) || s.props.flags.hasCrashed) && s.cursor.Some? {
      var st := Next(env, s, s.cursor.value);
      if s.cursor.value.At? {
        NextLatch(env, s, s.cursor.value);
      }
      var s1 := st.state.(cursor := Some(st.cursor));
      if st.fault.None? && st.item.value.ProcessItem? {
        ProcessAndContinueLatch(env, s1, st.item.value.plugin, st.item.value.instance);
      }
    }
  }

  lemma {:induction false} ProcessAndContinueLatch(env: Env, s: State, plugin: Plugin, instance: Option<Instance>)
    requires LatchOf(env, s)
    ensures LatchOf(env, ProcessAndContinue(env, s, plugin, instance).state)
    decreases Rank1(env, s.cursor), Rank2(s.cursor), Rank3(s.cursor), 1
  {
    var u := RunUnit(env, s, plugin, instance);
    if u.fault.None? {
      PublishNextProcessLatch(env, u.state);
    }
  }

  /** A reset starts the latch at a generator that has seen nothing. */
  lemma ResetLatch(env: Env, s: State)
    ensures LatchOf(env, ResetPublish(env, s).state)
  {
  }

  /** Starting or resuming a publish keeps the latch. */
  lemma StartPublishLatch(env: Env, s: State)
    requires LatchOf(env, s)
    ensures LatchOf(env, StartPublish(env, s).state)
  {
    if !s.props.flags.isRunning {
      var q := SetFlag(SetFlag(s.props, IsRunning, true), HasStarted, true);
      PublishNextProcessLatch(env, s.(props := Log(q, "publish.process.started", NoPayload)));
    }
  }

  /** Whatever the buttons do after a reset, validation is reported passed
      exactly once a plugin at the validation order has been started. */
  lemma ButtonsLatch(env: Env, s: State)
    requires LatchOf(env, s)
    ensures LatchOf(env, Publish(env, s).state)
    ensures LatchOf(env, Validate(env, s).state)
  {
    StartPublishLatch(env, s.(button := Some(PublishButton), upValidation := false));
    StartPublishLatch(env, s.(button := Some(ValidateButton), upValidation := true));
  }

  // ---------------------------------------------------------------------
  // Why a run pauses

  /** A returned publish is never running, and it stopped for a reason: errors
      forbid going on, it crashed, it was only validating and validation
      passed, or every plugin was handed out. */
  predicate Paused(env: Env, s: State)
  {
    && !s.props.flags.isRunning
    && (|| ShouldStop(env, s)
        || s.props.flags.hasCrashed
        || (s.upValidation && s.props.flags.hasValidated)
        || s.props.flags.hasFinished)
  }

  /** A stop item is only yielded for one of those reasons. */
  lemma AdvanceStopReason(env: Env, s: State, c: Cursor)
    requires c.At?
    ensures var r := Advance(env, s, c);
            r.item == Some(StopItem) ==>
              || ShouldStop(env, r.state)
              || (r.state.upValidation && r.state.props.flags.hasValidated)
              || r.state.props.flags.hasFinished
  {
  }

  lemma {:induction false} NextStopReason(env: Env, s: State, c: Cursor)
    requires c.At?
    ensures var r := Next(env, s, c);
            r.item == Some(StopItem) ==>
              || ShouldStop(env, r.state)
              || (r.state.upValidation && r.state.props.flags.hasValidated)
              || r.state.props.flags.hasFinished
    decreases Outer(env, c), PhaseRank(c), Pending(c)
  {
    var st := Advance(env, s, c);
    AdvanceStopReason(env, s, c);
    if st.item.None? && st.fault.None? {
      NextStopReason(env, st.state, st.cursor);
    }
  }

  /** `stop_publish` keeps every reason to stop. */
  lemma StopKeepsReasons(env: Env, s: State)
    ensures var r := StopPublish(s);
            && !r.props.flags.isRunning
            && (ShouldStop(env, r) <==> ShouldStop(env, s))
            && r.props.flags.hasCrashed == s.props.flags.hasCrashed
            && r.props.flags.hasFinished == s.props.flags.hasFinished
            && r.props.flags.hasValidated == s.props.flags.hasValidated
            && r.upValidation == s.upValidation
  {
  }

  /** One call of `_publish_next_process` returns either with a fault or with
      the publish paused for a reason, and it never changes whether the run is
      only validating. */
  lemma {:induction false} PublishNextProcessPauses(env: Env, s: State)
    ensures var r := PublishNextProcess(env, s);
            && r.state.upValidation == s.upValidation
            && (r.Ok() ==> Paused(env, r.state))
    decreases Rank1(env, s.cursor), Rank2(s.cursor), Rank3(s.cursor), 0
  {
    StopKeepsReasons(env, s);
    if !(ShouldStop(env, s) || s.props.flags.hasCrashed) && s.cursor.Some? {
      var st := Next(env, s, s.cursor.value);
      if s.cursor.value.At? {
        NextStopReason(env, s, s.cursor.value);
      }
      var s1 := st.state.(cursor := Some(st.cursor));
      StopKeepsReasons(env, s1);
      if st.fault.None? && st.item.value.ProcessItem? {
        ProcessAndContinuePauses(env, s1, st.item.value.plugin, st.item.value.instance);
      }
    }
  }

  lemma {:induction false} ProcessAndContinuePauses(env: Env, s: State, plugin: Plugin, instance: Option<Instance>)
    ensures var r := ProcessAndContinue(env, s, plugin, instance);
            && r.state.upValidation == s.upValidation
            && (r.Ok() ==> Paused(env, r.state))
    decreases Rank1(env, s.cursor), Rank2(s.cursor), Rank3(s.cursor), 1
  {
    var u := RunUnit(env, s, plugin, instance);
    if u.fault.None? {
      PublishNextProcessPauses(env, u.state);
    }
  }

  /** `publish` returns with the run paused (or untouched when it was already
      running). */
  lemma PublishPauses(env: Env, s: State)
    requires !s.props.flags.isRunning
    ensures var r := Publish(env, s); r.Ok() ==> Paused(env, r.state)
  {
    var p := s.(button := Some(PublishButton), upValidation := false);
    var q := SetFlag(SetFlag(p.props, IsRunning, true), HasStarted, true);
    PublishNextProcessPauses(env, p.(props := Log(q, "publish.process.started", NoPayload)));
  }

  /** `validate` stops no later than validation: a validate that returns
      without a fault, without a crash, without errors that forbid going on
      and before the end has passed validation. */
  lemma ValidateStopsAtValidation(env: Env, s: State)
    requires !s.props.flags.isRunning
    ensures var r := Validate(env, s);
            (r.Ok() && !r.state.props.flags.hasCrashed && !ShouldStop(env, r.state) && !r.state.props.flags.hasFinished)
              ==> r.state.props.flags.hasValidated
  {
    var v := s.(button := Some(ValidateButton), upValidation := true);
    if !v.props.flags.hasValidated {
      var q := SetFlag(SetFlag(v.props, IsRunning, true), HasStarted, true);
      PublishNextProcessPauses(env, v.(props := Log(q, "publish.process.started", NoPayload)));
    }
  }

  // ---------------------------------------------------------------------
  // Ignoring non-blocking errors

  /** Every recorded validation error is blocking. */
  predicate OnlyBlocking(s: State)
  {
    s.props.flags.hasValidationErrors ==> s.props.flags.hasBlockingErrors
  }

  /** With the override on, processing a unit never records a non-blocking
      error. */
  lemma RunUnitOnlyBlocking(env: Env, s: State, plugin: Plugin, instance: Option<Instance>)
    requires s.ignoreNonBlocking && OnlyBlocking(s)
    ensures OnlyBlocking(RunUnit(env, s, plugin, instance).state)
  {
    if s.proxy.Some? {
      var exc := env.process(plugin, instance);
      var q := SetPluginActions(s.proxy.value, plugin.id, exc);
      if q.Some? {
        HandleOnlyBlocking(s.(proxy := q), q.value, plugin, instance, exc);
      }
    }
  }

  /** With the override on, a non-blocking validation error is dropped, and a
      blocking one raises both error flags. */
  lemma HandleOnlyBlocking(s: State, proxy: ValidProxy, plugin: Plugin, instance: Option<Instance>, exc: Exc)
    requires s.ignoreNonBlocking && OnlyBlocking(s)
    ensures OnlyBlocking(HandleException(s, proxy, plugin, instance, exc).state)
  {
  }

  /** A run started with the override on records only blocking errors until
      it pauses, when the override is switched off again. */
  lemma {:induction false} PublishNextProcessOnlyBlocking(env: Env, s: State)
    requires s.ignoreNonBlocking && OnlyBlocking(s)
    ensures OnlyBlocking(PublishNextProcess(env, s).state)
    decreases Rank1(env, s.cursor), Rank2(s.cursor), Rank3(s.cursor), 0
  {
    if !(ShouldStop(env, s) || s.props.flags.hasCrashed) && s.cursor.Some? {
      var st := Next(env, s, s.cursor.value);
      var s1 := st.state.(cursor := Some(st.cursor));
      if st.fault.None? && st.item.value.ProcessItem? {
        ProcessAndContinueOnlyBlocking(env, s1, st.item.value.plugin, st.item.value.instance);
      }
    }
  }

  lemma {:induction false} ProcessAndContinueOnlyBlocking(env: Env, s: State, plugin: Plugin, instance: Option<Instance>)
    requires s.ignoreNonBlocking && OnlyBlocking(s)
    ensures OnlyBlocking(ProcessAndContinue(env, s, plugin, instance).state)
    decreases Rank1(env, s.cursor), Rank2(s.cursor), Rank3(s.cursor), 1
  {
    var u := RunUnit(env, s, plugin, instance);
    RunUnitOnlyBlocking(env, s, plugin, instance);
    if u.fault.None? {
      PublishNextProcessOnlyBlocking(env, u.state);
    }
  }

  /** Starting a publish with the override on records only blocking errors. */
  lemma StartPublishOnlyBlocking(env: Env, s: State)
    requires s.ignoreNonBlocking && OnlyBlocking(s)
    ensures OnlyBlocking(StartPublish(env, s).state)
  {
    if !s.props.flags.isRunning {
      var q := SetFlag(SetFlag(s.props, IsRunning, true), HasStarted, true);
      PublishNextProcessOnlyBlocking(env, s.(props := Log(q, "publish.process.started", NoPayload)));
    }
  }

  /** `ignore_non_blocking_errors` resets and reruns the last button; the rerun
      records only blocking errors. Because the reset clears
      `publish_is_running`, the rerun always happens. */
  lemma IgnoreRecordsOnlyBlocking(env: Env, s: State)
    ensures OnlyBlocking(IgnoreNonBlockingErrors(env, s).state)
    ensures !ResetPublish(env, s.(ignoreNonBlocking := true)).state.props.flags.isRunning
  {
    var rs := ResetPublish(env, s.(ignoreNonBlocking := true));
    var t := rs.state;
    assert t.ignoreNonBlocking && OnlyBlocking(t) && !t.props.flags.isRunning && !t.props.flags.hasValidated;
    if rs.Ok() && t.button.Some? {
      if t.button.value == PublishButton {
        StartPublishOnlyBlocking(env, t.(button := Some(PublishButton), upValidation := false));
        assert IgnoreNonBlockingErrors(env, s) == Publish(env, t);
      } else {
        StartPublishOnlyBlocking(env, t.(button := Some(ValidateButton), upValidation := true));
        assert IgnoreNonBlockingErrors(env, s) == Validate(env, t);
      }
    }
  }

  // ---------------------------------------------------------------------
  // The error list's proxy

  /** When the very first reset raises, the error list was never given a
      proxy, so the next validation error the controller records raises on
      the list's plugin-id lookup and stores nothing. */
  lemma FirstResetFailureLeavesNoProxy(env: Env, proxy: ValidProxy, plugin: Plugin, error: ValidationException, instance: Option<Instance>)
    requires !Reset(env.context, env.mismatched).Ok()
    ensures var t := ResetPublish(env, InitialState).state;
            && t.errors.proxy.Unset?
            && var a := AddValidationError(t, proxy, plugin, error, instance);
               (error.isBlocking || !t.ignoreNonBlocking) ==> a.fault == Some(NoContext) && a.state.errors == t.errors
  {
  }

  /** After a reset that succeeds and one that then raises, the controller
      holds the second reset's proxy while the error list still holds the
      first's. */
  lemma FailedResetKeepsFormerProxy(env1: Env, env2: Env, s: State, current: ValidProxy)
    requires ResetPublish(env1, s).Ok() && !Reset(env2.context, env2.mismatched).Ok()
    ensures var t := ResetPublish(env2, ResetPublish(env1, s).state).state;
            && t.proxy == Some(NewProxy(env2.plugins))
            && Held(t.errors, current) == Some(NewProxy(env1.plugins))
  {
  }
}
