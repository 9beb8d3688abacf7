/** `PublisherController`'s publishing state machine.

    The controller drives pyblish plugins one `(plugin, instance)` unit at a
    time from a generator, `_publish_iterator`, and decides before each unit
    whether to pause. Here the generator is an explicit cursor: `Advance`
    performs the generator's code up to its next decision point, and `Next`
    runs it up to the next `yield`. What pyblish and the host decide (which
    instances a plugin matches, what a plugin raises, whether the session is
    interactive) comes from an `Env` of oracles. Property setters only emit
    their change event when the value changes; events are kept as a log.
 */
module Publisher {
  import opened Base
  import opened Plugins
  import opened PluginsProxy
  import opened ValidationErrors
  import opened ReportMaker

  /** `PLUGIN_ORDER_OFFSET`. */
  const PluginOrderOffset: real := 0.5
  /** `pyblish.api.ValidatorOrder`. */
  const ValidatorOrder: real := 1.0
  /** `_validation_order`: plugins at or above it run after validation. */
  const ValidationOrder: real := ValidatorOrder + PluginOrderOffset

  /** The message shown for a crash that is not a `KnownPublishError`. */
  const CrashMessage: string := "Something went wrong. Send report to your supervisor or Ynput team."

  /** What the controller takes from pyblish and the host. `context` holds the
      run's instances once collected; `instancesByPlugin` is
      `pyblish.logic.instances_by_plugin`, `matchesFamilies` says whether
      `plugins_by_families([plugin], families)` keeps the plugin, `process` is
      the exception `pyblish.plugin.process` reports for a unit, and
      `interactive` is `_is_interactive`. */
  datatype Env = Env(
    plugins: seq<Plugin>,
    mismatched: seq<Plugin>,
    context: PublishContext,
    contextName: Option<string>,
    instancesByPlugin: Plugin -> seq<Instance>,
    matchesFamilies: (Plugin, set<string>) -> bool,
    process: (Plugin, Option<Instance>) -> Exc,
    actionSucceeds: (Plugin, Action) -> bool,
    interactive: bool)

  /** The boolean publish properties. */
  datatype Flags = Flags(
    isRunning: bool,
    hasStarted: bool,
    hasValidated: bool,
    hasCrashed: bool,
    hasValidationErrors: bool,
    hasBlockingErrors: bool,
    hasFinished: bool)

  datatype FlagName =
    | IsRunning | HasStarted | HasValidated | HasCrashed | HasValidationErrors | HasBlockingErrors | HasFinished

  function Get(fl: Flags, f: FlagName): bool
  {
    match f
    case IsRunning => fl.isRunning
    case HasStarted => fl.hasStarted
    case HasValidated => fl.hasValidated
    case HasCrashed => fl.hasCrashed
    case HasValidationErrors => fl.hasValidationErrors
    case HasBlockingErrors => fl.hasBlockingErrors
    case HasFinished => fl.hasFinished
  }

  function With(fl: Flags, f: FlagName, v: bool): (r: Flags)
    ensures Get(r, f) == v
    ensures forall g :: g != f ==> Get(r, g) == Get(fl, g)
  {
    match f
    case IsRunning => fl.(isRunning := v)
    case HasStarted => fl.(hasStarted := v)
    case HasValidated => fl.(hasValidated := v)
    case HasCrashed => fl.(hasCrashed := v)
    case HasValidationErrors => fl.(hasValidationErrors := v)
    case HasBlockingErrors => fl.(hasBlockingErrors := v)
    case HasFinished => fl.(hasFinished := v)
  }

  /** The change event of each property; `publish_has_started` has none. */
  function Topic(f: FlagName): Option<string>
  {
    match f
    case IsRunning => Some("publish.is_running.changed")
    case HasStarted => None
    case HasValidated => Some("publish.has_validated.changed")
    case HasCrashed => Some("publish.has_crashed.changed")
    case HasValidationErrors => Some("publish.has_validation_errors.changed")
    case HasBlockingErrors => Some("publish.has_validation_blocking_errors.changed")
    case HasFinished => Some("publish.finished.changed")
  }

  datatype Payload =
    | NoPayload
    | FlagValue(b: bool)
    | Count(n: nat)
    | ErrorMessage(msg: Option<string>)
    | Text(s: string)

  datatype Event = Event(topic: string, payload: Payload)

  /** Which button started the last run (`_btn_clicked`). */
  datatype Button = PublishButton | ValidateButton

  /** Where the generator stands inside the body for plugin `index`: about to
      start it, just past the stop for `validate`, just past the stop for
      validation errors, or in the loop over its instances with `pending` left. */
  datatype Phase = Enter | AfterValidateStop | AfterErrorStop | Instances(pending: seq<Instance>)

  /** The generator: inside the loop, finished after its last `yield`, or
      ended by an exception. Both ended forms raise `StopIteration` when pulled. */
  datatype Cursor = At(index: nat, phase: Phase) | Done | Broken

  /** What the generator yields: a `stop_publish` item or a unit to process. */
  datatype Item = StopItem | ProcessItem(plugin: Plugin, instance: Option<Instance>)

  /** The observable publish properties; their setters emit change events
      into `events`, the log of everything the controller emits. */
  datatype Props = Props(
    flags: Flags,
    maxProgress: nat,
    progress: nat,
    errorMsg: Option<string>,
    events: seq<Event>)

  datatype State = State(
    props: Props,
    upValidation: bool,
    commentIsSet: bool,
    comment: Option<string>,
    ignoreNonBlocking: bool,
    button: Option<Button>,
    cursor: Option<Cursor>,
    proxy: Option<ValidProxy>,
    report: Maker,
    errors: Errors)

  const NoFlags: Flags := Flags(false, false, false, false, false, false, false)

  /** The controller right after `__init__`: no context, no generator, no proxy.
      `comment` is the context's "comment", absent while there is no context. */
  const InitialState: State :=
    State(Props(NoFlags, 0, 0, None, []), false, false, None, false, None, None, None, NewMaker, NewErrors)

  function Log(p: Props, topic: string, payload: Payload): Props
  {
    p.(events := p.events + [Event(topic, payload)])
  }

  function Emit(s: State, topic: string, payload: Payload): State
  {
    s.(props := Log(s.props, topic, payload))
  }

  /** A flag property's setter: the value is stored, and the change event is
      emitted only when the value differs. */
  function SetFlag(p: Props, f: FlagName, v: bool): (r: Props)
    ensures r.flags == With(p.flags, f, v)
    ensures r.(flags := p.flags, events := p.events) == p
    ensures r.events == p.events + if Get(p.flags, f) != v && Topic(f).Some? then [Event(Topic(f).value, FlagValue(v))] else []
  {
    if Get(p.flags, f) == v then p
    else
      var t := p.(flags := With(p.flags, f, v));
      if Topic(f).Some? then Log(t, Topic(f).value, FlagValue(v)) else t
  }

  /** Setting a flag to the value it has changes nothing, so setting twice is
      setting once. */
  lemma SetFlagIdempotent(p: Props, f: FlagName, v: bool)
    ensures SetFlag(SetFlag(p, f, v), f, v) == SetFlag(p, f, v)
    ensures Get(p.flags, f) == v ==> SetFlag(p, f, v) == p
  {
  }

  function SetProgress(p: Props, n: nat): (r: Props)
    ensures r.progress == n
    ensures r.(progress := p.progress, events := p.events) == p
    ensures r.events == p.events + if p.progress != n then [Event("publish.progress.changed", Count(n))] else []
  {
    if p.progress == n then p else Log(p.(progress := n), "publish.progress.changed", Count(n))
  }

  function SetMaxProgress(p: Props, n: nat): (r: Props)
    ensures r.maxProgress == n
    ensures r.(maxProgress := p.maxProgress, events := p.events) == p
    ensures r.events == p.events + if p.maxProgress != n then [Event("publish.max_progress.changed", Count(n))] else []
  {
    if p.maxProgress == n then p else Log(p.(maxProgress := n), "publish.max_progress.changed", Count(n))
  }

  function SetErrorMsg(p: Props, m: Option<string>): (r: Props)
    ensures r.errorMsg == m
    ensures r.(errorMsg := p.errorMsg, events := p.events) == p
    ensures r.events == p.events + if p.errorMsg != m then [Event("publish.publish_error.changed", ErrorMessage(m))] else []
  {
    if p.errorMsg == m then p else Log(p.(errorMsg := m), "publish.publish_error.changed", ErrorMessage(m))
  }

  /** `_reset_attributes`: every flag off, no error message, progress 0. */
  function ResetAttributes(p: Props): (r: Props)
    ensures r.flags == NoFlags && r.errorMsg == None && r.progress == 0
    ensures r.maxProgress == p.maxProgress
  {
    var p1 := SetFlag(p, IsRunning, false);
    var p2 := SetFlag(p1, HasStarted, false);
    var p3 := SetFlag(p2, HasValidated, false);
    var p4 := SetFlag(p3, HasCrashed, false);
    var p5 := SetFlag(p4, HasValidationErrors, false);
    var p6 := SetFlag(p5, HasBlockingErrors, false);
    var p7 := SetFlag(p6, HasFinished, false);
    var p8 := SetErrorMsg(p7, None);
    var p9 := SetProgress(p8, 0);
    p9
  }

  /** The stop condition on validation errors: any of them when interactive,
      only blocking ones in batch mode. */
  predicate ErrorsStop(env: Env, s: State)
  {
    if env.interactive then s.props.flags.hasValidationErrors else s.props.flags.hasBlockingErrors
  }

  /** Validation has passed and errors forbid going on. */
  predicate ShouldStop(env: Env, s: State)
  {
    s.props.flags.hasValidated && ErrorsStop(env, s)
  }

  /** The label of the context unit: its data "label", else "name", else "Context". */
  function ContextTitle(env: Env): string
  {
    if env.context.labelText.Some? && env.context.labelText.value != "" then env.context.labelText.value
    else if env.contextName.Some? && env.contextName.value != "" then env.contextName.value
    else "Context"
  }

  /** The termination measure of the generator: plugins left, then the phase,
      then the instances left. */
  function Outer(env: Env, c: Cursor): nat
  {
    match c
    case At(i, _) => |env.plugins| + 1 - (if i <= |env.plugins| then i else |env.plugins|)
    case _ => 0
  }

  function PhaseRank(c: Cursor): nat
  {
    match c
    case At(_, Enter) => 3
    case At(_, AfterValidateStop) => 2
    case At(_, AfterErrorStop) => 1
    case _ => 0
  }

  function Pending(c: Cursor): nat
  {
    match c
    case At(_, Instances(xs)) => |xs|
    case _ => 0
  }

  predicate Below(env: Env, c: Cursor, d: Cursor)
  {
    || Outer(env, c) < Outer(env, d)
    || (Outer(env, c) == Outer(env, d) && PhaseRank(c) < PhaseRank(d))
    || (Outer(env, c) == Outer(env, d) && PhaseRank(c) == PhaseRank(d) && Pending(c) < Pending(d))
  }

  /** The generator never touches the error flags. */
  predicate ErrorFlagsKept(a: Flags, b: Flags)
  {
    && b.hasCrashed == a.hasCrashed
    && b.hasValidationErrors == a.hasValidationErrors
    && b.hasBlockingErrors == a.hasBlockingErrors
  }

  /** One step of the generator. */
  datatype Step = Step(state: State, cursor: Cursor, item: Option<Item>, fault: Option<Fault>)

  /** The generator's code from cursor `c` to its next decision point: one of
      its stop checks, the start of a plugin's body, one instance of the loop
      over instances, or the clean-up after the last plugin. Pulling an ended
      generator raises `StopIteration`. */
  function Advance(env: Env, s: State, c: Cursor): (r: Step)
    ensures c.At? ==> Below(env, r.cursor, c)
    ensures c.At? && r.item.None? && r.fault.None? ==> r.cursor.At?
    ensures c.At? && r.fault.Some? ==> r.cursor == Broken && r.item.None?
    ensures !c.At? ==> r == Step(s, c, None, Some(IteratorExhausted))
    ensures r.state.(props := s.props, report := s.report) == s
    ensures r.state.props.maxProgress == s.props.maxProgress
    ensures ErrorFlagsKept(s.props.flags, r.state.props.flags)
    ensures c.At? && r.cursor == Done ==> r.state.props.flags.hasFinished && r.state.props.progress == r.state.props.maxProgress
  {
    match c
    case Done => Step(s, c, None, Some(IteratorExhausted))
    case Broken => Step(s, c, None, Some(IteratorExhausted))
    case At(i, phase) =>
      if i >= |env.plugins| then Step(Finish(s), Done, Some(StopItem), None)
      else
        match phase
        case Enter =>
          var s1 := StartPlugin(s, i, env.plugins[i]);
          Step(s1, At(i, AfterValidateStop), if s1.upValidation && s1.props.flags.hasValidated then Some(StopItem) else None, None)
        case AfterValidateStop =>
          Step(s, At(i, AfterErrorStop), if ShouldStop(env, s) then Some(StopItem) else None, None)
        case AfterErrorStop =>
          EnterPlugin(env, s, i)
        case Instances(xs) =>
          if |xs| == 0 then Step(s, At(i + 1, Enter), None, None)
          else if !IsPublished(xs[0]) then Step(s, At(i, Instances(xs[1..])), None, None)
          else
            Step(Emit(s, "publish.process.instance.changed", Text(InstanceLabel(xs[0]))),
                 At(i, Instances(xs[1..])), Some(ProcessItem(env.plugins[i], Some(xs[0]))), None)
  }

  /** The clean-up after the last plugin: finished, with full progress. */
  function Finish(s: State): (r: State)
    ensures r.props.flags == s.props.flags.(hasFinished := true)
    ensures r.props.progress == r.props.maxProgress == s.props.maxProgress
    ensures r.(props := s.props) == s
  {
    var p := SetFlag(s.props, HasFinished, true);
    s.(props := SetProgress(p, p.maxProgress))
  }

  /** The top of the loop for plugin `i`: progress is set without an event,
      and validation counts as passed from the first plugin at the validation
      order onwards. */
  function StartPlugin(s: State, i: nat, plugin: Plugin): (r: State)
    ensures r.props.progress == i && r.props.maxProgress == s.props.maxProgress
    ensures r.props.flags == s.props.flags.(hasValidated := s.props.flags.hasValidated || plugin.order >= ValidationOrder)
    ensures r.(props := s.props) == s
  {
    var s1 := s.(props := s.props.(progress := i));
    if s1.props.flags.hasValidated then s1
    else s1.(props := SetFlag(s1.props, HasValidated, plugin.order >= ValidationOrder))
  }

  /** The start of plugin `i`'s body: it is added to the run report, then
      skipped when inactive, when it is an instance plugin without instances,
      or when it is a context plugin the active families do not match. */
  function EnterPlugin(env: Env, s: State, i: nat): (r: Step)
    requires i < |env.plugins|
    ensures r.fault.Some? ==> r.cursor == Broken && r.item.None? && r.fault == Some(DuplicatePlugin(env.plugins[i].id))
    ensures r.fault.None? ==> r.cursor == At(i + 1, Enter) || (r.cursor.At? && r.cursor.index == i && r.cursor.phase.Instances?)
    ensures r.item.Some? ==> r.item == Some(ProcessItem(env.plugins[i], None)) && r.cursor == At(i + 1, Enter)
    ensures r.state.props.flags == s.props.flags && r.state.props.progress == s.props.progress
    ensures r.state.props.maxProgress == s.props.maxProgress
    ensures r.state.(props := s.props, report := s.report) == s
  {
    var p := env.plugins[i];
    var a := AddPluginIter(s.report, p, env.context);
    var s1 := s.(report := a.state);
    if !a.Ok() then Step(s1, Broken, None, a.fault)
    else if !IsPublishPluginActive(p) then Step(s1.(report := SetPluginSkipped(s1.report)), At(i + 1, Enter), None, None)
    else
      var s2 := Emit(s1, "publish.process.plugin.changed", Text(PluginLabel(p)));
      if p.instanceEnabled then
        var xs := env.instancesByPlugin(p);
        if |xs| == 0 then Step(s2.(report := SetPluginSkipped(s2.report)), At(i + 1, Enter), None, None)
        else Step(s2, At(i, Instances(xs)), None, None)
      else if env.matchesFamilies(p, CollectFamilies(env.context.instances, true)) then
        Step(Emit(s2, "publish.process.instance.changed", Text(ContextTitle(env))), At(i + 1, Enter),
             Some(ProcessItem(p, None)), None)
      else Step(s2.(report := SetPluginSkipped(s2.report)), At(i + 1, Enter), None, None)
  }

  /** Whether entering `p` ends in `set_plugin_skipped`: it is inactive, an
      instance plugin without instances, or a context plugin the active
      families do not match. */
  predicate SkipsPlugin(env: Env, p: Plugin)
  {
    || !IsPublishPluginActive(p)
    || (p.instanceEnabled && |env.instancesByPlugin(p)| == 0)
    || (!p.instanceEnabled && !env.matchesFamilies(p, CollectFamilies(env.context.instances, true)))
  }

  /** What entering a plugin does to the run report when registration fails.
      Registration through `add_plugin_iter` fails exactly on an id that
      already has a record, and then the report is what `add_plugin_iter`
      left; otherwise `EnterPluginRecord` says what is filed. */
  lemma EnterPluginReport(env: Env, s: State, i: nat)
    requires i < |env.plugins|
    ensures var p := env.plugins[i];
            var r := EnterPlugin(env, s, i);
            && (r.fault.Some? <==> exists k :: 0 <= k < |s.report.records| && s.report.records[k].id == p.id)
            && (r.fault.Some? ==> r.state.report == AddPluginIter(s.report, p, env.context).state)
  {
    var a := AddPluginIter(s.report, env.plugins[i], env.context);
    if !a.Ok() {
      assert EnterPlugin(env, s, i).state.report == a.state;
    }
  }

  /** What entering a plugin files when registration succeeds: a fresh record
      that becomes the current one, marked skipped exactly in the three skip
      cases. The earlier records are what `add_plugin_iter` leaves, and a
      skipped plugin hands out no unit. */
  lemma EnterPluginRecord(env: Env, s: State, i: nat)
    requires i < |env.plugins|
    ensures var p := env.plugins[i];
            var r := EnterPlugin(env, s, i);
            var a := AddPluginIter(s.report, p, env.context).state;
            var n := |s.report.records|;
            r.fault.None? ==>
              && |r.state.report.records| == n + 1
              && r.state.report.records[..n] == Patch(s.report.records, s.report.currentData, MarkPassed)
              && r.state.report.(records := a.records) == a
              && r.state.report.current == Some(p) && r.state.report.currentData == Some(p.id)
              && IsFresh(r.state.report.records[n].(skipped := false), p)
              && (r.state.report.records[n].skipped <==> SkipsPlugin(env, p))
              && (SkipsPlugin(env, p) ==> r.cursor == At(i + 1, Enter) && r.item.None?)
  {
    var p := env.plugins[i];
    var a := AddPluginIter(s.report, p, env.context);
    var n := |s.report.records|;
    var r := EnterPlugin(env, s, i);
    if a.Ok() {
      SkipRegistered(s.report, p, env.context);
      var rs := a.state.records;
      assert rs[n := rs[n].(skipped := true)][..n] == rs[..n];
      if SkipsPlugin(env, p) {
        assert r.state.report == SetPluginSkipped(a.state);
      } else {
        assert r.state.report == a.state;
      }
    }
  }

  /** `next(self._main_thread_iter)`: runs the generator to its next `yield`,
      or to the exception that ends it. */
  function Next(env: Env, s: State, c: Cursor): (r: Step)
    ensures c.At? ==> Below(env, r.cursor, c)
    ensures r.item.Some? != r.fault.Some?
    ensures !c.At? ==> r == Step(s, c, None, Some(IteratorExhausted))
    ensures r.state.(props := s.props, report := s.report) == s
    ensures r.state.props.maxProgress == s.props.maxProgress
    ensures ErrorFlagsKept(s.props.flags, r.state.props.flags)
    ensures c.At? && r.cursor == Done ==> r.state.props.flags.hasFinished && r.state.props.progress == r.state.props.maxProgress
    decreases Outer(env, c), PhaseRank(c), Pending(c)
  {
    var st := Advance(env, s, c);
    if st.item.Some? || st.fault.Some? then st
    else Next(env, st.state, st.cursor)
  }

  function Rank1(env: Env, c: Option<Cursor>): nat
  {
    if c.Some? then Outer(env, c.value) else 0
  }

  function Rank2(c: Option<Cursor>): nat
  {
    if c.Some? then PhaseRank(c.value) else 0
  }

  function Rank3(c: Option<Cursor>): nat
  {
    if c.Some? then Pending(c.value) else 0
  }

  /** `_stop_publish`. */
  function StopPublishNow(s: State): (r: State)
    ensures !r.props.flags.isRunning && !r.ignoreNonBlocking
    ensures forall g :: g != IsRunning ==> Get(r.props.flags, g) == Get(s.props.flags, g)
    ensures r.props.(flags := s.props.flags, events := s.props.events) == s.props
    ensures r.(props := s.props, ignoreNonBlocking := s.ignoreNonBlocking) == s
  {
    s.(props := Log(SetFlag(s.props, IsRunning, false), "publish.process.stopped", NoPayload), ignoreNonBlocking := false)
  }

  /** `stop_publish`: stops only a running publish. */
  function StopPublish(s: State): (r: State)
    ensures !s.props.flags.isRunning ==> r == s
    ensures s.props.flags.isRunning ==> r == StopPublishNow(s)
  {
    if s.props.flags.isRunning then StopPublishNow(s) else s
  }

  /** `_set_error_title_if_missing` and `_add_validation_error`: with the
      ignore override on, a non-blocking error is dropped; otherwise the
      error flags are raised and the error is added to the list, which looks
      the plugin up in the proxy it holds; `proxy` is the controller's. */
  function AddValidationError(s: State, proxy: ValidProxy, plugin: Plugin, error: ValidationException, instance: Option<Instance>): (r: Outcome<State>)
    ensures !error.isBlocking && s.ignoreNonBlocking ==> r == Outcome(s, None)
    ensures !(!error.isBlocking && s.ignoreNonBlocking) ==>
              && r.state.props.flags.hasValidationErrors
              && r.state.props.flags.hasBlockingErrors == (s.props.flags.hasBlockingErrors || error.isBlocking)
              && (s.errors.proxy.Unset? ==> r.fault == Some(NoContext) && r.state.errors == s.errors)
    ensures !(!error.isBlocking && s.ignoreNonBlocking) && !s.errors.proxy.Unset? ==>
              && |r.state.errors.items| == |s.errors.items| + 1
              && r.state.errors.items[|s.errors.items|] == ItemFromResult(plugin.id, TitledFor(plugin, error), instance)
    ensures RunFlagsKept(s.props.flags, r.state.props.flags) && r.state.props.flags.hasCrashed == s.props.flags.hasCrashed
    ensures r.state.(props := s.props, errors := s.errors) == s
    ensures r.state.props.errorMsg == s.props.errorMsg
  {
    var e := SetErrorTitleIfMissing(plugin, error);
    TitleFallbacksAgree(plugin, error);
    if !e.isBlocking && s.ignoreNonBlocking then Outcome(s, None)
    else
      var p1 := SetFlag(s.props, HasValidationErrors, true);
      var p2 := if e.isBlocking then SetFlag(p1, HasBlockingErrors, true) else p1;
      var a := AddError(s.errors, proxy, plugin, e, instance);
      Outcome(s.(props := p2, errors := a.state), a.fault)
  }

  /** Processing a unit leaves the flags that track the run's progress alone. */
  predicate RunFlagsKept(a: Flags, b: Flags)
  {
    && b.isRunning == a.isRunning
    && b.hasStarted == a.hasStarted
    && b.hasValidated == a.hasValidated
    && b.hasFinished == a.hasFinished
  }

  /** The exception handling of `_process_and_continue`, with the flags it
      writes into the result for the run report. */
  datatype Handled = Handled(state: State, isValidationError: Option<bool>, isBlocking: Option<bool>, fault: Option<Fault>)

  /** A `PublishValidationError` raised before validation has passed is a
      validation error; any other exception crashes the publish, with the
      exception's text for a `KnownPublishError` and a fixed message otherwise. */
  function HandleException(s: State, proxy: ValidProxy, plugin: Plugin, instance: Option<Instance>, exc: Exc): (r: Handled)
    ensures exc.NoError? ==> r == Handled(s, None, None, None)
    ensures exc.Validation? && !s.props.flags.hasValidated ==>
              && r.isValidationError == Some(true) && r.isBlocking == Some(exc.error.isBlocking)
              && Outcome(r.state, r.fault) == AddValidationError(s, proxy, plugin, exc.error, instance)
    ensures !exc.NoError? && !(exc.Validation? && !s.props.flags.hasValidated) ==>
              && r.isValidationError == Some(false) && r.isBlocking == None && r.fault == None
              && r.state.props.flags.hasCrashed
              && r.state.props.errorMsg == Some(if exc.Known? then exc.message else CrashMessage)
              && r.state.errors == s.errors
              && r.state.props.flags == s.props.flags.(hasCrashed := true)
    ensures r.state.(props := s.props, errors := s.errors) == s
    ensures RunFlagsKept(s.props.flags, r.state.props.flags)
  {
    match exc
    case NoError => Handled(s, None, None, None)
    case Validation(error) =>
      if !s.props.flags.hasValidated then
        var a := AddValidationError(s, proxy, plugin, error, instance);
        Handled(a.state, Some(true), Some(error.isBlocking), a.fault)
      else Handled(Crash(s, CrashMessage), Some(false), None, None)
    case Known(message) => Handled(Crash(s, message), Some(false), None, None)
    case Other => Handled(Crash(s, CrashMessage), Some(false), None, None)
  }

  /** The crash branch: the message is shown and the publish has crashed. */
  function Crash(s: State, msg: string): (r: State)
    ensures r.props.flags == s.props.flags.(hasCrashed := true) && r.props.errorMsg == Some(msg)
    ensures r.(props := s.props) == s
  {
    s.(props := SetFlag(SetErrorMsg(s.props, Some(msg)), HasCrashed, true))
  }

  function InstanceIdOf(x: Option<Instance>): Option<string>
  {
    if x.Some? then Some(x.value.id) else None
  }

  /** `_process_and_continue` up to its call of `_publish_next_process`: the
      unit runs, the plugin's actions are filtered by what it raised, the
      exception is handled, and the result and the plugin's action items go
      into the run report. */
  function RunUnit(env: Env, s: State, plugin: Plugin, instance: Option<Instance>): (r: Outcome<State>)
    ensures r.state.cursor == s.cursor
    ensures RunFlagsKept(s.props.flags, r.state.props.flags)
    ensures r.state.upValidation == s.upValidation && r.state.ignoreNonBlocking == s.ignoreNonBlocking
    ensures r.state.button == s.button
    ensures s.proxy.None? ==> r == Outcome(s, Some(NoContext))
  {
    var exc := env.process(plugin, instance);
    if s.proxy.None? then Outcome(s, Some(NoContext))
    else
      match SetPluginActions(s.proxy.value, plugin.id, exc)
      case None => Outcome(s, Some(LookupFailure))
      case Some(q) =>
        var h := HandleException(s.(proxy := Some(q)), q, plugin, instance, exc);
        if h.fault.Some? then Outcome(h.state, h.fault)
        else RecordResult(h.state, plugin.id, ProcessResult(InstanceIdOf(instance), h.isValidationError, h.isBlocking))
  }

  /** `add_result` followed by `set_plugin_action_items`: only the run report
      changes. */
  function RecordResult(s: State, pluginId: string, res: ProcessResult): (r: Outcome<State>)
    requires s.proxy.Some?
    ensures r.state.(report := s.report) == s
    ensures r.Ok() <==> s.report.currentData.Some? && pluginId in s.proxy.value.actionIds
  {
    var a := AddResult(s.report, res);
    var s1 := s.(report := a.state);
    if !a.Ok() then Outcome(s1, a.fault)
    else
      match GetPluginActionItems(s.proxy.value, pluginId)
      case None => Outcome(s1, Some(LookupFailure))
      case Some(items) => Outcome(s1.(report := SetPluginActionItems(s1.report, items)), None)
  }

  /** `_publish_next_process`: stops when validation errors forbid going on
      or after a crash; otherwise pulls the next item and processes it. A unit
      runs through `_process_and_continue`, which calls back here, so one call
      keeps publishing until something stops it. */
  function PublishNextProcess(env: Env, s: State): (r: Outcome<State>)
    ensures ShouldStop(env, s) || s.props.flags.hasCrashed ==> r == Outcome(StopPublish(s), None)
    decreases Rank1(env, s.cursor), Rank2(s.cursor), Rank3(s.cursor), 0
  {
    if ShouldStop(env, s) || s.props.flags.hasCrashed then Outcome(StopPublish(s), None)
    else if s.cursor.None? then Outcome(s, Some(IteratorMissing))
    else
      var st := Next(env, s, s.cursor.value);
      var s1 := st.state.(cursor := Some(st.cursor));
      if st.fault.Some? then Outcome(s1, st.fault)
      else
        match st.item.value
        case StopItem => Outcome(StopPublish(s1), None)
        case ProcessItem(plugin, instance) => ProcessAndContinue(env, s1, plugin, instance)
  }

  /** `_process_and_continue`. */
  function ProcessAndContinue(env: Env, s: State, plugin: Plugin, instance: Option<Instance>): (r: Outcome<State>)
    decreases Rank1(env, s.cursor), Rank2(s.cursor), Rank3(s.cursor), 1
  {
    var u := RunUnit(env, s, plugin, instance);
    if u.fault.Some? then u else PublishNextProcess(env, u.state)
  }

  /** `_start_publish`: nothing while running; otherwise the publish is
      marked running and started and continues from where it stopped. */
  function StartPublish(env: Env, s: State): (r: Outcome<State>)
    ensures s.props.flags.isRunning ==> r == Outcome(s, None)
  {
    if s.props.flags.isRunning then Outcome(s, None)
    else
      var p := SetFlag(SetFlag(s.props, IsRunning, true), HasStarted, true);
      PublishNextProcess(env, s.(props := Log(p, "publish.process.started", NoPayload)))
  }

  /** `publish`: run to the end, not stopping at validation. */
  function Publish(env: Env, s: State): (r: Outcome<State>)
  {
    StartPublish(env, s.(button := Some(PublishButton), upValidation := false))
  }

  /** `validate`: run up to validation; nothing once validation passed. */
  function Validate(env: Env, s: State): (r: Outcome<State>)
    ensures s.props.flags.hasValidated ==> r == Outcome(s.(button := Some(ValidateButton)), None)
  {
    var s1 := s.(button := Some(ValidateButton));
    if s1.props.flags.hasValidated then Outcome(s1, None)
    else StartPublish(env, s1.(upValidation := true))
  }

  /** `_reset_publish`: fresh attributes, a new generator, context, proxy,
      run report and error list. The proxy is replaced before the report is
      reset, and a duplicate among the plugins that do not match the targets
      makes that reset raise before the error list and the maximum progress
      are reset: the list keeps its items and goes on holding the proxy it
      held, which the controller no longer holds. */
  function ResetPublish(env: Env, s: State): (r: Outcome<State>)
    ensures r.state.props.flags == NoFlags && r.state.props.progress == 0 && r.state.props.errorMsg == None
    ensures r.state.cursor == Some(At(0, Enter))
    ensures !r.state.upValidation && !r.state.commentIsSet && r.state.comment == Some("")
    ensures r.state.proxy == Some(NewProxy(env.plugins))
    ensures r.state.ignoreNonBlocking == s.ignoreNonBlocking && r.state.button == s.button
    ensures r.Ok() <==> Reset(env.context, env.mismatched).Ok()
    ensures r.state.report == Reset(env.context, env.mismatched).state
    ensures r.Ok() ==> r.state.errors == NoErrors && r.state.props.maxProgress == |env.plugins|
    ensures !r.Ok() ==>
              && r.state.errors.items == s.errors.items && r.state.errors.actionItems == s.errors.actionItems
              && !r.state.errors.proxy.Current?
              && forall current :: Held(r.state.errors, current) == (if s.errors.proxy.Current? then s.proxy else Held(s.errors, current))
  {
    var s1 := s.(props := ResetAttributes(s.props), upValidation := false, commentIsSet := false,
                 cursor := Some(At(0, Enter)), comment := Some(""), proxy := Some(NewProxy(env.plugins)));
    var rep := Reset(env.context, env.mismatched);
    var s2 := s1.(report := rep.state);
    if !rep.Ok() then Outcome(s2.(errors := Orphaned(s.errors, s.proxy)), rep.fault)
    else
      var p := SetMaxProgress(s2.props, |env.plugins|);
      Outcome(s2.(props := Log(p, "publish.reset.finished", NoPayload), errors := NoErrors), None)
  }

  /** `ignore_non_blocking_errors`: turn the override on, reset, and rerun
      the way the last button did. The reset clears `publish_is_running`, so
      the branch for a publish that is still running is never taken. */
  function IgnoreNonBlockingErrors(env: Env, s: State): (r: Outcome<State>)
  {
    var rs := ResetPublish(env, s.(ignoreNonBlocking := true));
    if !rs.Ok() then rs
    else if rs.state.props.flags.isRunning then rs
    else
      match rs.state.button
      case Some(ValidateButton) => Validate(env, rs.state)
      case Some(PublishButton) => Publish(env, rs.state)
      case None => rs
  }

  /** `set_comment`: only the first comment after a reset is stored. */
  function SetComment(s: State, comment: string): (r: Outcome<State>)
    ensures s.commentIsSet ==> r == Outcome(s, None)
    ensures !s.commentIsSet && s.comment.Some? ==> r == Outcome(s.(comment := Some(comment), commentIsSet := true), None)
    ensures !s.commentIsSet && s.comment.None? ==> r == Outcome(s, Some(NoContext))
  {
    if s.commentIsSet then Outcome(s, None)
    else if s.comment.None? then Outcome(s, Some(NoContext))
    else Outcome(s.(comment := Some(comment), commentIsSet := true), None)
  }

  /** `run_action`: runs one action of a plugin and records the result in the
      run report; unknown plugin or action ids raise `KeyError`. */
  function RunAction(env: Env, s: State, pluginId: string, actionId: string): (r: Outcome<State>)
    ensures s.proxy.None? ==> r == Outcome(s, Some(NoContext))
    ensures s.proxy.Some? ==>
              (r.Ok() <==> GetPlugin(s.proxy.value, pluginId).Some? && GetAction(s.proxy.value, pluginId, actionId).Some?)
    ensures r.Ok() ==>
              var plugin := GetPlugin(s.proxy.value, pluginId).value;
              var action := GetAction(s.proxy.value, pluginId, actionId).value;
              r.state.report == AddActionResult(s.report, action, plugin, env.actionSucceeds(plugin, action))
    ensures r.state.props.flags == s.props.flags && r.state.cursor == s.cursor && r.state.errors == s.errors
  {
    if s.proxy.None? then Outcome(s, Some(NoContext))
    else
      match GetPlugin(s.proxy.value, pluginId)
      case None => Outcome(s, Some(LookupFailure))
      case Some(plugin) =>
        match GetAction(s.proxy.value, pluginId, actionId)
        case None => Outcome(s, Some(LookupFailure))
        case Some(action) =>
          var ok := env.actionSucceeds(plugin, action);
          var s1 := if ok then s else Emit(s, "publish.action.failed", Text(action.name));
          var s2 := s1.(report := AddActionResult(s1.report, action, plugin, ok));
          Outcome(Emit(s2, "show.card.message", Text("Action finished.")), None)
  }
}
