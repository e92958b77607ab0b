/**
 * The App: its plugins, its component registry, its middleware collection,
 * and `handle`, which drives one request through the stages.
 */
module Application {
  import opened Wrappers
  import opened Plugins
  import opened Middleware
  import opened Components

  /**
   * Why `handle` rejects: no platform claims the request (the "No matching
   * platform" error), or a listener threw.
   */
  datatype HandleError = NoMatchingPlatform | ListenerThrew(message: string)

  /** What one `handle` call does, seen from outside: how many stages ran, and what it resolved to. */
  datatype Handled = Handled(ran: nat, result: Result<JovoResponse, HandleError>)

  /**
   * The specification of `handle`: the `request` stage runs with no facade;
   * then the first platform claiming the request is chosen, or `handle`
   * rejects; then the seven remaining stages run on a fresh facade, whose
   * response is the result.
   */
  function Pipeline(listeners: map<Stage, seq<Listener>>, plugins: seq<Plugin>, request: RawRequest): (h: Handled)
    requires Total(listeners)
    ensures 1 <= h.ran <= |Stages|
    ensures h.result.Success? ==> h.ran == |Stages|
    ensures h.result == Failure(NoMatchingPlatform) ==> h.ran == 1
  {
    match RunListeners(listeners[Request], None)
    case Threw(message) => Handled(1, Failure(ListenerThrew(message)))
    case Done(_) =>
      match FindRelated(Platforms(plugins), request)
      case None => Handled(1, Failure(NoMatchingPlatform))
      case Some(_) =>
        var s := RunStages(listeners, 1, 8, None);
        Handled(1 + s.ran, if s.outcome.Done? then Success(s.outcome.response) else Failure(ListenerThrew(s.outcome.message)))
  }

  /**
   * `handle` rejects with "No matching platform" exactly when the `request`
   * stage completes and no platform claims the request; only the `request`
   * stage has run then.
   */
  lemma PipelineNoPlatform(listeners: map<Stage, seq<Listener>>, plugins: seq<Plugin>, request: RawRequest)
    requires Total(listeners)
    ensures var h := Pipeline(listeners, plugins, request);
      h.result == Failure(NoMatchingPlatform) <==>
        RunListeners(listeners[Request], None).Done? && forall p :: p in plugins && p.IsPlatform() ==> !p.Claims(request)
  {
    var found := FindRelated(Platforms(plugins), request);
    if found.Some? {
      assert found.value in Platforms(plugins);
    }
  }

  /**
   * The `request` stage runs before any platform is consulted: when it
   * throws, what `handle` does does not depend on the plugins at all.
   */
  lemma PipelineRequestFirst(listeners: map<Stage, seq<Listener>>, plugins1: seq<Plugin>, plugins2: seq<Plugin>, request: RawRequest)
    requires Total(listeners)
    requires RunListeners(listeners[Request], None).Threw?
    ensures Pipeline(listeners, plugins1, request) == Pipeline(listeners, plugins2, request)
    ensures Pipeline(listeners, plugins1, request) == Handled(1, Failure(ListenerThrew(RunListeners(listeners[Request], None).message)))
  {
  }

  /**
   * `handle` resolves exactly when the `request` stage completes, some
   * platform claims the request and all seven RIDR stages complete; all
   * eight stages have run then, and the result is the response the last
   * stage left on the facade.
   */
  lemma PipelineSucceeds(listeners: map<Stage, seq<Listener>>, plugins: seq<Plugin>, request: RawRequest)
    requires Total(listeners)
    ensures var h := Pipeline(listeners, plugins, request);
      var s := RunStages(listeners, 1, 8, None);
      h.result.Success? <==>
        && RunListeners(listeners[Request], None).Done?
        && FindRelated(Platforms(plugins), request).Some?
        && s.outcome.Done?
    ensures var h := Pipeline(listeners, plugins, request);
      h.result.Success? ==> h.ran == 8 && h.result.value == RunStages(listeners, 1, 8, None).outcome.response
  {
  }

  /**
   * When `handle` rejects with a listener's error, the last stage that ran
   * is the one that threw it: either the `request` stage, or a RIDR stage
   * whose predecessors all completed.
   */
  lemma PipelineThrower(listeners: map<Stage, seq<Listener>>, plugins: seq<Plugin>, request: RawRequest)
    requires Total(listeners)
    requires Pipeline(listeners, plugins, request).result.Failure?
    requires Pipeline(listeners, plugins, request).result.error.ListenerThrew?
    ensures var h := Pipeline(listeners, plugins, request);
      var thrown := Threw(h.result.error.message);
      if h.ran == 1 then RunListeners(listeners[Request], None) == thrown
      else
        && RunListeners(listeners[Request], None).Done?
        && FindRelated(Platforms(plugins), request).Some?
        && var before := RunStages(listeners, 1, h.ran - 1, None);
           && before.outcome.Done?
           && RunListeners(listeners[StageAt(h.ran - 1)], before.outcome.response) == thrown
  {
    if RunListeners(listeners[Request], None).Done? && FindRelated(Platforms(plugins), request).Some? {
      RunStagesThrower(listeners, 1, 8, None);
    }
  }

  /**
   * With a claiming platform and no listeners on any stage but `response`,
   * `handle` yields what the `response` listeners make of an empty response.
   */
  lemma PipelineResponseOnly(listeners: map<Stage, seq<Listener>>, plugins: seq<Plugin>, request: RawRequest)
    requires Total(listeners)
    requires forall s: Stage :: s != Response ==> listeners[s] == []
    requires exists p :: p in plugins && p.Claims(request)
    ensures var h := Pipeline(listeners, plugins, request);
      match RunListeners(listeners[Response], None)
      case Done(r) => h == Handled(8, Success(r))
      case Threw(m) => h == Handled(8, Failure(ListenerThrew(m)))
  {
    SomeClaimFound(plugins, request);
    ResponseStageOnly(listeners);
  }

  /** The RIDR stages, when only `response` has listeners, come down to those listeners. */
  lemma ResponseStageOnly(listeners: map<Stage, seq<Listener>>)
    requires Total(listeners)
    requires forall s: Stage :: s != Response ==> listeners[s] == []
    ensures RunStages(listeners, 1, 8, None) ==
      match RunListeners(listeners[Response], None)
      case Threw(m) => StagesRun(7, Threw(m))
      case Done(r) => StagesRun(7, Done(r))
  {
    forall i | 1 <= i < 7 ensures listeners[StageAt(i)] == [] {
      assert StageAt(i) != Response;
    }
    RunStagesWithoutListeners(listeners, 1, 7, None);
    RunStagesSplit(listeners, 1, 7, 8, None);
    assert RunStages(listeners, 8, 8, None) == StagesRun(0, Done(None));
  }

  /**
   * The calls `handle` records visit the stages in pipeline order: the
   * i-th call runs the i-th stage.
   */
  lemma HandleTraceInOrder(ran: nat, facade: Jovo?)
    requires 1 <= ran <= 8
    ensures var t := [Call(Request, null)] + StageCalls(1, ran, facade);
      |t| == ran && forall i :: 0 <= i < ran ==> t[i].stage == Stages[i]
  {
    StagesInOrder();
    StageCallsAt(1, ran, facade);
    var t := [Call(Request, null)] + StageCalls(1, ran, facade);
    forall i | 0 <= i < ran ensures t[i].stage == Stages[i] {
      if i > 0 {
        assert t[i] == StageCalls(1, ran, facade)[i - 1];
      }
    }
  }

  /** The plugin list after `use(plugin)`: a plugin of the same name is replaced in place, otherwise it is appended. */
  function Installed(plugins: seq<Plugin>, plugin: Plugin): (r: seq<Plugin>)
    ensures plugin in r
    ensures forall p :: p in r ==> p == plugin || p in plugins
    ensures forall p :: p in plugins && p.name != plugin.name ==> p in r
    decreases |plugins|
  {
    if plugins == [] then [plugin]
    else if plugins[0].name == plugin.name then [plugin] + plugins[1..]
    else [plugins[0]] + Installed(plugins[1..], plugin)
  }

  /** `use` with a new name appends the plugin after all the others. */
  lemma {:induction false} InstalledAppends(plugins: seq<Plugin>, plugin: Plugin)
    requires forall q :: q in plugins ==> q.name != plugin.name
    ensures Installed(plugins, plugin) == plugins + [plugin]
    decreases |plugins|
  {
    if plugins != [] {
      InstalledAppends(plugins[1..], plugin);
      assert plugins == [plugins[0]] + plugins[1..];
    }
  }

  /** `use` with a name already present replaces that plugin in its own position. */
  lemma {:induction false} InstalledReplacesInPlace(plugins: seq<Plugin>, plugin: Plugin, k: nat)
    requires UniqueNames(plugins)
    requires k < |plugins| && plugins[k].name == plugin.name
    ensures Installed(plugins, plugin) == plugins[k := plugin]
    decreases |plugins|
  {
    if k > 0 {
      assert plugins[0].name != plugin.name;
      InstalledReplacesInPlace(plugins[1..], plugin, k - 1);
      assert plugins[k := plugin] == [plugins[0]] + plugins[1..][k - 1 := plugin];
    } else {
      assert plugins[k := plugin] == [plugin] + plugins[1..];
    }
  }

  /** No two plugins share a name: the plugin map is keyed by name. */
  ghost predicate UniqueNames(plugins: seq<Plugin>) {
    forall i, j :: 0 <= i < j < |plugins| ==> plugins[i].name != plugins[j].name
  }

  /** `use` keeps the plugin map keyed by name. */
  lemma {:induction false} InstalledUniqueNames(plugins: seq<Plugin>, plugin: Plugin)
    requires UniqueNames(plugins)
    ensures UniqueNames(Installed(plugins, plugin))
    decreases |plugins|
  {
    if plugins != [] && plugins[0].name != plugin.name {
      InstalledUniqueNames(plugins[1..], plugin);
      var r := Installed(plugins, plugin);
      forall i, j | 0 <= i < j < |r| ensures r[i].name != r[j].name {
        if i == 0 {
          assert r[j] in Installed(plugins[1..], plugin);
        }
      }
    }
  }

  /**
   * One RIDR stage: running the stage at position `1 + done` from response
   * `before` extends the trace by its call, and either ends the pipeline with
   * the listener's error or leaves the rest of it to run from the stage's
   * response.
   */
  lemma RidrStep(listeners: map<Stage, seq<Listener>>, done: nat, before: JovoResponse,
                 start: seq<Call>, facade: Jovo, trace: seq<Call>, error: Option<string>, after: JovoResponse)
    requires done < 7 && Total(listeners)
    requires trace == start + StageCalls(1, 1 + done, facade) + [Call(StageAt(1 + done), facade)]
    requires var o := RunListeners(listeners[StageAt(1 + done)], before);
      && (error.None? <==> o.Done?)
      && (o.Threw? ==> error == Some(o.message))
      && (o.Done? ==> after == o.response)
    ensures trace == start + StageCalls(1, 2 + done, facade)
    ensures error.Some? ==> RunStages(listeners, 1 + done, 8, before) == StagesRun(1, Threw(error.value))
    ensures error.None? ==> RunStages(listeners, 1 + done, 8, before) == Shifted(RunStages(listeners, 2 + done, 8, after), 1)
  {
    assert StageCalls(1, 2 + done, facade) == StageCalls(1, 1 + done, facade) + [Call(StageAt(1 + done), facade)];
  }

  /**
   * `done` RIDR stages have completed: the trace holds their calls after
   * `start`, and the remaining stages, run from `response`, complete the
   * run `expected`.
   */
  ghost predicate InProgress(listeners: map<Stage, seq<Listener>>, start: seq<Call>, facade: Jovo, trace: seq<Call>,
                             expected: StagesRun, done: nat, response: JovoResponse)
    requires Total(listeners)
  {
    && done <= 7
    && trace == start + StageCalls(1, 1 + done, facade)
    && expected == Shifted(RunStages(listeners, 1 + done, 8, response), done)
  }

  /** The run `expected` ended with `message`, and the trace holds the calls of the stages that ran. */
  ghost predicate Ended(start: seq<Call>, facade: Jovo, trace: seq<Call>, expected: StagesRun, message: string) {
    && 1 <= expected.ran <= 7
    && trace == start + StageCalls(1, 1 + expected.ran, facade)
    && expected.outcome == Threw(message)
  }

  /** Once the RIDR run has ended, by a throw or after all seven stages, the trace and the error are the run's. */
  lemma Conclude(listeners: map<Stage, seq<Listener>>, start: seq<Call>, facade: Jovo, trace: seq<Call>,
                 expected: StagesRun, error: Option<string>, response: JovoResponse)
    requires Total(listeners)
    requires error.Some? ==> Ended(start, facade, trace, expected, error.value)
    requires error.None? ==> InProgress(listeners, start, facade, trace, expected, 7, response)
    ensures expected.ran <= 7
    ensures trace == start + StageCalls(1, 1 + expected.ran, facade)
    ensures error.None? <==> expected.outcome.Done?
    ensures expected.outcome.Threw? ==> error == Some(expected.outcome.message)
    ensures expected.outcome.Done? ==> response == expected.outcome.response
  {
    if error.None? {
      assert RunStages(listeners, 8, 8, response) == StagesRun(0, Done(response));
    }
  }

  /** A run of stages seen after `done` earlier stages completed. */
  function Shifted(s: StagesRun, done: nat): StagesRun {
    StagesRun(done + s.ran, s.outcome)
  }

  class App {
    var plugins: seq<Plugin>
    var components: Registry
    const middlewareCollection: MiddlewareCollection

    /** The collection runs exactly the App's eight stages, and plugin names are unique. */
    ghost predicate Valid()
      reads this, middlewareCollection
    {
      && middlewareCollection.Valid()
      && middlewareCollection.stageNames == Stages
      && Total(middlewareCollection.listeners)
      && UniqueNames(plugins)
    }

    /**
     * A new App: the eight stages with no listeners, the router, handler
     * and output plugins, and no registered components.
     */
    constructor ()
      ensures Valid() && fresh(middlewareCollection)
      ensures middlewareCollection.trace == []
      ensures forall s: Stage :: middlewareCollection.listeners[s] == []
      ensures |plugins| == 3 && Platforms(plugins) == []
      ensures plugins[0].name == "RouterPlugin" && plugins[1].name == "HandlerPlugin" && plugins[2].name == "OutputPlugin"
      ensures components == map[]
    {
      middlewareCollection := new MiddlewareCollection(Stages);
      EveryStageListed();
      var router := new Plugin("RouterPlugin", Extension);
      var handler := new Plugin("HandlerPlugin", Extension);
      var output := new Plugin("OutputPlugin", Extension);
      plugins := [router, handler, output];
      components := map[];
    }

    /** Registers `plugin` under its name (last registration wins). */
    method Use(plugin: Plugin)
      requires Valid()
      modifies this`plugins
      ensures Valid()
      ensures plugins == Installed(old(plugins), plugin)
    {
      InstalledUniqueNames(plugins, plugin);
      plugins := Installed(plugins, plugin);
    }

    /**
     * Writes one registry entry per declaration, left to right: the catalog's
     * metadata for the component merged with the declaration's own.
     */
    method UseComponents(catalog: Catalog, decls: seq<Declaration>)
      modifies this`components
      ensures components == Registered(old(components), catalog, decls)
    {
      var i := 0;
      while i < |decls|
        invariant 0 <= i <= |decls|
        invariant components == Registered(old(components), catalog, decls[..i])
      {
        var component := decls[i];
        var relatedMetadata := Related(catalog, component.component);
        var name, newMetadata;
        if component.Bare? {
          name := component.component.name;
          newMetadata := ComponentMetadata(Some(component.component), map[]);
        } else {
          name := component.component.name;
          newMetadata := ComponentMetadata(Some(component.component), component.options);
        }
        components := components[name := Merge(Merge(Blank, relatedMetadata), newMetadata)];
        assert decls[..i + 1][..i] == decls[..i];
        i := i + 1;
      }
      assert decls[..i] == decls;
    }

    /**
     * Handles one request on a fresh context that copies the App's
     * middleware; the App itself is not changed. The context's trace holds
     * the stages run, in order: `request` with no facade, then the rest with
     * the one facade the chosen platform created.
     */
    method Handle(request: RawRequest) returns (result: Result<JovoResponse, HandleError>, ghost context: HandleRequest, ghost jovo: Jovo?)
      requires Total(middlewareCollection.listeners)
      ensures fresh(context) && fresh(context.middlewareCollection) && context.request == request
      ensures var h := Pipeline(middlewareCollection.listeners, plugins, request);
        && result == h.result
        && (jovo == null <==> h.ran == 1)
        && (jovo != null <==>
             RunListeners(middlewareCollection.listeners[Request], None).Done? && FindRelated(Platforms(plugins), request).Some?)
        && context.middlewareCollection.trace ==
           [Call(Request, null)] + StageCalls(1, h.ran, jovo)
      ensures jovo != null ==>
        && fresh(jovo) && jovo.request == request
        && FindRelated(Platforms(plugins), request) == Some(jovo.platform)
    {
      var handleRequest := new HandleRequest(this, request);
      context := handleRequest;
      jovo := null;
      var mw := handleRequest.middlewareCollection;
      assert StageCalls(1, 1, null) == [];

      ghost var h := Pipeline(middlewareCollection.listeners, plugins, request);
      var error := mw.Run(Request, null);
      if error.Some? {
        assert h == Handled(1, Failure(ListenerThrew(error.value)));
        return Failure(ListenerThrew(error.value)), context, jovo;
      }

      var relatedPlatform := FindRelated(Platforms(plugins), request);
      if relatedPlatform.None? {
        assert h == Handled(1, Failure(NoMatchingPlatform));
        return Failure(NoMatchingPlatform), context, jovo;
      }
      var facade := new Jovo(relatedPlatform.value, request);
      jovo := facade;

      ghost var ridr := RunStages(mw.listeners, 1, 8, None);
      assert h.ran == 1 + ridr.ran && 2 <= h.ran;
      error := handleRequest.RunRidr(facade);
      if error.Some? { return Failure(ListenerThrew(error.value)), context, jovo; }
      result := Success(facade.response);
    }
  }

  /** The per-request context: the raw request and a private copy of the App's middleware. */
  class HandleRequest {
    const request: RawRequest
    const middlewareCollection: MiddlewareCollection

    constructor (app: App, request: RawRequest)
      requires Total(app.middlewareCollection.listeners)
      ensures this.request == request && fresh(middlewareCollection)
      ensures middlewareCollection.stageNames == app.middlewareCollection.stageNames
      ensures middlewareCollection.listeners == app.middlewareCollection.listeners
      ensures middlewareCollection.trace == []
    {
      this.request := request;
      middlewareCollection := new MiddlewareCollection.Copy(app.middlewareCollection);
    }

    /**
     * The RIDR part of `handle`: the seven stages after `request`, in order,
     * each given `facade`; the first stage that throws ends it.
     */
    method RunRidr(facade: Jovo) returns (error: Option<string>)
      requires Total(middlewareCollection.listeners)
      modifies middlewareCollection`trace, facade
      ensures var s := RunStages(old(middlewareCollection.listeners), 1, 8, old(facade.response));
        && middlewareCollection.trace == old(middlewareCollection.trace) + StageCalls(1, 1 + s.ran, facade)
        && (error.None? <==> s.outcome.Done?)
        && (s.outcome.Threw? ==> error == Some(s.outcome.message))
        && (s.outcome.Done? ==> facade.response == s.outcome.response)
    {
      ghost var start := middlewareCollection.trace;
      ghost var listeners := middlewareCollection.listeners;
      ghost var expected := RunStages(listeners, 1, 8, facade.response);
      assert StageCalls(1, 1, facade) == [];
      assert start == start + StageCalls(1, 1, facade);

      error := RunInterpretation(facade, start, expected);
      if error.Some? {
        Conclude(listeners, start, facade, middlewareCollection.trace, expected, error, facade.response);
        return;
      }
      error := RunDialog(facade, start, expected);
      if error.Some? {
        Conclude(listeners, start, facade, middlewareCollection.trace, expected, error, facade.response);
        return;
      }
      error := RunResponse(facade, start, expected);
      Conclude(listeners, start, facade, middlewareCollection.trace, expected, error, facade.response);
    }

    /** The interpretation stages, `interpretation.asr` then `interpretation.nlu`. */
    method RunInterpretation(facade: Jovo, ghost start: seq<Call>, ghost expected: StagesRun) returns (error: Option<string>)
      requires Total(middlewareCollection.listeners)
      requires InProgress(middlewareCollection.listeners, start, facade, middlewareCollection.trace, expected, 0, facade.response)
      modifies middlewareCollection`trace, facade
      ensures middlewareCollection.listeners == old(middlewareCollection.listeners)
      ensures error.None? ==>
        InProgress(middlewareCollection.listeners, start, facade, middlewareCollection.trace, expected, 2, facade.response)
      ensures error.Some? ==> Ended(start, facade, middlewareCollection.trace, expected, error.value)
    {
      error := RunStage(InterpretationAsr, facade, 0, start, expected);
      if error.Some? { return; }
      error := RunStage(InterpretationNlu, facade, 1, start, expected);
    }

    /** The dialog stages, `dialog.context` then `dialog.logic`. */
    method RunDialog(facade: Jovo, ghost start: seq<Call>, ghost expected: StagesRun) returns (error: Option<string>)
      requires Total(middlewareCollection.listeners)
      requires InProgress(middlewareCollection.listeners, start, facade, middlewareCollection.trace, expected, 2, facade.response)
      modifies middlewareCollection`trace, facade
      ensures middlewareCollection.listeners == old(middlewareCollection.listeners)
      ensures error.None? ==>
        InProgress(middlewareCollection.listeners, start, facade, middlewareCollection.trace, expected, 4, facade.response)
      ensures error.Some? ==> Ended(start, facade, middlewareCollection.trace, expected, error.value)
    {
      error := RunStage(DialogContext, facade, 2, start, expected);
      if error.Some? { return; }
      error := RunStage(DialogLogic, facade, 3, start, expected);
    }

    /** The response stages, `response.output`, `response.tts`, then `response`. */
    method RunResponse(facade: Jovo, ghost start: seq<Call>, ghost expected: StagesRun) returns (error: Option<string>)
      requires Total(middlewareCollection.listeners)
      requires InProgress(middlewareCollection.listeners, start, facade, middlewareCollection.trace, expected, 4, facade.response)
      modifies middlewareCollection`trace, facade
      ensures middlewareCollection.listeners == old(middlewareCollection.listeners)
      ensures error.None? ==>
        InProgress(middlewareCollection.listeners, start, facade, middlewareCollection.trace, expected, 7, facade.response)
      ensures error.Some? ==> Ended(start, facade, middlewareCollection.trace, expected, error.value)
    {
      error := RunStage(ResponseOutput, facade, 4, start, expected);
      if error.Some? { return; }
      error := RunStage(ResponseTts, facade, 5, start, expected);
      if error.Some? { return; }
      error := RunStage(Response, facade, 6, start, expected);
    }

    /**
     * Runs the RIDR stage at position `1 + done`, after `done` stages of the
     * run `expected` completed; either the run goes on, or it ends here with
     * this stage's error.
     */
    method RunStage(stage: Stage, facade: Jovo, ghost done: nat, ghost start: seq<Call>, ghost expected: StagesRun)
      returns (error: Option<string>)
      requires Total(middlewareCollection.listeners) && done < 7 && stage == StageAt(1 + done)
      requires InProgress(middlewareCollection.listeners, start, facade, middlewareCollection.trace, expected, done, facade.response)
      modifies middlewareCollection`trace, facade
      ensures middlewareCollection.listeners == old(middlewareCollection.listeners)
      ensures error.None? ==>
        InProgress(middlewareCollection.listeners, start, facade, middlewareCollection.trace, expected, done + 1, facade.response)
      ensures error.Some? ==> Ended(start, facade, middlewareCollection.trace, expected, error.value)
    {
      ghost var before := facade.response;
      error := middlewareCollection.Run(stage, facade);
      RidrStep(middlewareCollection.listeners, done, before, start, facade, middlewareCollection.trace, error, facade.response);
    }
  }
}
