# jovo-core App: request orchestration

This project models the request-orchestration core of the jovo-core
`App` class:

- **The stages.** Every App owns a middleware collection with eight fixed
  stages, in this order: `request`, `interpretation.asr`,
  `interpretation.nlu`, `dialog.context`, `dialog.logic`,
  `response.output`, `response.tts`, `response`.
- **The constructor.** It installs the router, handler and output plugins
  and starts with an empty component registry.
- **`platforms`.** It is the order-preserving filter of the plugin map down
  to platform plugins.
- **`useComponents`.** It writes one registry entry per declaration, left to
  right. Each entry is the catalog's metadata for the component merged with
  the declaration's own metadata.
  It never reads the registry: each entry is built from a fresh object, the
  catalog metadata and the new declaration, so options given in an earlier
  call do not accumulate (`Components.RegisterAgainReplaces`).
- **`handle`.** It copies the App's middleware into a per-request context
  and runs the `request` stage with no facade. It then picks the first
  platform that claims the raw request, or rejects with
  "No matching platform". Next it creates the facade and runs the seven
  RIDR stages (request, interpretation, dialog, response) in order on that
  facade. Finally it returns the facade's response.

Files:
- `wrappers.dfy`: `Option`, `Result`.
- `plugins.dfy`: plugins, platform roles, the per-request facade (`Jovo`), `Platforms` and `FindRelated`.
- `middleware.dfy`: the stages and the middleware collection. The collection has a ghost `trace` of the calls it ran.
- `components.dfy`: component metadata, the merge and the registry update.
- `app.dfy`: the `App` class and the per-request `HandleRequest` context. It also holds `Pipeline`, the specification of `handle`, and the lemmas about it.

`handle` is proved against `Pipeline`:
- its result is `Pipeline`'s result;
- the context's trace is `request` with no facade, followed by the RIDR stages that ran, all with the one facade the chosen platform created.

The lemmas about `Pipeline` cover:
- the "No matching platform" path, which runs only `request`;
- success, which runs all eight stages;
- attribution of a thrown error to the stage that threw it.

## Model

| member | source | states |
|---|---|---|
| Middleware.StageNamesInOrder | jovo-core/src/App.ts:26-35 | The collection's stages, read as wire names, are exactly the eight names in declared order. |
| Middleware.EveryStageListed | jovo-core/src/App.ts:26-35 | Every stage is one of the collection's declared stages. |
| Middleware.StagesInOrder | jovo-core/src/App.ts:26-35 | There are eight stages. Each sits at its own position, and every stage occurs among them. |
| Middleware.StageNamed | jovo-core/src/App.ts:26-35 | A name that denotes a stage is exactly that stage's wire name. |
| Middleware.StageNamedName | jovo-core/src/App.ts:26-35 | Every stage is found under its own name, so the eight names are distinct. |
| Middleware.MiddlewareCollection.constructor | jovo-core/src/App.ts:26-35 | A new collection declares exactly the given stages, each with no listeners and nothing run. |
| Middleware.MiddlewareCollection.Run | jovo-core/src/App.ts:91 | Running a stage records the call (stage and facade). It either leaves the stage's response on the facade or returns the listener's error. With no facade, the listeners' output is dropped. |
| Middleware.StageCallsAt | jovo-core/src/App.ts:101-107 | The i-th recorded call runs the stage at position `lo + i`, always with the same facade. |
| Middleware.StageCalls | jovo-core/src/App.ts:101-107 | The calls recorded for the stages from position `lo` up to `hi`: one call per stage, in order, each with the same facade. |
| Middleware.RunStages | jovo-core/src/App.ts:101-107 | Running the stages in order stops at the first throw. If it completes, every stage ran; if it throws, at least one stage ran. |
| Middleware.RunStagesThrower | jovo-core/src/App.ts:101-107 | When a run throws, the last stage that ran threw that error, and every stage before it completed. |
| Middleware.RunStagesWithoutListeners | jovo-core/src/App.ts:101-107 | Stages with no listeners pass the response through unchanged. |
| Middleware.RunStagesSplit | jovo-core/src/App.ts:101-107 | Running a range of stages is running its first part and then, only if that completes, the rest. |
| Plugins.Platforms | jovo-core/src/App.ts:43-45 | `platforms` is a subsequence of the plugins. It holds only platforms, and every platform as often as the plugins do. |
| Plugins.PlatformsAppend | jovo-core/src/App.ts:43-45 | The filter distributes over concatenation, so plugin order is kept. |
| Plugins.FindRelated | jovo-core/src/App.ts:93 | The result is none exactly when no candidate claims the request. Otherwise it is the first candidate that claims it. |
| Plugins.FindRelatedOverPlatforms | jovo-core/src/App.ts:93 | Searching `platforms` finds the same plugin as searching all plugins, because only platforms claim requests. |
| Plugins.SomeClaimFound | jovo-core/src/App.ts:93-97 | When some plugin claims the request, a platform is found and `handle` does not reject for lack of one. |
| Plugins.FindRelatedIgnoresLater | jovo-core/src/App.ts:93 | Plugins after the first one that claims the request are not consulted. |
| Plugins.Jovo.constructor | jovo-core/src/App.ts:98 | A new facade belongs to the chosen platform and the request, and starts with no response. |
| Components.Merge | jovo-core/src/App.ts:77-81 | A later defined `target` wins. Option keys are the union. Later options win per key, and earlier-only options are kept. |
| Components.MergeBlank | jovo-core/src/App.ts:78-79 | Merging into the blank `ComponentMetadata` object copies the source. |
| Components.MergeIdempotent | jovo-core/src/App.ts:77-81 | Merging metadata with itself gives it back. |
| Components.MergeAssociative | jovo-core/src/App.ts:77-81 | A three-way merge equals merging with the merge of the last two sources. |
| Components.EntryForContents | jovo-core/src/App.ts:66-81 | The written entry targets the declared class. Its options are the catalog's options, overridden by the call-site options, which only the declaration form supplies (App.ts:69-76). |
| Components.EntryForPrecedence | jovo-core/src/App.ts:77-81 | A call-site option wins over a stored option. A stored option that the call site does not set survives. |
| Components.RegisteredKeys | jovo-core/src/App.ts:63-83 | After the call, the registry's names are the old names plus the declared names, and no others. |
| Components.RegisteredUntouched | jovo-core/src/App.ts:63-83 | An entry under a name that no declaration carries is unchanged, and no such entry appears. |
| Components.RegisteredLastWins | jovo-core/src/App.ts:64-82 | A declared name ends with the entry of the last declaration that carries it. |
| Components.RegisteredIgnoresPrevious | jovo-core/src/App.ts:77-81 | The entry under a declared name does not depend on what the registry held before. |
| Components.RegisterAgainReplaces | jovo-core/src/App.ts:77-81 | Registering a class again in a later call replaces its entry. The earlier call's options do not accumulate. |
| Application.Installed | jovo-core/src/App.ts:39 | After `use`, the plugin is present. Other plugins come only from before, and those with other names stay. |
| Application.InstalledAppends | jovo-core/src/App.ts:39 | `use` with a new name appends the plugin after all the others, so it comes last in `platforms` order. |
| Application.InstalledReplacesInPlace | jovo-core/src/App.ts:39 | `use` with a name already present replaces that plugin in its own position and changes nothing else. |
| Application.InstalledUniqueNames | jovo-core/src/App.ts:39 | `use` keeps plugin names unique, as a name-keyed map does. |
| Application.App.constructor | jovo-core/src/App.ts:37-41 | A new App has the eight stages with no listeners and the router, handler and output plugins, none of them a platform. Its registry is empty. |
| Application.App.Use | jovo-core/src/App.ts:39 | The plugin list becomes `Installed(plugins, plugin)`, and the App stays valid. |
| Application.App.UseComponents | jovo-core/src/App.ts:63-83 | The loop leaves the registry equal to `Registered(old registry, catalog, declarations)`, processed left to right. |
| Application.Pipeline | jovo-core/src/App.ts:87-110 | Between one and eight stages run. Success means all eight ran. "No matching platform" means only `request` ran. |
| Application.PipelineNoPlatform | jovo-core/src/App.ts:93-97 | `handle` rejects with "No matching platform" exactly when `request` completes and no platform claims the request. |
| Application.PipelineRequestFirst | jovo-core/src/App.ts:91-93 | When the `request` stage throws, `handle` rejects with that error after one stage, whatever the plugins are. |
| Application.PipelineSucceeds | jovo-core/src/App.ts:91-109 | `handle` resolves exactly when `request` completes, a platform claims the request and all RIDR stages complete. The result is then the final response, after eight stages. |
| Application.PipelineThrower | jovo-core/src/App.ts:91-107 | A listener error comes either from `request`, or from the last RIDR stage that ran, all of whose predecessors completed. |
| Application.PipelineResponseOnly | jovo-core/src/App.ts:87-109 | Suppose a platform claims the request and only `response` has listeners. Then `handle` yields what those listeners make of an empty response. |
| Application.ResponseStageOnly | jovo-core/src/App.ts:101-107 | When only `response` has listeners, the seven RIDR stages come down to those listeners. |
| Application.HandleTraceInOrder | jovo-core/src/App.ts:91-107 | The i-th recorded call runs the i-th stage in declared order. |
| Application.RidrStep | jovo-core/src/App.ts:101-107 | One RIDR stage extends the trace by its call. It either ends the pipeline with its error or hands its response to the rest. |
| Application.HandleRequest.constructor | jovo-core/src/HandleRequest.ts:13-16 | The context holds the request and a fresh collection with the App's stages and listeners, with nothing run yet. |
| Application.HandleRequest.RunStage | jovo-core/src/App.ts:101-107 | Running the next RIDR stage either keeps the run in progress, one stage further on, or ends it with that stage's error. The trace gains exactly that stage's call. |
| Application.HandleRequest.RunInterpretation | jovo-core/src/App.ts:101-102 | It runs `interpretation.asr`, then `interpretation.nlu` unless the first throws. The run ends up two stages further on, or ended by the stage that threw. |
| Application.HandleRequest.RunDialog | jovo-core/src/App.ts:103-104 | It runs `dialog.context`, then `dialog.logic` unless the first throws. The run ends up two stages further on, or ended by the stage that threw. |
| Application.HandleRequest.RunResponse | jovo-core/src/App.ts:105-107 | It runs `response.output`, `response.tts` and `response`, stopping at the first throw. The run ends up complete, or ended by the stage that threw. |
| Application.Conclude | jovo-core/src/App.ts:101-107 | Once the RIDR run ends, whether by a throw or after all seven stages, the trace, the error and the final response are those of `RunStages`. |
| Application.HandleRequest.RunRidr | jovo-core/src/App.ts:100-107 | It runs the seven RIDR stages on the facade, as `RunStages` from position 1 to 8 says. The trace gains exactly the stages that ran, and the facade holds the final response. |
| Application.App.Handle | jovo-core/src/App.ts:87-110 | The result is `Pipeline`'s result, and the App is not modified. A facade is created exactly when the `request` stage completes and a platform claims the request, that is, exactly when more than the `request` stage runs. The context's trace is `request` with no facade, then the RIDR stages that ran, all on the one fresh facade. That facade belongs to the first platform claiming the request. |

## Left out

- Asynchrony: `handle` awaits each stage in turn, so it is modelled as sequential calls. Concurrent `handle` calls are not modelled.
- Configuration and mounting on the App are not modelled, and none of them affects `handle`'s pipeline. `config` is a constant field (App.ts:20-22), `getDefaultConfig` returns a constant object (App.ts:47-52) and `mount` does nothing (App.ts:59-61). `initialize` forwards to `initializePlugins` in `Extensible`, which is not part of this model (App.ts:54-57).
- `HandleRequest.mount` (`mountPlugins`): not modelled, because `Extensible` is not part of this model.
- `HandleRequest` copying: the deep copy is reduced to a fresh middleware collection with the App's stages and listeners. Copies of the config, plugins and components are not modelled.
- `Host`: a parameter of the context that nothing in the core reads; left out.
- Stage listeners: `MiddlewareCollection` is not part of this model. A listener is modelled as a pure function from the facade's response to a new response or a thrown error. A stage runs its listeners in registration order and stops at the first throw.
- Listeners on the `request` stage see no facade, so their output is dropped. Listener side effects beyond the response are not modelled.
- Request listeners and platform choice: in the source, `request`-stage listeners receive the context, whose `request` field (HandleRequest.ts:13) is the object `isRequestRelated` later reads (App.ts:93). Those listeners can therefore change which platform is chosen, or whether any is. The model chooses the platform from the request exactly as it was passed to `handle`.
- Errors from platform calls: `isRequestRelated` and `createJovoInstance` (App.ts:93, 98) may throw, and `handle` then rejects. In the model, a platform's `isRequestRelated` is a total predicate and creating the facade cannot fail, so `handle` never rejects for those reasons.
- Listener registration and unknown stage names: not modelled. Every stage `handle` runs is one of the collection's eight stages.
- `createJovoInstance`: reduced to a fresh facade for the chosen platform and the request, with no response yet. Its other internals are not part of this model.
- The router, handler and output plugins: only their names and their not being platforms are modelled.
- Plugin map: `use` is defined in `Extensible`, which is not part of this model. It is modelled as a name-keyed map whose iteration order is insertion order, with a replaced name keeping its place.
- JavaScript's ordering of integer-like keys first in `Object.values` is not modelled.
- The metadata catalog (a process-wide singleton) is a parameter `catalog` looked up by component class.
- Components.Merge: models `lodash.merge` on the two fields metadata carries, `target` and a flat `options` record. Nested option objects, arrays and prototype handling are not modelled.
