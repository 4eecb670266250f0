# CustomServeBuilder, modelled in Dafny

`CustomServeBuilder` is an Angular CLI (Architect) builder. Its `run` starts a
Stubby mock server from the stub configuration file named by `stubsConfigFile`.
Once Stubby signals that it is running, `run` hands off to the dev-server
target named by `devServerTarget`, with watch mode forced on. Any error in
either phase is caught once and turned into a single `{success: false}` event.

The model has five modules:

- `Wrappers` (wrappers.dfy): `Option` for values that may be `undefined`,
  `Result` for steps that may throw, the builder's `Error`s, opaque `Json`
  values, and JavaScript truthiness of an optional string.
- `Paths` (paths.dfy): `replacePathForWindows`. It also holds
  `normalize` and `resolve` of `@angular-devkit/core` as a record of two
  arbitrary functions (`PathOps`), since their code is not part of this model.
- `Stubs` (stubs.dfy): the stub entries (`{request, response}`) and
  `normalizeResponseFilePaths`, reproduced as written. An entry whose
  `response.file` is falsy becomes `{request, data}`, modelled as
  `WithData(request, data)`. It has no `response` and carries the whole input
  list. The loaded configuration may also be something other than an array,
  or hold `null`/`undefined` elements. Like an entry with no `response`, each
  of these makes the rewrite throw a TypeError, after the Stubby server object
  has been created.
- `TargetSpecifier` (target_spec.dfy): `String.prototype.split` on `:` and its
  inverse `join`, and the target specification
  `{project, target, configuration, overrides: {watch: true}}` that
  `startServer` builds from `devServerTarget`.
- `Serve` (serve.dfy): the builder. The collaborators are inputs, collected in
  a `Context`. Each is a function from the arguments of a call to its outcome:
  `require` of the config file, Stubby's `start`, and the five Architect calls.
  A run records every external call it makes, and the firing of Stubby's start
  callback, as a trace of `Call`s. `StubsPhase`, `DevServerPhase` and
  `Pipeline` give the observables of `runStubs`, `startServer` and `run`
  as values: the emitted events, the caught error and the trace. The class
  `CustomServeBuilder` holds the `context`. Its methods `RunStubs`,
  `StartServer` and `Run` carry out the same steps one at a time, and each is
  proved to produce its phase.

Behaviours of the code worth knowing:

- Entries without a `file` do not pass through unchanged. They lose their
  `response` and carry the whole input list as `data`.
- The target specifier is not validated. `myapp` alone reaches
  `getBuilderConfiguration` with the target undefined.
- `watch` gets the resolved config path without the Windows drive rewrite.
  Only the path given to `require` is rewritten.
- Stubby's start callback ignores its argument, so an error that Stubby passes
  to the callback still counts as ready. Only an exception thrown by `start`
  reaches the error boundary.
- `builder.run` receives the configuration from `getBuilderConfiguration`, not
  the value that `validateBuilderOptions` emits.

## Model

| member | source | states |
|---|---|---|
| `Paths.ReplacePathForWindows` | src/custom-serve.ts:58-60 | The length is kept and only the character at index 1 can change. A path starting with `/C/` becomes `/c/` followed by the rest unchanged; any other path is returned as is. The result never starts with `/C/`. |
| `Paths.ReplaceChangesExactlyUpperCDrive` | src/custom-serve.ts:59 | The rewrite changes a path if and only if it starts with `/C/`. |
| `Paths.ReplaceIdempotent` | src/custom-serve.ts:59 | Rewriting twice equals rewriting once. |
| `Paths.OtherDrivesUntouched` | src/custom-serve.ts:59 | A root `/X/` with any letter other than upper-case C, including `/c/`, is left unchanged. |
| `Paths.InnerUpperCDriveUntouched` | src/custom-serve.ts:59 | For any non-empty prefix, a `/C/` after it is left unchanged unless the whole path itself starts with `/C/` (the pattern is anchored). |
| `Stubs.NormalizeEntry` | src/custom-serve.ts:63-77 | The `map` callback fails exactly when the entry is `null`/`undefined` (destructuring TypeError) or has no `response` (TypeError on `response.file`). On success the output keeps the entry's `request`. |
| `Stubs.MapEntries` | src/custom-serve.ts:63 | `Array.prototype.map` over the callback succeeds exactly when every entry is an object with a `response`. Otherwise it fails with the error of the first entry that is not. On success the result has the same length, and element i is the callback's result on entry i. |
| `Stubs.NormalizeResponseFilePaths` | src/custom-serve.ts:62-78 | It throws exactly when some entry is `null`/`undefined` or lacks a `response`, with the TypeError of the first such entry. Otherwise the output has the same length and order, and every element keeps its input `request`. A truthy `response.file` becomes `resolve(root, normalize(replacePathForWindows(file)))`, with every other response field kept. Any other entry becomes exactly `{request, data}`, with no `response` and the whole input as `data`. |
| `Stubs.RenormalizingThrowsAfterDataBranch` | src/custom-serve.ts:76 | The rewrite is not idempotent. If one entry has a falsy `file`, normalizing the output again throws the missing-`response` TypeError, because that entry lost its `response`. |
| `Stubs.RenormalizingStableFilesIsIdempotent` | src/custom-serve.ts:64-74 | Suppose every entry has a truthy `file` whose rewrite is a non-empty fixed point, such as an absolute POSIX path. Then normalizing twice equals normalizing once. |
| `TargetSpecifier.Split` | src/custom-serve.ts:113 | `split(':')` gives one more segment than there are separators, and no segment contains the separator. |
| `TargetSpecifier.JoinSplit` | src/custom-serve.ts:113 | Joining the segments of a split with the separator gives back the input string. |
| `TargetSpecifier.SplitJoin` | src/custom-serve.ts:113 | Splitting the join of one or more separator-free segments gives back those segments. |
| `TargetSpecifier.SplitWithoutSeparator` | src/custom-serve.ts:113 | A string without the separator splits into itself alone. |
| `TargetSpecifier.SplitAtFirstSeparator` | src/custom-serve.ts:113 | Splitting `a:b` with a separator-free `a` gives `a` followed by the segments of `b`. |
| `TargetSpecifier.ParseTargetSpec` | src/custom-serve.ts:109-120 | `overrides` is always `{watch: true}`. The target is undefined if and only if there is no `:`. The configuration is undefined if and only if there are fewer than two. No part contains `:`. |
| `TargetSpecifier.ParseThreeSegments` | src/custom-serve.ts:109-120 | `p:t:c` gives project `p`, target `t`, configuration `c` and `{watch: true}`. |
| `TargetSpecifier.ParseTwoSegments` | src/custom-serve.ts:109-120 | `p:t` gives project `p`, target `t` and an undefined configuration, with no error. |
| `TargetSpecifier.ParseIgnoresExtraSegments` | src/custom-serve.ts:109-113 | Segments after the third are dropped silently; the segment count is not checked. |
| `TargetSpecifier.ParseTargetSpecRoundTrip` | src/custom-serve.ts:109-120 | With exactly two `:`, `project:target:configuration` rebuilds the specifier. |
| `Serve.StubsPhase` | src/custom-serve.ts:79-105 | The calls follow the fixed order: require, new Stubby, start, ready. A falsy `stubsConfigFile` fails with the missing-option error before any call, so no server is created or started. `require` gets the Windows-rewritten resolved path. A failing `require` ends the phase with its error, before the server is created. When the server was created but not started, the loaded value is not an array, or the rewrite of its entries threw, and the phase fails with that TypeError. Stubby is started with the caller's fields except `quiet = false`, `watch` = the resolved config path, `location = 'localhost'` and `data` = the normalized stubs. The phase is ready exactly when the start callback fires, fails with the error `start` throws, and waits while the callback never fires. |
| `Serve.DevServerPhase` | src/custom-serve.ts:107-138 | An undefined `devServerTarget` fails before any call. Otherwise the Architect calls follow the fixed order: `getBuilderConfiguration`, `getBuilderDescription`, `validateBuilderOptions`, `getBuilder`, `run`. The first call gets the target specification parsed from `devServerTarget`. Each later call is made if and only if the previous one succeeded: when the trace stops early, the last call made failed and its error is the phase's error. `getBuilder` gets the description that `getBuilderDescription` emitted. `run` gets the configuration from `getBuilderConfiguration`. The events are exactly those of the delegated builder. |
| `Serve.Pipeline` | src/custom-serve.ts:34-56 | The trace follows the fixed order, so an Architect call comes only after Stubby's ready callback. The output is the delegated builder's events, followed by exactly one `{success: false}` if and only if an error was caught. With nothing caught and no builder run, Stubby never called back and nothing is emitted. A falsy `stubsConfigFile` gives no call and exactly `[{success: false}]`. Both phases see the caller's options with `project` set to the builder's root. The trace starts with the stub phase's trace. A failed stub phase ends the run with its error caught; a waiting one ends it with nothing caught. A ready one is followed by exactly the dev-server phase's calls, whose error is the caught one. No Architect call is made unless Stubby called back. |
| `Serve.ArchitectOnlyAfterStubbyReady` | src/custom-serve.ts:43-44 | Every Architect call comes after Stubby's start callback has fired. |
| `Serve.SilentStubbyNeverDelegates` | src/custom-serve.ts:97-100 | If Stubby never calls back, no Architect call is made. Unless the stub phase threw, nothing is emitted. |
| `Serve.ThreeSegmentTargetReachesArchitect` | src/custom-serve.ts:109-121 | Once the stub phase is ready, `myapp:serve:development` always reaches the Architect, and `getBuilderConfiguration` is called with project `myapp`, target `serve`, configuration `development` and `{watch: true}`. |
| `Serve.TwoSegmentTargetReachesArchitect` | src/custom-serve.ts:109-121 | Once the stub phase is ready, `myapp:serve` always reaches the Architect, and `getBuilderConfiguration` is called with an undefined configuration. |
| `Serve.UnsplitTargetReachesArchitect` | src/custom-serve.ts:109-121 | Once the stub phase is ready, a specifier without `:` still reaches `getBuilderConfiguration`, with the target undefined; nothing fails fast. |
| `Serve.CallerWatchAndLocationIgnored` | src/custom-serve.ts:91-96 | Two runs whose options differ only in `watch` and `location` behave identically. |
| `Serve.CustomServeBuilder.constructor` | src/custom-serve.ts:33 | The builder keeps the context it is given. |
| `Serve.CustomServeBuilder.RunStubs` | src/custom-serve.ts:79-105 | The step-by-step `runStubs` produces exactly `StubsPhase`. |
| `Serve.CustomServeBuilder.StartServer` | src/custom-serve.ts:107-138 | The step-by-step `startServer`, including the description kept from the `tap`, produces exactly `DevServerPhase`. |
| `Serve.CustomServeBuilder.Run` | src/custom-serve.ts:34-56 | The two phases chained by `concatMap` under one `catchError` produce exactly `Pipeline`. |

## Left out

- The Stubby server itself, that is, request matching and serving. Only the options `start` is called with and whether its callback fires are modelled.
- Loading the config file with `require`: module loading and file I/O. The loaded value (an array of entries or any other value), or the error, is the result of the `require` function in the context. The fields of a loaded entry other than `request` and `response` are not modelled, since the rewrite drops them.
- The code of `normalize` and `resolve` from `@angular-devkit/core`. They are arbitrary total functions here, so a path that `normalize` would reject is not modelled as an error.
- The internals of the Architect: `getBuilderConfiguration`, `getBuilderDescription`, `validateBuilderOptions`, `getBuilder` and the delegated builder's `run`. Each is a function from its arguments to success or an error. The delegated builder's output is a finite list of events, possibly followed by an error. Whether `validateBuilderOptions` changes the configuration object in place is not modelled.
- rxjs scheduling, asynchrony and cancellation: the model keeps only the order of the calls and the emitted values. The long-running watch-mode stream is cut to the finite prefix that the delegated builder's outcome gives. Nothing tears down the Stubby server, and neither does the source.
- A Stubby start callback that fires more than once, for example on a reload of the watched file, is not modelled. The callback fires once or never.
- The logger messages and the error banner. They are presentation only; `Pipeline` returns the caught error in place of the logged text.
- A `response.file` that is truthy but not a string, where `replace` would throw, is not modelled: `file` is an optional string.
- `Serve.DevServerPhase`: `getBuilderDescription` and `validateBuilderOptions` return observables. The model treats each as emitting once or failing, not as emitting several values or never emitting.
