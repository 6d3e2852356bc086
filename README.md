# View renderer model

A Dafny model of the `Renderer` class of es-compose-renderer (`lib/Renderer.js`).
The class does two things:

- `pathForScript(script, dirs, ext)` turns a logical script name into a file path.
  - A script that already exists is returned unchanged.
  - Otherwise a file name is built: the script itself when it has an extension, else the script plus `ext`. `ext` defaults to `html` and gets a leading `.` when it has none.
  - That file name is looked up in each view directory, in order, and the first one that exists wins.
  - If none exists, it throws "Unable to resolve script path: " followed by the script.
- `render(script, data)` merges the renderer's options with the per-call `data`, and `data` wins on shared keys.
  - With no truthy `engine` it throws "Template Engine is not found in options.".
  - Otherwise it resolves and renders the script with the engine.
  - When a `layout` is set, it writes the content into the caller's `data` under the placeholder key (`layoutContentPlaceholder`, else `body`). It then resolves and renders the layout with that data.

How the model represents the world:

- The filesystem is the set of paths that exist.
- Template engines are a function parameter `cons(engine, file, data)` that returns text or a failure reason.
- Every existence check (`Probe`) and every engine call (`Invoke`) is returned as an event trace. This makes the search order, the short-circuit and the content-before-layout order statable.
- JavaScript values are a `Value` datatype, and an object is a map from keys to values. A missing key stands for `undefined`.

Files:

- `values.dfy`: `Option`, `Result`, `Value`, JavaScript truthiness and `Object.assign`.
- `paths.dfy`: `path.extname(s) != ""` and `path.format({dir, base})` for POSIX paths.
- `renderer.dfy`: the specification functions `ResolvePath`, `ResolveProbes` and `RenderSpec`, plus the imperative class `Renderer`.
  - `PathForScript` is the directory loop with its early `break`, proved equal to `ResolvePath`/`ResolveProbes`.
  - `Render` updates a `DataObject` (the caller's data) in place, proved equal to `RenderSpec`.
- `properties.dfy`: what resolution and rendering promise, as lemmas over the specification functions.
- `scenarios.dfy`: the repository's seven test cases (`test/rendererTest.js`), stated as lemmas about the model. The test of `pathForScript` at lines 14-16 never calls the function, so it checks nothing; its lemma states what the test's title promises. The tests share one renderer, so the layout test runs with the two view directories the multiple-directory test installed, and its scenario does too.

The model follows the code where the class's doc comment says more:

- `render` reads a single `engine` option and searches only the directories in `views`. The `engines: {}` in the constructor's doc comment is not read.
- The engine receives the caller's `data`, not the merged options.
- `data` is mutated in place.

## Model

The specification functions are `ResolvePath` and `ResolveProbes` (what `pathForScript` returns and which paths it checks), `RenderStep` (one resolve-then-render step) and `RenderSpec` (all of `render`). Their properties are stated by the lemmas below. `ExtOf` only reads the `ext` option, which `ExtensionFromOptions` follows through to the file name. The other option readers and the path helpers carry rows of their own: `HasExtension` stands for `path.extname(s) != ""` and `Format` for `path.format`.

| member | source | states |
|---|---|---|
| Values.Assign | lib/Renderer.js:34 | the merged keys are the union of both objects; on a shared key the per-call data's value wins, and every other key keeps the option's value |
| Values.FalsyValues | lib/Renderer.js:36-37 | `Truthy` and `TruthyAt` model the truthiness tests of `engine`, `layout` and the placeholder (also :46-47); the found-path test at :89 is the `None`-or-"" test in `PathForScript`: the falsy values are exactly null, false, 0 and "", and a property is truthy exactly when it is present and holds none of them |
| Paths.TrimmedPrefix | lib/Renderer.js:70 | the extension test ignores trailing '/': trimming keeps a prefix of the path that does not end in '/' and drops only '/' characters |
| Paths.SegmentSuffix | lib/Renderer.js:70 | the extension test looks at the last segment: it is the longest suffix of the path without a '/' |
| Paths.NameExtension | lib/Renderer.js:70 | for a name without '/', `HasExtension` holds exactly when the name is not ".." and has a '.' after its first character |
| Paths.ExtensionEdgeCases | lib/Renderer.js:70 | "a.b", "a.", "..b" and "..." have an extension |
| Paths.NoExtensionEdgeCases | lib/Renderer.js:70 | ".b" (a leading dot alone) and ".." have no extension |
| Paths.LastSegmentOnly | lib/Renderer.js:70 | a dot in an earlier segment gives no extension ("sub.d/x"), and neither does a last segment ".." ("x/..") |
| Paths.TrailingSlashIgnored | lib/Renderer.js:70 | adding a trailing '/' does not change whether a path has an extension |
| Paths.ExtensionNeedsText | lib/Renderer.js:70 | a path with an extension has at least two characters |
| Paths.NoDotNoExtension | lib/Renderer.js:70 | a name without any '.' has no extension, so it gets the configured extension appended |
| Paths.FormatSegment | lib/Renderer.js:81-82 | the last segment of the formatted path is the file name, whatever the directory: formatting puts the name after the directory and never changes it |
| Paths.FormatNonEmpty | lib/Renderer.js:82 | formatting a non-empty file name gives a non-empty path, whatever the directory |
| ViewRenderer.NormalizeExt | lib/Renderer.js:61-74 | the appended extension is the given one (default "html") with a '.' in front exactly when it does not already start with one: it always starts with '.', ends with the given extension, is at most one character longer, and equals it when it already starts with '.' |
| ViewRenderer.FirstExisting | lib/Renderer.js:80-87 | the index found is that of an existing path with no existing path before it, and there is none exactly when no path exists |
| ViewRenderer.CandidatesAt | lib/Renderer.js:80-82 | the i-th path tried is the i-th directory formatted with the file name |
| ViewRenderer.ProbesEndAtResult | lib/Renderer.js:63-86 | the search checks the script first, and when it succeeds the last path it checked is the one it returns |
| ViewRenderer.MessageNamesScript | lib/Renderer.js:38 | the two error texts `render` raises itself differ, the resolution message (:90) is "Unable to resolve script path: " followed by the script, and the script can be read back from it |
| ViewRenderer.ReadViews | lib/Renderer.js:42 | `views` becomes the directories searched: absent or falsy gives the one directory "" (so `path.format` yields the bare name), a string gives that one directory, and an array gives one directory per item |
| ViewRenderer.PlaceholderOf | lib/Renderer.js:47 | the placeholder key is never empty: it is `layoutContentPlaceholder` when that is truthy and "body" otherwise |
| ViewRenderer.LayoutOf | lib/Renderer.js:49 | a truthy `layout` option is the non-empty script name resolved for the layout |
| ViewRenderer.BaseNameNonEmpty | lib/Renderer.js:69-77 | the file name looked for is never empty, so a found candidate is never a falsy path |
| ViewRenderer.Renderer.constructor | lib/Renderer.js:19-21 | the renderer holds exactly the options it was given |
| ViewRenderer.Renderer.PathForScript | lib/Renderer.js:61-94 | the loop returns what `ResolvePath` specifies and checks exactly the paths `ResolveProbes` lists, in order |
| ViewRenderer.Renderer.Render | lib/Renderer.js:33-54 | the result, the caller's data afterwards and the event trace are those of `RenderSpec`; the renderer's own options are unchanged |
| RendererProperties.ExistingScriptReturnedAsIs | lib/Renderer.js:63 | an existing script is returned unchanged after one existence check, whatever the directories and extension |
| RendererProperties.SingleDirectoryIsList | lib/Renderer.js:65-67 | a single directory gives the same result and the same checks as the one-element list holding it |
| RendererProperties.DefaultExtension | lib/Renderer.js:61-76 | the extension defaults to ".html", and "html", ".html" and no extension give the same file name |
| RendererProperties.CandidatesWithoutExtension | lib/Renderer.js:73-82 | for a script without an extension, the path tried in each directory is that directory joined with the script plus the normalised extension |
| RendererProperties.ExtensionFromOptions | lib/Renderer.js:42 | for a script without an extension, the file name looked for follows the merged `ext` option: ".html" is appended when `ext` is not set (the default at :61), `ext` itself when it starts with '.', and '.' plus `ext` otherwise (:74) |
| RendererProperties.CandidatesWithExtension | lib/Renderer.js:70-71 | for a script with an extension, the path tried in each directory is that directory joined with the script, whatever the extension argument |
| RendererProperties.ResolveFirstHit | lib/Renderer.js:79-87 | a returned path exists; it is the script itself, or the candidate of the earliest directory whose candidate exists, and no later candidate is checked |
| RendererProperties.ResolveFailure | lib/Renderer.js:89-93 | resolution fails exactly when neither the script nor any candidate exists, after checking every candidate, with the message naming the script |
| RendererProperties.LaterDirectoriesIgnored | lib/Renderer.js:80-87 | appending directories after the one that holds the script changes neither the result nor the paths checked |
| RendererProperties.CandidatesAppend | lib/Renderer.js:80-82 | the candidates of two directory lists joined are the candidates of each, joined |
| RendererProperties.CandidatesPrefix | lib/Renderer.js:80-82 | the first n candidates are the candidates of the first n directories |
| RendererProperties.Invocations | lib/Renderer.js:43 | the events picked out of a trace are exactly its engine calls: each is an engine call of the trace, and every engine call of the trace is among them |
| RendererProperties.InvocationsAppend | lib/Renderer.js:43-50 | the engine calls of two traces joined are those of each, in order |
| RendererProperties.NoInvocationsInProbes | lib/Renderer.js:63-83 | path resolution never calls the engine |
| RendererProperties.RenderWithoutEngine | lib/Renderer.js:34-39 | with no truthy engine in the merged options, render fails with "Template Engine is not found in options." before any check or engine call, and the data is untouched |
| RendererProperties.RenderTouchesOnlyPlaceholder | lib/Renderer.js:34-48 | render fails for want of an engine exactly when the merged options have no truthy engine; it adds at most the placeholder key to the caller's data and leaves every other key as it was |
| RendererProperties.RenderContentFails | lib/Renderer.js:42-46 | when the script cannot be resolved or its rendering fails, render fails with that error whether or not a layout is set, leaves the caller's data as it was, and neither looks for nor renders the layout; an unresolved script also means no engine call |
| RendererProperties.DataEngineWins | lib/Renderer.js:34-36 | an engine given in the per-call data is the one used, and render does not then fail for want of an engine |
| RendererProperties.RenderWithoutLayout | lib/Renderer.js:41-53 | without a layout, the result is the engine's rendering of the resolved script with the caller's data, which stays unchanged |
| RendererProperties.RenderWithLayout | lib/Renderer.js:45-51 | with a layout, the content overwrites the placeholder key ("body" unless configured) in the caller's data, and the result is the engine's rendering of the resolved layout with that data |
| RendererProperties.RenderCallOrder | lib/Renderer.js:42-50 | the engine is called at most twice: first on the resolved script with the caller's data; then, only after that call succeeded and with a layout set, on the resolved layout with the content in the data; a successful render with a layout makes both calls |
| RendererProperties.StepTrace | lib/Renderer.js:42-43 | a step's trace starts with the check of the script itself; once the script resolves, it ends with the engine call on the resolved file with the given data; a successful step always resolved its script (also :49-50) |
| RendererProperties.StepCalls | lib/Renderer.js:42-43 | one resolve-and-render step calls the engine once on the resolved file and returns its outcome, or calls it not at all and returns the resolution error |
| RendererScenarios.MissingScriptThrows | test/rendererTest.js:14-16 | with no view directory, a dot-free script that exists neither as given nor with ".html" cannot be resolved; this is what the test's title promises, since the test never calls the function |
| RendererScenarios.RendersAbsolutePath | test/rendererTest.js:23-27 | an existing script path is rendered from that path, after exactly one existence check |
| RendererScenarios.RendersResolvedPath | test/rendererTest.js:29-32 | a bare script name is rendered from the view directory with ".html" appended |
| RendererScenarios.RendersFromSecondDirectory | test/rendererTest.js:34-41 | with two view directories, a script only in the second is rendered from there, after the first directory was checked |
| RendererScenarios.RendersViewData | test/rendererTest.js:43-46 | extra per-call data reaches the engine: with the two view directories, the script is rendered from the second with the caller's `{message}` as its data, which stays unchanged |
| RendererScenarios.RendersLayout | test/rendererTest.js:48-54 | with a layout and the two view directories then in force, the content is stored as "body" in the caller's data and the layout rendered with that data is the result |
| RendererScenarios.PassesDataToLayout | test/rendererTest.js:56-63 | the caller's other data keys reach the layout: the layout is rendered with `{layout, title}` plus the content under "body" |

## Left out

- `lib/Parser.js` is not part of this model. Its `parse` hands all the work to the external `jsep` parser, its switch cases do nothing, and `normalizeValue` is empty, so it has no behaviour to state.
- The template engines behind `consolidate` are foreign code. They are the function parameter `cons`; a rejected promise is an `Err` reason that `render` passes on as `EngineFailure`. An engine that is absent from `cons` (`cons[engine]` not a function) falls into the same case.
- Engines that mutate `data` themselves are not modelled: `cons` returns a value and cannot change the data object.
- `fs.existsSync`, `path.format` and `path.extname` are modelled for POSIX paths only. The filesystem is a fixed set of existing paths that does not change during a call. Windows separators, path normalisation and relative-to-cwd lookups are not modelled.
- `async`/`await` is modelled as sequential calls. Interleaving of concurrent `render` calls on a shared `data` object is not modelled.
- ViewRenderer.Renderer.Render: requires that `views`, `ext`, `layout` and `layoutContentPlaceholder`, when present in the merged options, have their documented types. `views` is a path or an array of paths, `ext` is a string, and the others are strings or falsy. JavaScript's coercion of other values (a number as a directory, `ext: null` failing with a TypeError at `ext[0]`) is not modelled.
- A property whose value is `undefined` cannot be expressed: `Props` has only absent keys. So `Object.assign` copying an explicit `undefined` from the per-call data over an option (`render(s, {ext: undefined})` falling back to the default "html" instead of the renderer's `ext`) is not modelled; an absent key keeps the option.
- ViewRenderer.Renderer.Render: the caller's data object and the renderer's options cannot be the same object. In the code, `render(s, renderer.options)` with a layout writes the content into `this.options`; the model promises `this.options` unchanged because the two never alias.
- Numbers are modelled as integers. Objects nested inside option values are not modelled as values.
- The default `data = {}` of `render` is a caller passing a fresh `DataObject` with no properties.
- `this.options` being reassigned from outside the class (as the tests do) is a write to the public field `options` of `Renderer`, which the model allows but does not wrap in a method.
