# crossroads-url, modelled in Dafny

crossroads-url is a small URL router for the browser built on the
crossroads route matcher. It registers URL patterns with one or many
callbacks (`on`), registers fallbacks for unmatched URLs (`fallback`),
and binds patterns to controller modules (`controller`,
`fallbackController`). A controller handler loads the controller's module,
calls the previous controller's `unload`, runs the requested action with
the old and the new fragment, and then records the loaded controller and
the fragment as the active ones.

This project models the router's own logic in `crossroads-url.js`:

- `wrappers.dfy` (`Wrappers`): Option and Result.
- `values.dfy` (`Values`): the JavaScript values the router looks at.
  It covers truthiness and `String(v)`. Plain objects are lists of fields
  in insertion order, which is the order JSON.stringify shows. The module
  also holds the two errors the router throws.
- `config.dfy` (`Config`): `normalise` and its laws.
- `location.dfy` (`Location`): `getFragment`. The window is the pathname
  of its location, or None when there is no window.
- `dispatch.dfy` (`Dispatch`): `toArray`, the composite handler of
  `callFunctions`, and the route, handler, event and log datatypes.
  Callbacks are opaque ids. What a call returns is given by a parameter
  `apply`.
- `controllers.dfy` (`Controllers`): what a controller handler computes:
  - the module id it requests;
  - the action's argument list, as written and as intended (see Findings);
  - the `unload` call;
  - the missing-action error.
- `routing.dfy` (`Routing`): the `Router` class. Its fields are the base,
  the window, `baseControllerUrl`, the crossroads route table (`routes`,
  `bypassed`), `currentController`, `currentFragment`, and a log. The log
  records calls, emitted events, and the moment a controller and its
  fragment become the active ones. `Activate` is the body of the
  module-loader callback in `controllerHandler`, as written. It takes the
  already loaded module. Its log shows this order: `unload`, then the
  action, then the `controller` event, then the state update.
  `ActivateIntended` is the same with the corrected argument list (see
  Findings).

The source throws the missing-action error inside the asynchronous loader
callback. That error never reaches the deferred, so the handler's promise
never settles rather than being rejected. The model follows the code: the error is a `Failure` outcome of `Activate`, and
nothing is resolved or rejected.

## Model

| member | source | states |
|---|---|---|
| `Values.Get` | crossroads-url.js:100 | Reading a property gives the value of its first field of that name. A property the object lacks gives `undefined`. |
| `Values.Put` | crossroads-url.js:95-100 | Assigning a property sets it and leaves every other property as it was. An existing property keeps its place, and a new one is appended. Property names stay distinct. |
| `Values.PutSame` | crossroads-url.js:100 | Assigning a property the value it already has leaves the object unchanged. |
| `Values.PutNew` | crossroads-url.js:96-100 | Assigning a property the object lacks appends exactly that field. |
| `Config.Initial` | crossroads-url.js:85-92 | A controller name becomes an object with the single property `controller` holding that name. A config object is taken as it is: a copy, never the caller's own object. |
| `Config.Normalise` | crossroads-url.js:81-103 | The result's action is always truthy. A truthy action argument wins; otherwise a truthy existing action is kept; otherwise it is "init". Every other property is copied unchanged. The property order is the input's, with `action` appended if it was absent. Distinct names stay distinct. The input is a value, so the caller's object cannot change. |
| `Config.NormaliseName` | crossroads-url.js:85-100 | `normalise("Foo")` is exactly `{controller: "Foo", action: "init"}`, and with a truthy action `a` it is `{controller: "Foo", action: a}`, in that order. |
| `Config.NormaliseAddsDefault` | crossroads-url.js:92-100 | A config object without `action` comes back as the same object with `action: "init"` added last. |
| `Config.NormaliseKeepsComplete` | crossroads-url.js:95-100 | A config object whose action is already truthy comes back unchanged. |
| `Config.NormaliseIdempotent` | crossroads-url.js:81-103 | Normalising a normalised config changes nothing. |
| `Location.Substr` | crossroads-url.js:116 | `substr(start)` is the part after the first `start` characters, and empty when `start` is at or past the end. |
| `Location.GetFragment` | crossroads-url.js:109-117 | Fails with "Need to mock window for node" exactly when there is no window. Otherwise it returns the pathname minus its first `|base|` characters, or an empty string when the base is longer than the pathname. |
| `Location.FragmentAfterBase` | crossroads-url.js:116 | A pathname `base + rest` gives the fragment `rest`. |
| `Location.FragmentWithEmptyBase` | crossroads-url.js:116 | With the default base '' (set at line 42) the fragment is the whole pathname. |
| `Location.FragmentIgnoresBaseText` | crossroads-url.js:116 | Only the base's length matters: the pathname is never checked against the base's text. |
| `Dispatch.ToArray` | crossroads-url.js:370-377 | A single value becomes a one-element array, and an array keeps its elements in order. |
| `Dispatch.ToArrayIdempotent` | crossroads-url.js:370-377 | Applying `toArray` again to its own result changes nothing. |
| `Dispatch.CallFunctions` | crossroads-url.js:133-144 | Each callback is called exactly once, in order, with the same arguments. The results come back one per callback, in callback order. |
| `Controllers.ModuleId` | crossroads-url.js:244-257 | The requested module id is the captured controller base followed by `String(config.controller)`. |
| `Controllers.ModuleIdOfName` | crossroads-url.js:257 | For a config normalised from a controller name, the id is the base followed by that name. |
| `Controllers.ActionKey` | crossroads-url.js:273 | The action is looked up under `String(config.action)`. A string action is its own key, and a missing action looks up "undefined". |
| `Controllers.FragmentValue` | crossroads-url.js:260 | The old fragment is `undefined` before any activation and the recorded fragment after one. |
| `Controllers.Overlay` | crossroads-url.js:265 | `_.merge` on arrays overlays the source onto the destination by index. An `undefined` source element is skipped, and the longer array sets the length. |
| `Controllers.Merge` | crossroads-url.js:265 | An `undefined` source leaves the destination array as it is. An array source overlays it element by element: the result is as long as the longer array, a source element replaces the destination's unless it is `undefined` where the destination has one, and every other destination element is kept. |
| `Controllers.ActionArgsAsWritten` | crossroads-url.js:249-265 | As written, the action always receives exactly `[oldFrag, newFrag]`. |
| `Controllers.ActionArgs` | crossroads-url.js:264-265 | As intended, the action receives the old fragment, the new fragment, then the handler's own arguments. |
| `Controllers.CallerArgsDropped` | crossroads-url.js:249-265 | As written, a handler called with any arguments passes none of them to the action. |
| `Controllers.ArgsWithoutCallerArgs` | test/test.js:325-362 | Without handler arguments, both versions give exactly `[oldFrag, newFrag]`. |
| `Controllers.MergeOverwritesFragments` | crossroads-url.js:265 | Even if the handler's arguments reached the merge, the first one would replace the old fragment instead of following it. |
| `Controllers.UnloadCalls` | crossroads-url.js:267-270 | `unload` is called once, with the action's arguments, exactly when there is a previous controller and it has an `unload`. |
| `Controllers.NotFound` | crossroads-url.js:275-281 | The missing-action error's message is "Cannot find action <action> on controller <controller>". |
| `Controllers.NotFoundNamesBoth` | crossroads-url.js:277-280 | For a config normalised from a controller and action name, the message contains both names. |
| `Routing.Router.constructor` | crossroads-url.js:28-57 | The base defaults to ''. The window is the global one if it exists. `baseControllerUrl` defaults to 'controllers/' unless the config overrides it. The route table, the bypass list and the log start empty. There is no active controller or fragment. |
| `Routing.Router.On` | crossroads-url.js:178-200 | Appends exactly one route per url, in url order. Each route carries its own url, and all share the one composite handler of the callbacks. Returns the router and changes nothing else. |
| `Routing.Router.Fallback` | crossroads-url.js:211-230 | Appends exactly one bypass handler holding all the callbacks, so repeated calls accumulate. Returns the router and changes nothing else. |
| `Routing.Router.Controller` | crossroads-url.js:303-309 | Routes every url to one controller handler. The handler holds the normalised config and the current `baseControllerUrl`. |
| `Routing.Router.FallbackController` | crossroads-url.js:316-322 | Appends one bypass handler holding a controller handler of the normalised config. |
| `Routing.Router.FireRoute` | crossroads-url.js:155-166 | A matched route's handler calls its callbacks in order and then emits `route` with the route's own url and their results. It returns those results. |
| `Routing.Router.FireBypass` | crossroads-url.js:217-227 | A bypass handler calls its callbacks in order and then emits `bypassed` with the first argument and their results. |
| `Routing.Router.ModuleLoaded` | crossroads-url.js:267-290 | The previous controller's `unload` is called first, with the action's arguments. If the action is missing, the result is the NotFound error: `unload` has still run, the active controller and fragment are unchanged, and no `controller` event is emitted. Otherwise the log shows the action's call, then one `controller` event with the config, then the loaded module and the new fragment becoming the active ones. The result is the action's value. |
| `Routing.Router.Activate` | crossroads-url.js:258-291 | With no window it fails with nothing changed. Otherwise the new fragment is the `getFragment` result. `unload` and the action get exactly `[old fragment, new fragment]`, whatever arguments the handler was called with. The rest is as in `ModuleLoaded`. |
| `Routing.Router.ActivateIntended` | crossroads-url.js:264-265 | The same lifecycle with the corrected argument list: the two fragments followed by the handler's own arguments. |
| `Routing.ActivateTwice` | test/test.js:325-402 | On a fresh router, `init` gets `[undefined, f]`. Then `unload` (if any) runs, and `second` gets `[f, f]`: the fragment recorded by `init` is the next old fragment. |
| `Routing.ActivateFromBypass` | test/test.js:538-544 | A fallback controller handler called with the unmatched url runs `init` with `[undefined, f]` only: the url is dropped. |

## Left out

- `run` (crossroads-url.js:329-360): it needs promises (`Q.defer`, `Q.all`), a pattern-keyed one-shot subscription on the event emitter, and `crossroads.parse`.
- Route matching: choosing between the first match and the bypass handlers, and the parameters crossroads passes. These belong to the crossroads library, which is not part of this model. `FireRoute` and `FireBypass` model the handlers' bodies once crossroads has chosen them.
- Asynchronous module loading through `window.require`: `Activate` is given the loaded module. `ModuleId` states what is requested, but the model does not tie the loaded module to that id.
- Promises: a successful `Activate` returns the value given to `deferred.resolve`. The missing-action error is a `Failure`, not a rejection (see above).
- Event emission: the EventEmitter, `defineEvents` and subscriptions are replaced by the append-only `log`.
- The module loader shell (crossroads-url.js:1-19), `_.bindAll` and the `this` that callbacks run with.
- `getCrossroads`: the crossroads instance is the `routes` and `bypassed` fields. A crossroads instance passed to the constructor is not modelled, so the table always starts empty.
- Routing.Router.constructor: of the `config` merged onto the router, only `baseControllerUrl` is modelled. Other keys, such as `base` or `window`, could also be overridden.
- Callbacks, actions and `unload` are opaque. Their side effects and any exceptions they throw are not modelled. The value of a call is given by `apply`.
- Routing.Router.Activate: the handler's synchronous part (crossroads-url.js:246-257) is not modelled. A handler called with no window fails at line 256 with a TypeError before any module is loaded, so the `MissingWindow` outcome of `Activate` stands only for a window removed between the `require` call and its callback.
- Two controller loads racing on one router: `Activate` runs one activation at a time.
- Values: numbers are integers, with no floating point and no NaN. Objects and functions convert to "[object Object]". Property lookups on a controller module do not see inherited properties such as `toString`. Integer-like keys are not enumerated first.
- Location.GetFragment: strings are sequences of Unicode characters, but JavaScript's `length` and `substr` count UTF-16 code units. A base or pathname holding characters outside the Basic Multilingual Plane is therefore cut at a different place.
- Dispatch.ToArray: plain non-array objects, whose values `_.toArray` would list, are not modelled. `null`, which gives `[]`, is written as `Many([])`.
- Controllers.Overlay: lodash's deep merge of nested objects and arrays is not modelled; a source element simply replaces the destination's.
- Config.Normalise: a first argument that is neither a string nor an object (for example `undefined`) is not modelled.

## Findings

| source | as written | input that shows it | evidently intended | confidence | as-written member | corrected member |
|---|---|---|---|---|---|---|
| crossroads-url.js:265 | The loader callback declares its own `args` with `var`. The declaration is hoisted, so the `args` merged onto `[oldFrag, newFrag]` is that local, still `undefined`. The merge then returns `[oldFrag, newFrag]`, and the arguments the controller handler was called with are lost. | A controller handler called with one argument `x`, such as a route parameter: the action receives `[oldFrag, newFrag]` and never sees `x`. | The old and the new fragment followed by the handler's own arguments, as the comment on line 264 says. | high; not executed | `Controllers.ActionArgsAsWritten` | `Controllers.ActionArgs` |

`Routing.Router.Activate` models the code as written, and
`Routing.Router.ActivateIntended` uses the corrected argument list. The two
agree only when the handler gets no arguments
(`Controllers.ArgsWithoutCallerArgs`). A fallback controller handler always
gets the unmatched url, as in test/test.js:538-544 and 561-567; there the
url never reaches the action (`Routing.ActivateFromBypass`).
