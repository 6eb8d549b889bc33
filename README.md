# better-vue-lit in Dafny

This project models the two runtime parts of better-vue-lit, a library that writes Web Components (custom elements) in the style of Vue's composition API. It also proves properties of the model.

- **The props normaliser** (`packages/better-vue-lit/src/props.ts`).
  - `getType` reads a constructor's name out of its source text with the pattern `^\s*(function|class) (\w+)`.
  - `isAttributeType` accepts `String`, `Number` and `Boolean`.
  - `normalizePropsOptions` turns a props declaration into a dictionary of descriptors, keyed by camel-cased name. A declaration is a list of names, `null`, or an object of options.
  - In the object form, the caller's own options objects are reused, and the attribute flag is written into them in place.
- **The component life cycle** (`packages/better-vue-lit/src/index.ts`).
  - `defineComponent` computes the observed attributes from the normalised props.
  - The element class has five hook buckets, its constructor (setup, `_bm`, shadow root, first render pass), `connectedCallback`, `disconnectedCallback`, `attributeChangedCallback` and `_runHooks`.
  - `createLifecycleMethod` gives the five exports `onBeforeMount` … `onUnmounted`.
  - A module-wide `currentInstance` slot is set while `setup` runs.

Modules:

- `Wrappers` and `Js`: `Option`, JavaScript values, and callback ids.
- `Dicts`: a JavaScript plain object used as a dictionary. Keys are enumerated in the order they were first assigned.
- `PropTypes`: `getType` and `isAttributeType` over source text. It includes an independent description of what the pattern matches, proved equal to the scanner.
- `Props`:
  - The normaliser on values (`Normalize`).
  - The normaliser over options objects that live on the heap (class `PropOptionsObject`, method `NormalizePropsOptions`). It is proved to compute `Normalize` of the declaration as it read before the call.
- `Lifecycle`: one element's life as a state machine on values. It holds the buckets, what `setup` registers, the render passes and the DOM callbacks.
- `Component`: the imperative side.
  - Class `Runtime` holds `currentInstance`.
  - Class `Element` has one method per member of the element class. Each method is proved against the function of `Lifecycle` that describes it.
  - It also has the register and unregister closures, `DefineComponent`, and two scenarios about unregistering.

Some things are parameters rather than part of the model:

- `camelize` is an arbitrary function `string -> string`.
- Setup is a script of registrations and calls to unregister functions, followed by the render function it returns.
- Callbacks and templates are ids. Firing a callback, attaching the shadow root, and rendering are events in a trace.
- The reactive engine is reduced to a `stopped` flag and a `Triggered` input, which re-runs the effect unless the scope is stopped.

Where the code differs from what a reader might expect, the model follows the code:

- **Type arrays.** The commented-out `getTypeIndex` (`props.ts:321-331`) looked at every member of a type array with `findIndex`. The live code instead calls `getType` on the array itself (`props.ts:289`). `Array.prototype.toString` joins the members' sources with commas, so only the first member is classified, and an empty array gives `''` (`PropTypes.GetTypeOfList`).
- **Boolean-cast flags.** `NormalizedProp` declares `shouldCastBoolean` and `shouldCastTrue` (`props.ts:135-136`). Only commented-out code sets them (`props.ts:293-296`), so the model has only the attribute flag.

The unregister function returned by a lifecycle method looks up `currentInstance` when it is called, not when the callback was registered. The model does the same (`Component.CallUnregisterFunction`). Two scenarios show the consequences:

- Called after `setup` has returned, it removes nothing (`Component.UnregisterAfterSetup`).
- Called during another element's `setup`, it removes the callback from that other element (`Component.UnregisterDuringOtherSetup`).

## Model

| member | source | states |
|---|---|---|
| PropTypes.GetType | packages/better-vue-lit/src/props.ts:253-256 | `null` gives `'null'`; `undefined`, which `ctor && …` never prints, and `true`, whose printed form `"true"` never matches, give `''` |
| PropTypes.LeadingSpacesMaximal | packages/better-vue-lit/src/props.ts:254 | `\s*` is greedy: the prefix it takes is all white space and stops before a non-space |
| PropTypes.WordLengthMaximal | packages/better-vue-lit/src/props.ts:254 | `(\w+)` is greedy: the capture is all word characters and stops before a non-word character |
| PropTypes.NameMatchComplete | packages/better-vue-lit/src/props.ts:254 | white space, then `function ` or `class `, then an identifier not followed by a word character: the match captures exactly that identifier |
| PropTypes.NameMatchSound | packages/better-vue-lit/src/props.ts:254 | conversely, every match splits the text into white space, a keyword, the captured identifier and a rest that does not start with a word character |
| PropTypes.NameMatchBeforeComma | packages/better-vue-lit/src/props.ts:254 | the match on `a + "," + c` is the match on `a` |
| PropTypes.GetTypeOfList | packages/better-vue-lit/src/props.ts:254 | a constructor array is classified by its first member alone; an empty array gives `''` |
| PropTypes.NameMatch | packages/better-vue-lit/src/props.ts:254 | the scanner for `/^\s*(function\|class) (\w+)/`: skip white space, require `function ` or `class `, then capture the maximal run of word characters, or fail when that run is empty |
| PropTypes.IsAttributeType | packages/better-vue-lit/src/props.ts:262-264 | `makeMap('String,Number,Boolean')`: a type name is an attribute type exactly when it is one of those three |
| PropTypes.GetTypeOfNamedConstructor | packages/better-vue-lit/src/props.ts:253-256 | for a native constructor `function N() { [native code] }` and for a class `class N …`, getType returns `N` |
| PropTypes.AttributeTypeOfBuiltin | packages/better-vue-lit/src/props.ts:262-264 | a built-in constructor is an attribute type exactly when it is String, Number or Boolean |
| Dicts.Put | packages/better-vue-lit/src/props.ts:286 | assigning a new key appends it to the enumeration order; assigning an existing key keeps its place and replaces its value; the order keeps listing exactly the keys |
| Dicts.PutKeepsDistinct | packages/better-vue-lit/src/props.ts:286 | an assignment never lists a key twice |
| Props.NormalizeOption | packages/better-vue-lit/src/props.ts:286-290 | the descriptor stored for one option: `null` for `null`; `{ type: opt }` with the flag for a constructor or array; the options object itself with the flag for an options object |
| Props.Normalize | packages/better-vue-lit/src/props.ts:266-307 | `normalizePropsOptions` on values: the list branch, the keyed branch, and an empty result for `null` and non-objects; the result always lists exactly its keys |
| Props.NormalizeNames | packages/better-vue-lit/src/props.ts:268-279 | the array branch on values: starting from `{}`, each name in turn assigns the list descriptor under its camel-cased key; the result lists exactly its keys |
| Props.Collect | packages/better-vue-lit/src/props.ts:283-286 | the `for…in` assignments `normalized[camelize(key)] = …` in turn, before normalisation: a later key that camel-cases alike overwrites in place; the result lists exactly its keys |
| Props.NormalizeEntries | packages/better-vue-lit/src/props.ts:283-299 | the keyed branch on values: starting from `{}`, each entry in turn assigns its normalised option under its camel-cased key; the result lists exactly its keys |
| Props.WithFlag | packages/better-vue-lit/src/props.ts:289 | an options object after `prop[PropFlags.attribute] = isAttributeType(getType(prop.type))`: only the attribute key changes |
| Props.NameListDeclaration | packages/better-vue-lit/src/props.ts:267-279 | list form: every name gets `{ type: null, attribute: true }` under its camel-cased key, there are no other keys, and every key is observed |
| Props.NormalizeNamesShape | packages/better-vue-lit/src/props.ts:269-277 | the list loop's keys are the camel-cased names, and each holds the list descriptor |
| Props.DeclaredKeysKept | packages/better-vue-lit/src/props.ts:266-307 | the result's keys are exactly the camel-cased declared keys; `null` and a non-object declare none, so their result is empty |
| Props.CollectKeys | packages/better-vue-lit/src/props.ts:284-286 | assigning the entries in turn leaves exactly their camel-cased keys |
| Props.CollectLastWins | packages/better-vue-lit/src/props.ts:284-286 | when two declared keys camel-case alike, the later entry decides the descriptor |
| Props.NormalizeEntriesCollect | packages/better-vue-lit/src/props.ts:283-299 | normalising in turn equals normalising, under each key, the last entry assigned to it, in the same key order |
| Props.KeyedEntry | packages/better-vue-lit/src/props.ts:285-290 | object form, per entry: `null` gives the `null` descriptor with no flag; a constructor or array gives `{ type: opt }` plus the flag; an options object keeps all its keys and only gets the flag, which is `isAttributeType(getType(type))` |
| Props.KeyedDeclaration | packages/better-vue-lit/src/props.ts:286-290 | object form as a whole: every non-null descriptor carries its flag, and a key is observed exactly when its flag is true |
| Props.EntriesFlagged | packages/better-vue-lit/src/props.ts:287-289 | every descriptor the object form stores carries the written flag |
| Props.ObservedAttributes | packages/better-vue-lit/src/index.ts:45 | the filter-and-map over `Object.entries(normalized)`: the keys, in enumeration order, whose descriptor is non-null with the attribute flag true |
| Props.Reflected | packages/better-vue-lit/src/index.ts:45 | the filter's test `v && v[PropFlags.attribute]`: the descriptor is non-null and its attribute flag is `true` |
| Props.ObservedMembers | packages/better-vue-lit/src/index.ts:45 | the filter keeps a key exactly when its descriptor is non-null and its attribute flag is true |
| Props.ObservedAllReflected | packages/better-vue-lit/src/index.ts:45 | when every key is reflected, the filter returns the keys in their order |
| Props.ObservedAttributesMembers | packages/better-vue-lit/src/index.ts:45 | the observed attributes are the normalised keys with a reflected descriptor |
| Props.NormalizeDistinct | packages/better-vue-lit/src/index.ts:45 | every normalised key is listed once, so the observed attributes never repeat a name |
| Props.PropOptionsObject.constructor | packages/better-vue-lit/src/props.ts:286 | the new object reads as exactly the options it is built from |
| Props.PropOptionsObject.WriteFlag | packages/better-vue-lit/src/props.ts:289 | writing the flag changes the attribute key and nothing else |
| Props.NormalizePropsOptions | packages/better-vue-lit/src/props.ts:266-307 | the dictionary it returns, read through its objects, is `Normalize` of the declaration as it read before the call; each caller's options object gets only its flag; in the object form every stored object is the caller's own object for that key, `null` for `null`, or an object that is none of the caller's; in the list form every stored object is new and no two keys share one |
| Props.NormalizeNameList | packages/better-vue-lit/src/props.ts:267-279 | the array loop builds, name by name, the list form of `Normalize`; each descriptor is an object allocated by the call, and no two keys share one |
| Props.NormalizeKeyed | packages/better-vue-lit/src/props.ts:282-302 | the `for…in` loop builds the object form of `Normalize` over the options as they read before the loop, and leaves each caller's options object as it was with only its flag written |
| Props.KeyedTurnStep | packages/better-vue-lit/src/props.ts:284-290 | one turn of the `for…in` loop keeps the loop invariant |
| Props.StoreOption | packages/better-vue-lit/src/props.ts:286-290 | one assignment `normalized[camelize(key)] = …` and its flag write: the view is the previous view with the key's normalised option assigned |
| Props.PropFor | packages/better-vue-lit/src/props.ts:286 | `null` stays null, an options object is reused as is, and a constructor or array is wrapped in a new `{ type: opt }`; in every case the normalised option is the stored object's descriptor once its flag is written |
| Props.FlagStored | packages/better-vue-lit/src/props.ts:287-290 | `if (prop)` the flag is written: the dictionary then reads as before, with only the new key's descriptor flagged, even where other keys alias the same object |
| Lifecycle.HookNamesComplete | packages/better-vue-lit/src/index.ts:17 | `hookNames` lists every hook, and no two of them share a key |
| Lifecycle.EmptyBuckets | packages/better-vue-lit/src/index.ts:59-61 | the constructor's loop leaves a bucket, empty, for every hook |
| Lifecycle.Add | packages/better-vue-lit/src/index.ts:112 | `Set.add`: a new callback goes last, a present one stays where it is |
| Lifecycle.Delete | packages/better-vue-lit/src/index.ts:116 | `Set.delete`: the callback is removed and the others keep their order, so the set never grows |
| Lifecycle.AddMembers | packages/better-vue-lit/src/index.ts:112 | `Set.add` adds exactly the callback and keeps the set free of repeats |
| Lifecycle.AddTwice | packages/better-vue-lit/src/index.ts:112 | adding twice is adding once |
| Lifecycle.DeleteMembers | packages/better-vue-lit/src/index.ts:116 | `Set.delete` removes exactly the callback |
| Lifecycle.DeleteKeepsNoRepeats | packages/better-vue-lit/src/index.ts:116 | deleting keeps a set free of repeats |
| Lifecycle.DeleteAfterAdd | packages/better-vue-lit/src/index.ts:116 | deleting a callback just added to a set that lacked it restores the set |
| Lifecycle.DeleteTwice | packages/better-vue-lit/src/index.ts:116 | deleting a callback that was already deleted changes nothing |
| Lifecycle.DeleteAppend | packages/better-vue-lit/src/index.ts:116 | deleting keeps the insertion order of the rest |
| Lifecycle.RegisterIn | packages/better-vue-lit/src/index.ts:109-113 | `currentInstance._hooks.get(name)?.add(cb)` on the buckets: adds to the hook's bucket, and changes nothing when that bucket is missing |
| Lifecycle.UnregisterIn | packages/better-vue-lit/src/index.ts:114-118 | `currentInstance._hooks.get(name)?.delete(cb)` on the buckets: deletes from the hook's bucket, and changes nothing when that bucket is missing |
| Lifecycle.RegisterInEffect | packages/better-vue-lit/src/index.ts:109-113 | a registration touches only the hook's own bucket, where the callback is then present, and registering twice is registering once |
| Lifecycle.UnregisterInEffect | packages/better-vue-lit/src/index.ts:114-118 | an unregistration touches only the hook's own bucket and removes only the callback; unregistering twice is unregistering once, and it undoes a registration of a callback that was absent |
| Lifecycle.UnregisterTwice | packages/better-vue-lit/src/index.ts:114-118 | calling the same unregister function twice is calling it once |
| Lifecycle.UnregisterUndoes | packages/better-vue-lit/src/index.ts:109-118 | unregistering a callback just registered on a bucket that lacked it restores the buckets exactly |
| Lifecycle.ExportsNamed | packages/better-vue-lit/src/index.ts:122-126 | `onBeforeMount`, `onMounted`, `onBeforeUpdate`, `onUpdated` and `onUnmounted` are the lifecycle methods of `_bm`, `_m`, `_bu`, `_u` and `_um`; the i-th export belongs to the i-th of `hookNames`, so with `HookNamesComplete` every hook has an export |
| Lifecycle.SetupStepIn | packages/better-vue-lit/src/index.ts:109-118 | one call made by `setup` with this element current: a registration `RegisterIn`, or a call of an unregister function `UnregisterIn`, on the hook and callback it names |
| Lifecycle.RunSetup | packages/better-vue-lit/src/index.ts:67-71 | the buckets after `setup` runs with this element as `currentInstance`: its calls applied in order |
| Lifecycle.RunSetupKeys | packages/better-vue-lit/src/index.ts:67-71 | setup never adds or removes a bucket, so the element keeps exactly the five buckets |
| Lifecycle.RunSetupNoRepeats | packages/better-vue-lit/src/index.ts:67-71 | no bucket ever holds a callback twice |
| Lifecycle.SetupUndo | packages/better-vue-lit/src/index.ts:109-118 | registering and then unregistering while the same element is current leaves its buckets as they were, when the callback was not already in that bucket |
| Lifecycle.SetupRegistersOne | packages/better-vue-lit/src/index.ts:109-113 | a setup that registers one `onMounted` callback leaves exactly that callback in `_m` |
| Lifecycle.Fire | packages/better-vue-lit/src/index.ts:103 | the `forEach((cb) => cb())` over a bucket: one call event per callback, in insertion order, as many as the bucket holds |
| Lifecycle.FireOnce | packages/better-vue-lit/src/index.ts:102-104 | `_runHooks` on a bucket without repeats calls each of its callbacks exactly once and no other callback |
| Lifecycle.RunHooks | packages/better-vue-lit/src/index.ts:102-104 | `_runHooks(name)`: appends one call event per callback of the bucket, in insertion order, and nothing for a missing bucket |
| Lifecycle.EffectBody | packages/better-vue-lit/src/index.ts:77-89 | the effect body: `_bu` only when mounted, then the render, then `_u` when mounted or else setting `isMounted` |
| Lifecycle.Construct | packages/better-vue-lit/src/index.ts:56-90 | the constructor: empty buckets, then setup, then `_bm`, then the shadow root, then the first render pass |
| Lifecycle.RenderPass | packages/better-vue-lit/src/index.ts:87-89 | a re-run of the effect scheduled by the reactive engine, which a stopped scope suppresses |
| Lifecycle.Connect | packages/better-vue-lit/src/index.ts:91-93 | `connectedCallback`: `_runHooks('_m')` |
| Lifecycle.Disconnect | packages/better-vue-lit/src/index.ts:94-97 | `disconnectedCallback`: `_runHooks('_um')`, then the scope is stopped |
| Lifecycle.AttributeChanged | packages/better-vue-lit/src/index.ts:98-100 | `attributeChangedCallback`: `props[name] = newValue`, with the old value ignored |
| Lifecycle.ConstructOrder | packages/better-vue-lit/src/index.ts:56-90 | construction runs setup, fires the `_bm` callbacks, attaches the shadow root, then renders once without `_bu` or `_u`; the element is left mounted and not stopped, with no props and every bucket present and free of repeats |
| Lifecycle.LaterPass | packages/better-vue-lit/src/index.ts:77-87 | every pass after the first fires `_bu`, renders, fires `_u`, and changes nothing else |
| Lifecycle.ConnectFiresMounted | packages/better-vue-lit/src/index.ts:91-93 | connecting fires the `_m` callbacks and nothing else |
| Lifecycle.DisconnectStops | packages/better-vue-lit/src/index.ts:94-97 | disconnecting fires the `_um` callbacks, then stops the scope |
| Lifecycle.AttributeWrites | packages/better-vue-lit/src/index.ts:98-100 | an attribute change writes `props[name]` and leaves every other prop and all other state unchanged |
| Lifecycle.StepMonotone | packages/better-vue-lit/src/index.ts:77-100 | no input changes the buckets or the template, unmounts, restarts the scope or rewrites the trace so far |
| Lifecycle.RunMonotone | packages/better-vue-lit/src/index.ts:77-100 | over any sequence of inputs the buckets stay as they are, `isMounted` never goes back to false, a stopped scope stays stopped, and the trace only grows |
| Lifecycle.StopIsFinal | packages/better-vue-lit/src/index.ts:94-97 | after disconnect no render pass happens: only `_m` and `_um` callbacks can still fire |
| Component.Runtime.constructor | packages/better-vue-lit/src/index.ts:25 | `currentInstance` starts as null |
| Component.DefineComponent | packages/better-vue-lit/src/index.ts:41-45 | `options.props \|\| {}` is normalised, and the observed attributes are `ObservedAttributes` of the normalised value |
| Component.Element.constructor | packages/better-vue-lit/src/index.ts:56-90 | the new element's state is `Construct(setup)`, and `currentInstance` is null again afterwards |
| Component.Element.InitBuckets | packages/better-vue-lit/src/index.ts:59-61 | the `forEach` loop creates an empty bucket for every hook name |
| Component.Element.RunSetupSteps | packages/better-vue-lit/src/index.ts:67-71 | setup's registrations, run with this element current, give `RunSetup`, and the element stays current throughout |
| Component.Element.RunHooks | packages/better-vue-lit/src/index.ts:102-104 | the bucket's callbacks fire in insertion order |
| Component.Element.EffectBody | packages/better-vue-lit/src/index.ts:77-89 | one render pass, as `Lifecycle.EffectBody` |
| Component.Element.RenderPass | packages/better-vue-lit/src/index.ts:87-89 | the effect re-runs only while its scope is not stopped |
| Component.Element.ConnectedCallback | packages/better-vue-lit/src/index.ts:91-93 | as `Lifecycle.Connect` |
| Component.Element.DisconnectedCallback | packages/better-vue-lit/src/index.ts:94-97 | as `Lifecycle.Disconnect` |
| Component.Element.AttributeChangedCallback | packages/better-vue-lit/src/index.ts:98-100 | as `Lifecycle.AttributeChanged` |
| Component.CallLifecycleMethod | packages/better-vue-lit/src/index.ts:109-113 | with an instance current, only its bucket for the hook changes, by `RegisterIn`; with none current, nothing changes; the unregister closure captures only the hook and the callback |
| Component.CallUnregisterFunction | packages/better-vue-lit/src/index.ts:114-118 | the callback is removed from whichever instance is current when the closure is called; with none current, nothing changes |
| Component.UnregisterAfterSetup | packages/better-vue-lit/src/index.ts:114-118 | an unregister function called after setup has returned removes nothing, and the callback still fires on connect |
| Component.UnregisterDuringOtherSetup | packages/better-vue-lit/src/index.ts:114-118 | an unregister function called during another element's setup removes the callback from that element, not from the one it was registered on |

## Left out

- Dicts.Put: the key `"__proto__"` is treated as an ordinary key. In JavaScript, assigning `normalized["__proto__"]` on a plain `{}` (props.ts:274 and 286) calls the prototype setter and creates no own key, so `Object.entries` at index.ts:45 skips it. The model has no prototype. So for that key `Props.DeclaredKeysKept`, `Props.NameListDeclaration` and `Props.ObservedAttributes` keep a key that JavaScript drops.
- Component.DefineComponent: `options = options || {}` and `options.props = options.props || {}` (index.ts:41-42) write `props: {}` into the caller's options object when it has none. The model takes the props declaration alone and has no options object, so this write is not modelled. `emits` and any other component options are also not modelled.
- Object key order: JavaScript enumerates integer-like keys first, in numeric order. The model keeps insertion order for every key, because it has no notion of integer-like strings.
- Keys inherited through the prototype chain, which `for…in` would also visit.
- Option values that are primitives other than `null`: numbers, strings, `true` as an option. `undefined` as an option is folded into `null`: both are falsy and both get no flag.
- `EMPTY_ARR`, which is returned for `null` and for non-objects, is modelled as an empty dictionary. Both have no entries, so the observed attributes are the same.
- Props.NormalizePropsOptions: for the object form, a wrapped constructor is stated to be none of the caller's options objects, rather than freshly allocated. Freshness is stated only for the list form.
- `camelize` and `makeMap` come from another package and are not part of this model. `camelize` is a parameter, and `isAttributeType` is the three-name predicate.
- `@vue/reactivity`: there is no dependency tracking or scheduling. A re-run of the effect is the `Triggered` input, and `effectScope().stop()` is the `stopped` flag.
- `shallowReactive` props are a plain map.
- `lit-html` `render` and `attachShadow` are trace events. The closed shadow root is not modelled further.
- Exceptions: setup, render and callbacks never throw. So the model does not cover `currentInstance` staying set after a throwing setup.
- Callbacks have no side effects. A callback that registers, unregisters or constructs another element while hooks run is not modelled, and neither is a nested element construction inside setup.
- HTML lower-casing of attribute names by the browser, and `customElements.define`.
- Strings are sequences of characters, not UTF-16 code units. `\s` and `\w` are written out as character classes.
- `console.log` calls are I/O.
- The type-level declarations and the commented-out code in `props.ts`, which have no run-time behaviour.
