# window-scroll-manager, modelled in Dafny

window-scroll-manager is a small browser library. `new ScrollManager()`
hands every consumer the same process-wide object. The first construction
attaches one `scroll` listener on `window`. Each construction counts one more
reference, and `removeListener()` gives one back. When the count reaches 0,
`destroy()` detaches the listener and clears the singleton. Native scroll
events are throttled: the first one while idle sets `ticking` and requests an
animation frame. Later ones are ignored until that frame runs. The frame
callback reads the scroll offset at that moment (`window.scrollY`, or
`document.documentElement.scrollTop` when `scrollY` is 0), stores it in the
object's `scrollPosition`, and dispatches one `window-scroll` event whose
`detail.scrollPosition` carries it. Then it clears `ticking`.

The project has three modules:

- `scroll_state.dfy`, module `ScrollState`. It holds the state as values.
  `State` has the closure variables `instance`, `instancesCount` and
  `ticking`, the per-object fields `eventListenerOptions` and
  `scrollPosition` (maps keyed by object identity), and an `Environment`
  for the browser. The environment has the attached listeners
  (handler and options), the queue of pending frame callbacks, the log of
  dispatched events, and the two offsets. Every step is one function:
  `Construct`, `RemoveListener`, `Destroy`, `HandleScroll`, `FrameCallback`,
  `OnScroll` (the browser delivering a native scroll) and `RunFrame` (the
  browser running a frame).
- `scroll_runtime.dfy`, module `ScrollRuntime`. It holds the same behaviour
  as code that changes state in place. Class `Window` stands for the browser.
  Class `ScrollManagerModule` owns the closure variables. Each of its methods
  is proved to take exactly the step of the matching `ScrollState` function.
- `scroll_properties.dfy`, module `ScrollProperties`. It defines traces of
  steps and proves what they do. Objects are named by identities, so traces
  can call `removeListener` or `destroy` on a stale object.

A ScrollManager object is an `Id`. The handler it binds with
`handleScroll.bind(this)` is identified by the same `Id`.
`removeEventListener` removes the registration with the same handler and the
same capture flag. `addEventListener` ignores a registration that matches one
already attached.

A reference-counted singleton would be expected to keep its count at 0 or
above, to broadcast nothing after the last release, and to start a new
instance at count 1. The code does none of these, and the model follows the
code:
- The code decrements the count without a guard and tests `=== 0`.
  `RemoveListener` does the same, and `OverReleaseLeaksListener` shows that
  a double release drives the count to -1 and leaks the next listener.
- `destroy` leaves `ticking` and the frame already requested untouched, so
  that frame still dispatches after the last release
  (`PendingFrameSurvivesDestroy`, `IdleAfterLastRelease`). Beyond that one
  frame nothing is dispatched until the next construction (`IdleUntilAcquire`).
- The code increments the count on every construction, so after an
  over-release a new instance starts at 0.

There is one exception, outside the browser. `new ScrollManager()` without a
`window` is meant to yield null, but JavaScript's `new` ignores a `null`
returned by a constructor (see "## Findings"). `ScrollState.ConstructAsWritten`
models the code as written, and `ScrollProperties.ServerConstructionYieldsObject`
shows the difference. The `NewManager` trace step (`ScrollProperties.Apply`)
and `ScrollRuntime.ScrollManagerModule.Construct` use the corrected
`ScrollState.Construct`, which yields null and changes nothing there. Inside a
browser the two constructions are the same.

## Model

| member | source | states |
|---|---|---|
| `ScrollState.OptionsFor` | index.js:70 | the listener options use the capture flag exactly when passive listeners are not supported |
| `ScrollState.Attach` | index.js:73 | adding a listener changes only the listener list. A new registration is appended at the end. A registration matching an attached one (same handler, same capture) leaves the window unchanged |
| `ScrollState.RemoveMatching` | index.js:87 | removing a listener keeps exactly the registrations that do not match handler and capture flag; with no match the list is unchanged |
| `ScrollState.RemoveMatchingAppend` | index.js:87 | removal distributes over concatenation, so the registrations that stay keep their relative order |
| `ScrollState.GetScrollPosition` | index.js:94-97 | the position is `scrollY` when it is non-zero (truthy), otherwise `scrollTop`; it is 0 only when both offsets are 0 |
| `ScrollState.Construct` | index.js:49-74 | outside a browser: no object, nothing changes. In a browser: the count goes up by one and the caller gets the instance. If one was live, that same instance is returned and nothing else changes. Otherwise a new identity becomes the instance, records its options, and exactly its registration is added. When the new identity is not yet listening, its registration is appended at the end. Ticking, frames, events, offsets and passive support are untouched |
| `ScrollState.ConstructAsWritten` | index.js:49-53 | outside a browser, `new` yields an object with a fresh identity and leaves the instance and the count unchanged; in a browser it is `Construct` |
| `ScrollState.Destroy` | index.js:85-92 | the instance becomes null and the count 0, whichever object it is called on. The registrations removed are exactly those matching the calling object's handler and options. Ticking, the pending frame, the event log, the offsets and passive support are untouched |
| `ScrollState.RemoveListener` | index.js:76-83 | the count goes down by one, with no clamping. Destroy runs through the calling object exactly when the count was 1. Otherwise nothing else changes |
| `ScrollState.HandleScroll` | index.js:100-106 | afterwards ticking is set. While ticking nothing changes. When idle, exactly one frame callback is queued, capturing the calling object, and nothing else changes |
| `ScrollState.FrameCallback` | index.js:106-118 | the calling object's `scrollPosition` becomes the offset read when the callback runs. Exactly one `window-scroll` event carrying that stored value is dispatched. Ticking is cleared and nothing else changes |
| `ScrollState.DeliverScroll` | index.js:100-106 | delivering one native scroll to a list of handlers leaves ticking set when any handler ran. Only the first handler to run while idle queues a frame. Only ticking and the frame queue change |
| `ScrollState.RunCallbacks` | index.js:106-118 | running n queued callbacks appends exactly n events, each carrying the current offset. Ticking ends cleared when n > 0. Every queued object's `scrollPosition` becomes the current offset; every other object keeps its own or still has none. The instance, count, listeners and frames are unchanged |
| `ScrollState.RunFrame` | index.js:106-118 | a frame empties the queue and dispatches one event per queued callback, each carrying the offset at frame time. Earlier events are kept and ticking is cleared when a callback ran. Each object whose callback was queued now has the frame-time offset as its `scrollPosition`; other objects keep theirs |
| `ScrollRuntime.ScrollManagerModule.constructor` | index.js:4-7 | the library loads with no instance, a count of 0, ticking clear, and a window with no listeners, frames or events |
| `ScrollRuntime.ScrollManagerModule.Construct` | index.js:49-74 | the in-place constructor leaves exactly the state `ScrollState.Construct` describes and returns its object |
| `ScrollRuntime.ScrollManagerModule.RemoveListener` | index.js:76-83 | the in-place `removeListener` takes exactly the `ScrollState.RemoveListener` step |
| `ScrollRuntime.ScrollManagerModule.Destroy` | index.js:85-92 | the in-place `destroy` takes exactly the `ScrollState.Destroy` step |
| `ScrollRuntime.ScrollManagerModule.GetScrollPosition` | index.js:94-97 | the in-place read returns `ScrollState.GetScrollPosition` of the window and changes nothing |
| `ScrollRuntime.ScrollManagerModule.HandleScroll` | index.js:100-106 | the bound handler takes exactly the `ScrollState.HandleScroll` step |
| `ScrollRuntime.ScrollManagerModule.FrameCallback` | index.js:106-118 | the frame callback takes exactly the `ScrollState.FrameCallback` step |
| `ScrollRuntime.ScrollManagerModule.OnScroll` | index.js:100-106 | the loop that calls every attached handler for one native scroll takes exactly the `ScrollState.OnScroll` step |
| `ScrollRuntime.ScrollManagerModule.RunFrame` | index.js:106-118 | the loop that runs every callback taken from the frame queue takes exactly the `ScrollState.RunFrame` step |
| `ScrollProperties.InitialState` | index.js:4-6 | the initial state has no instance, nothing attached and no frame pending, and satisfies all three invariants |
| `ScrollProperties.ThrottledStep` | index.js:100-117 | every step, on any object, keeps the throttle invariant: at most one frame is pending, and one is pending exactly when ticking is set |
| `ScrollProperties.ThrottledTrace` | index.js:100-117 | every trace keeps the throttle invariant, including traces through stale objects, so at most one frame is ever pending |
| `ScrollProperties.OneEventPerFrame` | index.js:106-117 | a frame appends exactly one event, carrying the offset at frame time, when ticking was set, and none otherwise. It leaves the throttle idle |
| `ScrollProperties.WellFormedStep` | index.js:63-73 | every step, on any object, keeps options and listeners consistent: each attached listener is the handler of an initialised object, with the options passive support dictates |
| `ScrollProperties.WellFormedTrace` | index.js:63-73 | every trace keeps options and listeners consistent |
| `ScrollProperties.DestroyLive` | index.js:85-87 | destroy called on the live instance detaches its listener, leaving none |
| `ScrollProperties.SingleListenerStep` | index.js:55-91 | construction, and removeListener or destroy on the live instance, keep the singleton invariant: with no instance nothing is attached and the count is 0; with one, exactly its listener is attached and the count is positive |
| `ScrollProperties.SingleListenerTrace` | index.js:55-91 | while removeListener and destroy are called only on the live instance, at most one listener is attached, and one is attached exactly when there is an instance |
| `ScrollProperties.DestroyStale` | index.js:85-91 | destroy called on an object that is not the live instance detaches nothing, yet nulls the instance and zeroes the count, so the singleton invariant no longer holds |
| `ScrollProperties.ConstructBesideOrphan` | index.js:59-73 | with no instance but a listener still attached, a construction appends a second listener |
| `ScrollProperties.StaleDestroyBreaksSingleListener` | index.js:55-91 | from any idle state: construct, release, construct, `destroy` on the first (stale) object, construct. Every step except the stale destroy is on the live instance. The stale destroy breaks the invariant, and the trace ends with two listeners attached |
| `ScrollProperties.StaleDestroyAttachesTwice` | index.js:81-91 | the same trace from the freshly loaded library leaves the listeners of objects 1 and 2 attached, with 2 as the instance. The throttle still dispatches one event for the next scroll and frame. That frame stores the offset in object 1's `scrollPosition` and never in that of the live instance 2 |
| `ScrollProperties.OverReleaseLeaksListener` | index.js:56-80 | releasing object 0 a second time, after its release already destroyed it, sets the count to -1 and detaches nothing. The next construction makes object 1 the instance at count 0, and releasing it gives -1 again without detaching its listener |
| `ScrollProperties.AcquireWhileLive` | index.js:55-61 | n constructions while an instance is live only raise the count by n |
| `ScrollProperties.ReleaseAll` | index.js:76-91 | n releases of an instance holding n references form a live trace. They clear the instance and the count and detach the listener |
| `ScrollProperties.ConstructFromIdle` | index.js:63-73 | with no instance, a construction makes a fresh object the instance with count 1 and attaches exactly its listener |
| `ScrollProperties.AcquireFromIdle` | index.js:55-73 | n constructions from no instance give one instance, a count of n and exactly one attached listener |
| `ScrollProperties.PartialRelease` | index.js:76-80 | k < n releases of the live instance holding n references form a live trace that only lowers the count to n - k; the instance and its listener stay |
| `ScrollProperties.RefCountSymmetry` | index.js:55-91 | n constructions from idle attach one listener with count n. After each of the first n - 1 releases that listener is still the only one attached and the count is n - k. The n-th release detaches it. The next construction makes a new object and attaches a fresh listener |
| `ScrollProperties.ScrollsSchedule` | index.js:100-106 | a burst of scrolls, while a listener is attached or a frame is pending, leaves exactly one frame pending. It dispatches nothing and leaves the page at the last offsets |
| `ScrollProperties.CoalescedScrolls` | index.js:100-117 | K >= 1 scrolls before a frame produce exactly one event, carrying the offset read at frame time, that is, the last offset. Afterwards the throttle is idle |
| `ScrollProperties.ScrollsWithoutListener` | index.js:100-106 | with nothing attached, scrolls change neither ticking, nor the frames, nor the events |
| `ScrollProperties.IdleUntilAcquire` | index.js:76-117 | with nothing attached, any trace without a construction in a browser (scrolls, frames, releases and destroys through any handle, in any order) keeps the listeners empty and the throttle invariant, keeps earlier events, and dispatches at most the one event of a frame already pending: the number of events plus pending frames stays constant |
| `ScrollProperties.IdleAfterLastRelease` | index.js:85-117 | after the last release, a burst of scrolls and a frame dispatch only the event of a frame already pending, and one further frame dispatches nothing |
| `ScrollProperties.PendingFrameSurvivesDestroy` | index.js:85-117 | destroy leaves ticking set, so a frame pending at that time still dispatches its event |
| `ScrollProperties.ServerConstructionYieldsObject` | index.js:50-53 | as written, construction outside a browser yields an uninitialised object, and releasing it still lowers the shared count. The intended construction yields null and changes nothing |

## Left out

- Passive-option detection (index.js:14-24). Whether passive listeners are supported is an input fixed when the library loads.
- The CustomEvent polyfill (index.js:29-44). An event is its name and `detail.scrollPosition`.
- The CommonJS, AMD and global export block (index.js:122-132).
- Real browser APIs and timing. Listener registration, the frame queue and event dispatch are part of the modelled environment. A frame runs only when a trace takes an `AnimationFrame` step.
- With the capture option, `scroll` events of inner elements also reach the handler. Every delivered `scroll` is one `NativeScroll` step.
- Reentrancy: a `window-scroll` listener that calls back into the manager while the event is dispatched is not modelled.
- Offsets are integers. Fractional offsets are not modelled, but the zero-is-falsy fallback of line 96 is kept.
- `instancesCount` is an unbounded integer. JavaScript's number precision limit is not modelled.
- `Function.prototype.bind` is modelled by identifying a handler with its object. Constructor return-override is modelled by returning the live instance.
- ScrollState.ConstructAsWritten: only the creation of the server-side object is modelled. A later `destroy` or `getScrollPosition` on it would throw because `window` is undefined, and that is not modelled.

## Findings

| source | as written | input that shows it | evidently intended | confidence | as-written member | corrected member |
|---|---|---|---|---|---|---|
| index.js:50-53 | `return null` in a constructor called with `new` is ignored, because the return value is not an object. The caller gets the fresh, never initialised object | `new ScrollManager()` where `window` is undefined (server-side rendering). Calling `removeListener()` on the result then lowers `instancesCount` to -1 | the constructor yields null and changes nothing, as the comment on line 51 says | high (ECMAScript `new` semantics); not executed | `ScrollState.ConstructAsWritten` (discrepancy shown by `ScrollProperties.ServerConstructionYieldsObject`) | `ScrollState.Construct` |
