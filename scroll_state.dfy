/**
 * The state of window-scroll-manager's ScrollManager and of the browser
 * window it talks to, as values. Every step a page can take (constructing a
 * manager, releasing it, destroying it, a native scroll, an animation frame)
 * is a function from State to State here; the classes in ScrollRuntime are
 * proved to perform exactly these steps, and ScrollProperties proves what
 * sequences of them do.
 */
module ScrollState {

  datatype Option<+T> = None | Some(value: T)

  /** Identity of a ScrollManager object. The handler it binds with
      `this.handleScroll.bind(this)` is identified by the same value. */
  type Id = nat

  /** Name of the event broadcast on window after each animation frame. */
  const EVENT_NAME: string := "window-scroll"

  /** Third argument of add/removeEventListener: `{passive: true}` or the boolean `true`. */
  datatype ListenerOptions = Passive | Capture {
    /** The capture flag the DOM reads from the options; `{passive: true}` leaves it unset. */
    predicate UsesCapture() { Capture? }
  }

  /** Options chosen when a manager attaches its listener. */
  function OptionsFor(supportsPassiveOption: bool): (o: ListenerOptions)
    ensures o.UsesCapture() <==> !supportsPassiveOption
  {
    if supportsPassiveOption then Passive else Capture
  }

  /** A 'scroll' listener attached on window: the bound handler and its options. */
  datatype Registration = Registration(handler: Id, options: ListenerOptions)

  /** A dispatched CustomEvent with its `detail.scrollPosition`. */
  datatype ScrollEvent = ScrollEvent(name: string, scrollPosition: int)

  /** The part of the browser the manager uses. */
  datatype Environment = Environment(
    listeners: seq<Registration>,  // 'scroll' listeners on window, in attachment order
    frames: seq<Id>,               // pending animation-frame callbacks, by the `self` they captured
    dispatched: seq<ScrollEvent>,  // events dispatched on window so far
    scrollY: int,                  // window.scrollY
    scrollTop: int)                // document.documentElement.scrollTop

  /** The variables of the library's closure and the per-object fields it sets. */
  datatype State = State(
    supportsPassiveOption: bool,               // fixed before any construction
    instance: Option<Id>,                      // the singleton, or null
    instancesCount: int,                       // reference count; negative after over-release
    ticking: bool,                             // a frame callback is pending
    nextId: Id,                                // identity the next new object receives
    listenerOptions: map<Id, ListenerOptions>, // `eventListenerOptions` of each initialised object
    scrollPositions: map<Id, int>,             // `scrollPosition` of each object a frame has updated
    env: Environment)

  function Initial(supportsPassiveOption: bool, scrollY: int, scrollTop: int): State
  {
    State(supportsPassiveOption, None, 0, false, 0, map[], map[], Environment([], [], [], scrollY, scrollTop))
  }

  // ---------------------------------------------------------------------
  // The window primitives
  // ---------------------------------------------------------------------

  /** How removeEventListener (and duplicate detection in addEventListener)
      identifies a registration: same handler, same capture flag. */
  predicate Matches(r: Registration, handler: Id, capture: bool)
  {
    r.handler == handler && r.options.UsesCapture() == capture
  }

  predicate Listening(listeners: seq<Registration>, handler: Id, capture: bool)
  {
    exists r :: r in listeners && Matches(r, handler, capture)
  }

  /** addEventListener('scroll', handler, options): a registration equal on
      handler and capture to an existing one is not added twice. */
  function Attach(env: Environment, reg: Registration): (e: Environment)
    ensures e == env.(listeners := e.listeners)
    ensures forall r :: r in e.listeners <==> r in env.listeners || r == reg
    ensures Listening(env.listeners, reg.handler, reg.options.UsesCapture()) ==> e == env
    ensures !Listening(env.listeners, reg.handler, reg.options.UsesCapture()) ==> e.listeners == env.listeners + [reg]
  {
    if Listening(env.listeners, reg.handler, reg.options.UsesCapture()) then env
    else env.(listeners := env.listeners + [reg])
  }

  /** The listeners left after removing every one that matches. */
  function RemoveMatching(listeners: seq<Registration>, handler: Id, capture: bool): (rest: seq<Registration>)
    ensures forall r :: r in rest <==> r in listeners && !Matches(r, handler, capture)
    ensures !Listening(listeners, handler, capture) ==> rest == listeners
    ensures |rest| <= |listeners|
  {
    if listeners == [] then []
    else if Matches(listeners[0], handler, capture) then RemoveMatching(listeners[1..], handler, capture)
    else [listeners[0]] + RemoveMatching(listeners[1..], handler, capture)
  }

  /** Removal works registration by registration, so the listeners that stay
      keep their relative order. */
  lemma {:induction false} RemoveMatchingAppend(a: seq<Registration>, b: seq<Registration>, handler: Id, capture: bool)
    ensures RemoveMatching(a + b, handler, capture) == RemoveMatching(a, handler, capture) + RemoveMatching(b, handler, capture)
    decreases |a|
  {
    if a == [] {
      assert a + b == b;
    } else {
      assert (a + b)[0] == a[0];
      assert (a + b)[1..] == a[1..] + b;
      RemoveMatchingAppend(a[1..], b, handler, capture);
      var ra := RemoveMatching(a[1..], handler, capture);
      var rb := RemoveMatching(b, handler, capture);
      if Matches(a[0], handler, capture) {
        assert RemoveMatching(a + b, handler, capture) == ra + rb;
      } else {
        assert RemoveMatching(a + b, handler, capture) == [a[0]] + (ra + rb);
        assert [a[0]] + (ra + rb) == ([a[0]] + ra) + rb;
      }
    }
  }

  /** removeEventListener('scroll', handler, options). */
  function Detach(env: Environment, handler: Id, capture: bool): Environment
  {
    env.(listeners := RemoveMatching(env.listeners, handler, capture))
  }

  /** requestAnimationFrame(callback) for the callback that captured `self`. */
  function Schedule(env: Environment, self: Id): Environment
  {
    env.(frames := env.frames + [self])
  }

  /** window.dispatchEvent(event). */
  function Dispatch(env: Environment, event: ScrollEvent): Environment
  {
    env.(dispatched := env.dispatched + [event])
  }

  /** The page is scrolled to new offsets (no event is fired by this alone). */
  function SetOffsets(s: State, scrollY: int, scrollTop: int): State
  {
    s.(env := s.env.(scrollY := scrollY, scrollTop := scrollTop))
  }

  // ---------------------------------------------------------------------
  // ScrollManager
  // ---------------------------------------------------------------------

  /** getScrollPosition: `window.scrollY || document.documentElement.scrollTop`,
      where a zero scrollY is falsy. */
  function GetScrollPosition(env: Environment): (r: int)
    ensures env.scrollY != 0 ==> r == env.scrollY
    ensures env.scrollY == 0 ==> r == env.scrollTop
    ensures r == 0 <==> env.scrollY == 0 && env.scrollTop == 0
  {
    if env.scrollY != 0 then env.scrollY else env.scrollTop
  }

  /** Result of `new ScrollManager()`: the new state and the object the caller receives. */
  datatype Constructed = Constructed(state: State, handle: Option<Id>)

  /** `new ScrollManager()` as its comment intends it: null outside a browser;
      otherwise count one more reference and return the live instance, or make
      the new object the instance and attach its scroll listener. */
  function Construct(s: State, isBrowser: bool): (r: Constructed)
    ensures !isBrowser ==> r.state == s && r.handle == None
    ensures isBrowser ==> r.state.instancesCount == s.instancesCount + 1
    ensures isBrowser ==> r.handle.Some? && r.state.instance == r.handle
    ensures isBrowser && s.instance.Some? ==> r.handle == s.instance && r.state == s.(instancesCount := s.instancesCount + 1)
    ensures isBrowser && s.instance.None? ==>
      && r.handle == Some(s.nextId)
      && r.state.nextId == s.nextId + 1
      && r.state.listenerOptions == s.listenerOptions[s.nextId := OptionsFor(s.supportsPassiveOption)]
      && (forall reg :: reg in r.state.env.listeners <==>
            reg in s.env.listeners || reg == Registration(s.nextId, OptionsFor(s.supportsPassiveOption)))
    ensures isBrowser && s.instance.None? && !Listening(s.env.listeners, s.nextId, OptionsFor(s.supportsPassiveOption).UsesCapture()) ==>
      r.state.env.listeners == s.env.listeners + [Registration(s.nextId, OptionsFor(s.supportsPassiveOption))]
    ensures r.state.env == s.env.(listeners := r.state.env.listeners)
    ensures r.state.supportsPassiveOption == s.supportsPassiveOption
    ensures r.state.ticking == s.ticking && r.state.env.frames == s.env.frames
    ensures r.state.env.dispatched == s.env.dispatched && r.state.scrollPositions == s.scrollPositions
  {
    if !isBrowser then Constructed(s, None)
    else
      var counted := s.(instancesCount := s.instancesCount + 1);
      if counted.instance.Some? then Constructed(counted, counted.instance)
      else
        var id := s.nextId;
        var options := OptionsFor(s.supportsPassiveOption);
        var created := counted.(instance := Some(id), nextId := id + 1,
                                listenerOptions := s.listenerOptions[id := options]);
        Constructed(created.(env := Attach(s.env, Registration(id, options))), Some(id))
  }

  /** `new ScrollManager()` as the code is written: outside a browser the
      constructor's `return null` is ignored by `new`, so the caller receives
      the fresh, never initialised object. */
  function ConstructAsWritten(s: State, isBrowser: bool): (r: Constructed)
    ensures !isBrowser ==> r.handle == Some(s.nextId) && r.state == s.(nextId := s.nextId + 1)
    ensures !isBrowser ==> r.state.instancesCount == s.instancesCount && r.state.instance == s.instance
    ensures isBrowser ==> r == Construct(s, true)
  {
    if !isBrowser then Constructed(s.(nextId := s.nextId + 1), Some(s.nextId))
    else Construct(s, true)
  }

  /** `destroy` called on object `self`: remove self's handler with self's
      options, then null the instance and zero the count, whoever is live.
      An object that never became the instance has only the unbound prototype
      handler, which is never attached, so nothing is removed for it. */
  function Destroy(s: State, self: Id): (r: State)
    ensures r.instance == None && r.instancesCount == 0
    ensures self in s.listenerOptions ==>
      forall reg :: reg in r.env.listeners <==>
        reg in s.env.listeners && !Matches(reg, self, s.listenerOptions[self].UsesCapture())
    ensures self !in s.listenerOptions ==> r.env == s.env
    ensures r.ticking == s.ticking && r.env.frames == s.env.frames && r.env.dispatched == s.env.dispatched
    ensures r.nextId == s.nextId && r.listenerOptions == s.listenerOptions && r.scrollPositions == s.scrollPositions
    ensures r.env == s.env.(listeners := r.env.listeners) && r.supportsPassiveOption == s.supportsPassiveOption
  {
    var env := if self in s.listenerOptions then Detach(s.env, self, s.listenerOptions[self].UsesCapture()) else s.env;
    s.(env := env, instance := None, instancesCount := 0)
  }

  /** `removeListener` called on object `self`: decrement the count and
      destroy through `self` exactly when the result is 0. */
  function RemoveListener(s: State, self: Id): (r: State)
    ensures r.instancesCount == s.instancesCount - 1
    ensures s.instancesCount != 1 ==> r == s.(instancesCount := s.instancesCount - 1)
    ensures s.instancesCount == 1 ==> r == Destroy(s, self)
  {
    var released := s.(instancesCount := s.instancesCount - 1);
    if released.instancesCount == 0 then Destroy(released, self) else released
  }

  /** The bound `handleScroll` of object `self`: when idle, set ticking and
      request one frame whose callback captured `self`; when ticking, nothing. */
  function HandleScroll(s: State, self: Id): (r: State)
    ensures r.ticking
    ensures s.ticking ==> r == s
    ensures !s.ticking ==> r == s.(ticking := true, env := s.env.(frames := s.env.frames + [self]))
  {
    if !s.ticking then s.(ticking := true, env := Schedule(s.env, self)) else s
  }

  /** The frame callback created by `handleScroll` for `self`: read the
      offset now, store it in self.scrollPosition, dispatch one event
      carrying it, clear ticking. */
  function FrameCallback(s: State, self: Id): (r: State)
    ensures self in r.scrollPositions && r.scrollPositions[self] == GetScrollPosition(s.env)
    ensures r.scrollPositions == s.scrollPositions[self := r.scrollPositions[self]]
    ensures r.env.dispatched == s.env.dispatched + [ScrollEvent(EVENT_NAME, r.scrollPositions[self])]
    ensures !r.ticking
    ensures r == s.(ticking := false, scrollPositions := r.scrollPositions, env := s.env.(dispatched := r.env.dispatched))
  {
    var positions := s.scrollPositions[self := GetScrollPosition(s.env)];
    s.(scrollPositions := positions,
       env := Dispatch(s.env, ScrollEvent(EVENT_NAME, positions[self])),
       ticking := false)
  }

  /** The browser calls each listener in `regs` in turn for one native scroll.
      Only ticking and the frame queue can change, and only the first handler
      to run while idle schedules a frame. */
  function DeliverScroll(s: State, regs: seq<Registration>): (r: State)
    ensures r == s.(ticking := r.ticking, env := s.env.(frames := r.env.frames))
    ensures r.ticking == (s.ticking || regs != [])
    ensures r.env.frames == if s.ticking || regs == [] then s.env.frames else s.env.frames + [regs[0].handler]
    decreases |regs|
  {
    if regs == [] then s else DeliverScroll(HandleScroll(s, regs[0].handler), regs[1..])
  }

  /** A native 'scroll' event on window, delivered to the attached listeners. */
  function OnScroll(s: State): State
  {
    DeliverScroll(s, s.env.listeners)
  }

  /** Run the frame callbacks `queue` in order. Each reads the same current
      offset, so each dispatches one event carrying it. */
  function RunCallbacks(s: State, queue: seq<Id>): (r: State)
    ensures queue == [] ==> r == s
    ensures queue != [] ==> !r.ticking
    ensures r.instance == s.instance && r.instancesCount == s.instancesCount && r.nextId == s.nextId
    ensures r.listenerOptions == s.listenerOptions && r.supportsPassiveOption == s.supportsPassiveOption
    ensures r.env == s.env.(dispatched := r.env.dispatched)
    ensures |r.env.dispatched| == |s.env.dispatched| + |queue|
    ensures r.env.dispatched[..|s.env.dispatched|] == s.env.dispatched
    ensures forall k :: |s.env.dispatched| <= k < |r.env.dispatched| ==>
      r.env.dispatched[k] == ScrollEvent(EVENT_NAME, GetScrollPosition(s.env))
    ensures forall id :: id in queue ==> id in r.scrollPositions && r.scrollPositions[id] == GetScrollPosition(s.env)
    ensures forall id :: id !in queue ==> (id in r.scrollPositions <==> id in s.scrollPositions)
    ensures forall id :: id !in queue && id in s.scrollPositions ==> r.scrollPositions[id] == s.scrollPositions[id]
    decreases |queue|
  {
    if queue == [] then s else RunCallbacks(FrameCallback(s, queue[0]), queue[1..])
  }

  /** One animation frame: the browser takes the pending callbacks and runs them. */
  function RunFrame(s: State): (r: State)
    ensures r.env.frames == []
    ensures s.env.frames == [] ==> r.ticking == s.ticking
    ensures s.env.frames != [] ==> !r.ticking
    ensures r.instance == s.instance && r.instancesCount == s.instancesCount && r.nextId == s.nextId
    ensures r.listenerOptions == s.listenerOptions && r.supportsPassiveOption == s.supportsPassiveOption
    ensures r.env == s.env.(frames := [], dispatched := r.env.dispatched)
    ensures |r.env.dispatched| == |s.env.dispatched| + |s.env.frames|
    ensures r.env.dispatched[..|s.env.dispatched|] == s.env.dispatched
    ensures forall k :: |s.env.dispatched| <= k < |r.env.dispatched| ==>
      r.env.dispatched[k] == ScrollEvent(EVENT_NAME, GetScrollPosition(s.env))
    ensures forall id :: id in s.env.frames ==> id in r.scrollPositions && r.scrollPositions[id] == GetScrollPosition(s.env)
    ensures forall id :: id !in s.env.frames ==> (id in r.scrollPositions <==> id in s.scrollPositions)
    ensures forall id :: id !in s.env.frames && id in s.scrollPositions ==> r.scrollPositions[id] == s.scrollPositions[id]
  {
    RunCallbacks(s.(env := s.env.(frames := [])), s.env.frames)
  }
}
