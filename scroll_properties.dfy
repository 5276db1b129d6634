/**
 * What sequences of ScrollManager steps do: the throttle keeps at most one
 * frame pending whatever the caller does; the single-listener invariant of
 * the singleton holds as long as removeListener and destroy are only called
 * on the live instance, and traces through stale or over-released handles
 * break it; references balance; scrolls within a frame coalesce into one
 * event carrying the offset read when the frame runs.
 */
module ScrollProperties {
  import opened ScrollState

  /** One step of a page using the library. */
  datatype Step =
    | NewManager(isBrowser: bool)        // `new ScrollManager()`, as ScrollState.Construct intends it
    | CallRemoveListener(self: Id)       // `m.removeListener()` on the object `self`
    | CallDestroy(self: Id)              // `m.destroy()` on the object `self`
    | PageScroll(scrollY: int, scrollTop: int)  // the offsets change
    | NativeScroll                       // the browser fires 'scroll' on window
    | AnimationFrame                     // the browser runs a frame

  function Apply(s: State, step: Step): State
  {
    match step
    case NewManager(isBrowser) => Construct(s, isBrowser).state
    case CallRemoveListener(self) => RemoveListener(s, self)
    case CallDestroy(self) => Destroy(s, self)
    case PageScroll(scrollY, scrollTop) => SetOffsets(s, scrollY, scrollTop)
    case NativeScroll => OnScroll(s)
    case AnimationFrame => RunFrame(s)
  }

  function Run(s: State, steps: seq<Step>): State
    decreases |steps|
  {
    if steps == [] then s else Run(Apply(s, steps[0]), steps[1..])
  }

  /** removeListener and destroy are called on the live instance only. */
  predicate OnLiveInstance(s: State, step: Step)
  {
    match step
    case CallRemoveListener(self) => s.instance == Some(self)
    case CallDestroy(self) => s.instance == Some(self)
    case _ => true
  }

  predicate LiveTrace(s: State, steps: seq<Step>)
    decreases |steps|
  {
    steps == [] || (OnLiveInstance(s, steps[0]) && LiveTrace(Apply(s, steps[0]), steps[1..]))
  }

  function Repeat(step: Step, n: nat): (steps: seq<Step>)
    ensures |steps| == n
  {
    if n == 0 then [] else [step] + Repeat(step, n - 1)
  }

  /** The scroll offsets of one native scroll. */
  datatype Offsets = Offsets(scrollY: int, scrollTop: int)

  /** The page moves to each offset in turn and fires 'scroll' each time. */
  function Scrolls(offsets: seq<Offsets>): (steps: seq<Step>)
    ensures |steps| == 2 * |offsets|
  {
    if offsets == [] then []
    else [PageScroll(offsets[0].scrollY, offsets[0].scrollTop), NativeScroll] + Scrolls(offsets[1..])
  }

  // ---------------------------------------------------------------------
  // Invariants
  // ---------------------------------------------------------------------

  /** At most one frame callback is pending, and one is exactly when ticking is set. */
  ghost predicate Throttled(s: State)
  {
    |s.env.frames| <= 1 && (s.ticking <==> s.env.frames != [])
  }

  /** Every initialised object carries the options the passive support
      dictates, every attached listener is the handler of one of them with
      those options, and the instance is one of them. */
  ghost predicate WellFormed(s: State)
  {
    && (forall id :: id in s.listenerOptions ==>
          id < s.nextId && s.listenerOptions[id] == OptionsFor(s.supportsPassiveOption))
    && (forall reg :: reg in s.env.listeners ==>
          reg.handler in s.listenerOptions && reg.options == OptionsFor(s.supportsPassiveOption))
    && (s.instance.Some? ==> s.instance.value in s.listenerOptions)
  }

  /** The singleton invariant: with no instance nothing is attached and the
      count is 0; with an instance exactly its handler is attached and the
      count is positive. */
  ghost predicate SingleListener(s: State)
  {
    match s.instance
    case None => s.env.listeners == [] && s.instancesCount == 0
    case Some(id) =>
      s.env.listeners == [Registration(id, OptionsFor(s.supportsPassiveOption))] && s.instancesCount >= 1
  }

  lemma InitialState(supportsPassiveOption: bool, scrollY: int, scrollTop: int)
    ensures var s := Initial(supportsPassiveOption, scrollY, scrollTop);
      WellFormed(s) && SingleListener(s) && Throttled(s) && s.instance == None && s.env.listeners == []
  {
  }

  // ---------------------------------------------------------------------
  // Throttling
  // ---------------------------------------------------------------------

  lemma ThrottledStep(s: State, step: Step)
    requires Throttled(s)
    ensures Throttled(Apply(s, step))
  {
    match step
    case NativeScroll =>
      var r := OnScroll(s);
      assert r.ticking == (s.ticking || s.env.listeners != []);
    case _ =>
  }

  /** Whatever handles the caller uses, at most one frame is ever pending. */
  lemma {:induction false} ThrottledTrace(s: State, steps: seq<Step>)
    requires Throttled(s)
    ensures Throttled(Run(s, steps))
    ensures |Run(s, steps).env.frames| <= 1
    decreases |steps|
  {
    if steps != [] {
      ThrottledStep(s, steps[0]);
      ThrottledTrace(Apply(s, steps[0]), steps[1..]);
    }
  }

  /** A frame dispatches one event, carrying the offset read when it runs,
      if a callback was pending, and none otherwise; it leaves the throttle idle. */
  lemma OneEventPerFrame(s: State)
    requires Throttled(s)
    ensures var r := RunFrame(s);
      && r.env.dispatched == s.env.dispatched +
           (if s.ticking then [ScrollEvent(EVENT_NAME, GetScrollPosition(s.env))] else [])
      && !r.ticking && r.env.frames == []
  {
    var r := RunFrame(s);
    if s.ticking {
      assert r.env.dispatched == r.env.dispatched[..|s.env.dispatched|] + [r.env.dispatched[|s.env.dispatched|]];
    } else {
      assert r.env.dispatched == r.env.dispatched[..|s.env.dispatched|];
    }
  }

  // ---------------------------------------------------------------------
  // The singleton and its listener
  // ---------------------------------------------------------------------

  lemma WellFormedStep(s: State, step: Step)
    requires WellFormed(s)
    ensures WellFormed(Apply(s, step))
  {
    match step
    case NewManager(isBrowser) =>
    case CallRemoveListener(self) =>
    case CallDestroy(self) =>
    case PageScroll(_, _) =>
    case NativeScroll =>
      assert OnScroll(s).env.listeners == s.env.listeners;
    case AnimationFrame =>
      assert RunFrame(s).env.listeners == s.env.listeners;
  }

  /** Whatever handles the caller uses, options and listeners stay consistent. */
  lemma {:induction false} WellFormedTrace(s: State, steps: seq<Step>)
    requires WellFormed(s)
    ensures WellFormed(Run(s, steps))
    decreases |steps|
  {
    if steps != [] {
      WellFormedStep(s, steps[0]);
      WellFormedTrace(Apply(s, steps[0]), steps[1..]);
    }
  }

  /** Destroying the live instance detaches its one listener. */
  lemma DestroyLive(s: State, self: Id)
    requires WellFormed(s) && s.instance == Some(self)
    requires s.env.listeners == [Registration(self, OptionsFor(s.supportsPassiveOption))]
    ensures Destroy(s, self).env.listeners == []
  {
  }

  lemma SingleListenerStep(s: State, step: Step)
    requires WellFormed(s) && SingleListener(s) && OnLiveInstance(s, step)
    ensures SingleListener(Apply(s, step))
  {
    match step
    case NewManager(isBrowser) =>
    case CallRemoveListener(self) =>
      if s.instancesCount == 1 {
        DestroyLive(s, self);
      }
    case CallDestroy(self) =>
      DestroyLive(s, self);
    case PageScroll(_, _) =>
    case NativeScroll =>
      assert OnScroll(s).env.listeners == s.env.listeners;
    case AnimationFrame =>
      assert RunFrame(s).env.listeners == s.env.listeners;
  }

  /** As long as removeListener and destroy are only called on the live
      instance, at most one listener is attached, and one is attached exactly
      when there is an instance. */
  lemma {:induction false} SingleListenerTrace(s: State, steps: seq<Step>)
    requires WellFormed(s) && SingleListener(s) && LiveTrace(s, steps)
    ensures var r := Run(s, steps);
      && WellFormed(r) && SingleListener(r)
      && |r.env.listeners| <= 1
      && (r.env.listeners != [] <==> r.instance.Some?)
    decreases |steps|
  {
    if steps != [] {
      WellFormedStep(s, steps[0]);
      SingleListenerStep(s, steps[0]);
      SingleListenerTrace(Apply(s, steps[0]), steps[1..]);
    }
  }

  /** destroy called on an object whose handler is not attached detaches
      nothing, yet clears the singleton. */
  lemma DestroyStale(s: State, self: Id)
    requires WellFormed(s) && SingleListener(s) && s.instance.Some? && s.instance != Some(self)
    ensures var r := Destroy(s, self);
      && r.instance == None && r.instancesCount == 0
      && r.env.listeners == s.env.listeners && r.nextId == s.nextId
      && WellFormed(r) && !SingleListener(r)
  {
    if self in s.listenerOptions {
      assert !Listening(s.env.listeners, self, s.listenerOptions[self].UsesCapture());
    }
    WellFormedStep(s, CallDestroy(self));
  }

  /** With a listener attached but no instance, a construction attaches a second one. */
  lemma ConstructBesideOrphan(s: State)
    requires WellFormed(s) && s.instance.None?
    ensures var r := Construct(s, true);
      r.state.env.listeners == s.env.listeners + [Registration(s.nextId, OptionsFor(s.supportsPassiveOption))]
  {
    assert !Listening(s.env.listeners, s.nextId, OptionsFor(s.supportsPassiveOption).UsesCapture());
  }

  /** The states of a page that constructs, releases, constructs, calls
      destroy through the first (now stale) object, and constructs again. */
  function StaleDestroyStates(s0: State): (states: seq<State>)
    ensures |states| == 6 && states[0] == s0
  {
    var stale := s0.nextId;
    var s1 := Apply(s0, NewManager(true));
    var s2 := Apply(s1, CallRemoveListener(stale));
    var s3 := Apply(s2, NewManager(true));
    var s4 := Apply(s3, CallDestroy(stale));
    [s0, s1, s2, s3, s4, Apply(s4, NewManager(true))]
  }

  /** From any idle state, the stale destroy is the one step off the live
      instance; it breaks the invariant by nulling the instance while the live
      listener stays, and the next construction attaches a second listener. */
  lemma StaleDestroyBreaksSingleListener(s0: State)
    requires WellFormed(s0) && SingleListener(s0) && s0.instance.None? && !s0.ticking && s0.env.frames == []
    ensures var stale := s0.nextId;
      var st := StaleDestroyStates(s0);
      var options := OptionsFor(s0.supportsPassiveOption);
      && OnLiveInstance(st[0], NewManager(true)) && OnLiveInstance(st[1], CallRemoveListener(stale))
      && OnLiveInstance(st[2], NewManager(true)) && !OnLiveInstance(st[3], CallDestroy(stale))
      && SingleListener(st[3]) && !SingleListener(st[4])
      && st[5].instance == Some(stale + 2) && st[5].instancesCount == 1 && !st[5].ticking && st[5].env.frames == []
      && st[5].env.listeners == [Registration(stale + 1, options), Registration(stale + 2, options)]
  {
    var stale := s0.nextId;
    var st := StaleDestroyStates(s0);
    var s1 := Apply(s0, NewManager(true));
    ConstructFromIdle(s0);
    var s2 := Apply(s1, CallRemoveListener(stale));
    ReleaseAll(s1, 1);
    assert Repeat(CallRemoveListener(stale), 1) == [CallRemoveListener(stale)];
    assert s2 == Run(s1, Repeat(CallRemoveListener(stale), 1));
    var s3 := Apply(s2, NewManager(true));
    ConstructFromIdle(s2);
    var s4 := Apply(s3, CallDestroy(stale));
    DestroyStale(s3, stale);
    ConstructBesideOrphan(s4);
    assert st[5] == Apply(s4, NewManager(true));
  }

  /** The same trace from the freshly loaded library; the throttle still
      gives one event for the next scroll and frame. */
  lemma StaleDestroyAttachesTwice(supportsPassiveOption: bool, scrollY: int, scrollTop: int)
    ensures var st := StaleDestroyStates(Initial(supportsPassiveOption, scrollY, scrollTop));
      var options := OptionsFor(supportsPassiveOption);
      && !OnLiveInstance(st[3], CallDestroy(0))
      && st[5].instance == Some(2) && st[5].instancesCount == 1
      && st[5].env.listeners == [Registration(1, options), Registration(2, options)]
      && |RunFrame(OnScroll(st[5])).env.dispatched| == 1
      && 1 in RunFrame(OnScroll(st[5])).scrollPositions
      && 2 !in RunFrame(OnScroll(st[5])).scrollPositions
  {
    InitialState(supportsPassiveOption, scrollY, scrollTop);
    var s0 := Initial(supportsPassiveOption, scrollY, scrollTop);
    StaleDestroyBreaksSingleListener(s0);
    var r := StaleDestroyStates(s0)[5];
    assert OnScroll(r).env.frames == [1] && OnScroll(r).env.dispatched == [];
  }

  /** The states of a page that constructs once and releases the same object
      twice, then constructs and releases once more. */
  function OverReleaseStates(s0: State): (states: seq<State>)
    ensures |states| == 6 && states[0] == s0
  {
    var first := s0.nextId;
    var s1 := Apply(s0, NewManager(true));
    var s2 := Apply(s1, CallRemoveListener(first));
    var s3 := Apply(s2, CallRemoveListener(first));
    var s4 := Apply(s3, NewManager(true));
    [s0, s1, s2, s3, s4, Apply(s4, CallRemoveListener(first + 1))]
  }

  /** Releasing an object twice drives the count to -1 and destroys nothing
      the second time; the next construction then counts 0, and a release of
      the live instance drives it to -1 again, so its listener is never
      detached. */
  lemma OverReleaseLeaksListener(supportsPassiveOption: bool, scrollY: int, scrollTop: int)
    ensures var st := OverReleaseStates(Initial(supportsPassiveOption, scrollY, scrollTop));
      && st[2].instance == None && !OnLiveInstance(st[2], CallRemoveListener(0))
      && st[3].instancesCount == -1 && st[3].env.listeners == []
      && st[4].instance == Some(1) && st[4].instancesCount == 0
      && OnLiveInstance(st[4], CallRemoveListener(1))
      && st[5].instancesCount == -1 && st[5].instance == Some(1)
      && st[5].env.listeners == [Registration(1, OptionsFor(supportsPassiveOption))]
  {
    var s0 := Initial(supportsPassiveOption, scrollY, scrollTop);
    var st := OverReleaseStates(s0);
    InitialState(supportsPassiveOption, scrollY, scrollTop);
    ConstructFromIdle(s0);
    var s1 := st[1];
    DestroyLive(s1.(instancesCount := 0), 0);
    assert st[2].env.listeners == [];
    assert st[3] == st[2].(instancesCount := -1);
    assert !Listening(st[3].env.listeners, 1, OptionsFor(supportsPassiveOption).UsesCapture());
  }

  // ---------------------------------------------------------------------
  // Reference counting
  // ---------------------------------------------------------------------

  /** Constructions while an instance is live only count references. */
  lemma {:induction false} AcquireWhileLive(s: State, n: nat)
    requires s.instance.Some?
    ensures Run(s, Repeat(NewManager(true), n)) == s.(instancesCount := s.instancesCount + n)
    decreases n
  {
    if n > 0 {
      var next := Apply(s, NewManager(true));
      assert Repeat(NewManager(true), n)[1..] == Repeat(NewManager(true), n - 1);
      AcquireWhileLive(next, n - 1);
    }
  }

  /** n releases of the live instance holding n references detach its
      listener once, at the last one, and clear the singleton. */
  lemma {:induction false} ReleaseAll(s: State, n: nat)
    requires WellFormed(s) && SingleListener(s)
    requires s.instance.Some? && s.instancesCount == n
    ensures var r := Run(s, Repeat(CallRemoveListener(s.instance.value), n));
      && r.instance == None && r.instancesCount == 0 && r.env.listeners == []
      && r.nextId == s.nextId && r.listenerOptions == s.listenerOptions
      && r.supportsPassiveOption == s.supportsPassiveOption
      && LiveTrace(s, Repeat(CallRemoveListener(s.instance.value), n))
    decreases n
  {
    var self := s.instance.value;
    var steps := Repeat(CallRemoveListener(self), n);
    assert steps[1..] == Repeat(CallRemoveListener(self), n - 1);
    var next := Apply(s, CallRemoveListener(self));
    if n == 1 {
      DestroyLive(s.(instancesCount := 0), self);
      assert steps[1..] == [];
    } else {
      ReleaseAll(next, n - 1);
    }
  }

  /** Fewer releases of the live instance than it holds references only
      lower the count: the instance and its one listener stay. */
  lemma {:induction false} PartialRelease(s: State, n: nat, k: nat)
    requires WellFormed(s) && SingleListener(s)
    requires s.instance.Some? && s.instancesCount == n && k < n
    ensures var steps := Repeat(CallRemoveListener(s.instance.value), k);
      && Run(s, steps) == s.(instancesCount := n - k)
      && LiveTrace(s, steps)
    decreases k
  {
    var self := s.instance.value;
    var steps := Repeat(CallRemoveListener(self), k);
    if k > 0 {
      assert steps[1..] == Repeat(CallRemoveListener(self), k - 1);
      var next := Apply(s, CallRemoveListener(self));
      assert next == s.(instancesCount := n - 1);
      PartialRelease(next, n - 1, k - 1);
    }
  }

  /** A construction with no instance makes the new object the instance
      and attaches exactly its listener. */
  lemma ConstructFromIdle(s: State)
    requires WellFormed(s) && SingleListener(s) && s.instance.None?
    ensures var r := Construct(s, true);
      && r.handle == Some(s.nextId) && r.state.instance == r.handle
      && r.state.instancesCount == 1 && r.state.nextId == s.nextId + 1
      && r.state.env.listeners == [Registration(s.nextId, OptionsFor(s.supportsPassiveOption))]
      && WellFormed(r.state) && SingleListener(r.state)
  {
    var options := OptionsFor(s.supportsPassiveOption);
    assert !Listening(s.env.listeners, s.nextId, options.UsesCapture());
    WellFormedStep(s, NewManager(true));
  }

  /** n constructions from no instance: the first makes a new instance and
      attaches its listener, the others return it and only count. */
  lemma AcquireFromIdle(s: State, n: nat)
    requires WellFormed(s) && SingleListener(s) && s.instance.None? && n >= 1
    ensures var acquired := Run(s, Repeat(NewManager(true), n));
      && WellFormed(acquired) && SingleListener(acquired)
      && acquired.instance == Some(s.nextId) && acquired.instancesCount == n
      && acquired.env.listeners == [Registration(s.nextId, OptionsFor(s.supportsPassiveOption))]
      && acquired.nextId == s.nextId + 1
  {
    ConstructFromIdle(s);
    var first := Apply(s, NewManager(true));
    var steps := Repeat(NewManager(true), n);
    assert steps[1..] == Repeat(NewManager(true), n - 1);
    assert Run(s, steps) == Run(first, steps[1..]);
    AcquireWhileLive(first, n - 1);
  }

  /** n constructions from no instance followed by n releases: one listener
      is attached throughout, it is detached at the end, and the next
      construction makes a new instance with a fresh listener. */
  lemma RefCountSymmetry(s: State, n: nat)
    requires WellFormed(s) && SingleListener(s) && s.instance.None? && n >= 1
    ensures var options := OptionsFor(s.supportsPassiveOption);
      var acquired := Run(s, Repeat(NewManager(true), n));
      var released := Run(acquired, Repeat(CallRemoveListener(s.nextId), n));
      var again := Construct(released, true);
      && acquired.instance == Some(s.nextId) && acquired.instancesCount == n
      && acquired.env.listeners == [Registration(s.nextId, options)]
      && (forall k: nat :: k < n ==>
            var kept := Run(acquired, Repeat(CallRemoveListener(s.nextId), k));
            kept.instance == Some(s.nextId) && kept.instancesCount == n - k
            && kept.env.listeners == [Registration(s.nextId, options)])
      && released.instance == None && released.instancesCount == 0 && released.env.listeners == []
      && again.handle == Some(s.nextId + 1) && again.handle != acquired.instance
      && again.state.env.listeners == [Registration(s.nextId + 1, options)]
  {
    AcquireFromIdle(s, n);
    var acquired := Run(s, Repeat(NewManager(true), n));
    assert WellFormed(acquired) && SingleListener(acquired);
    assert acquired.instance == Some(s.nextId) && acquired.instancesCount == n;
    forall k: nat | k < n
      ensures Run(acquired, Repeat(CallRemoveListener(s.nextId), k)) == acquired.(instancesCount := n - k)
    {
      PartialRelease(acquired, n, k);
    }
    ReleaseAll(acquired, n);
    var released := Run(acquired, Repeat(CallRemoveListener(s.nextId), n));
    assert WellFormed(released) && SingleListener(released) && released.instance.None?;
    ConstructFromIdle(released);
  }

  // ---------------------------------------------------------------------
  // Coalescing
  // ---------------------------------------------------------------------

  lemma ScrollsStep(s: State, offsets: seq<Offsets>)
    requires offsets != []
    ensures Run(s, Scrolls(offsets)) ==
      Run(OnScroll(SetOffsets(s, offsets[0].scrollY, offsets[0].scrollTop)), Scrolls(offsets[1..]))
  {
    var steps := Scrolls(offsets);
    assert steps[1..][1..] == Scrolls(offsets[1..]);
  }

  /** Scrolls while a listener is attached, or while a frame is already
      pending, leave exactly one frame pending, dispatch nothing, and leave
      the page at the last offsets. */
  lemma {:induction false} ScrollsSchedule(s: State, offsets: seq<Offsets>)
    requires Throttled(s) && offsets != []
    requires s.ticking || s.env.listeners != []
    ensures var r := Run(s, Scrolls(offsets));
      var last := offsets[|offsets| - 1];
      && r.ticking && |r.env.frames| == 1 && Throttled(r)
      && r.env.dispatched == s.env.dispatched && r.env.listeners == s.env.listeners
      && r.env.scrollY == last.scrollY && r.env.scrollTop == last.scrollTop
    decreases |offsets|
  {
    ScrollsStep(s, offsets);
    var next := OnScroll(SetOffsets(s, offsets[0].scrollY, offsets[0].scrollTop));
    if |offsets| == 1 {
      assert Scrolls(offsets[1..]) == [];
    } else {
      ScrollsSchedule(next, offsets[1..]);
    }
  }

  /** K >= 1 scrolls before a frame give exactly one event, carrying the
      offset read when the frame runs, that is, the last one. */
  lemma CoalescedScrolls(s: State, offsets: seq<Offsets>)
    requires Throttled(s) && offsets != []
    requires s.ticking || s.env.listeners != []
    ensures var last := offsets[|offsets| - 1];
      var r := RunFrame(Run(s, Scrolls(offsets)));
      && r.env.dispatched == s.env.dispatched +
           [ScrollEvent(EVENT_NAME, GetScrollPosition(s.env.(scrollY := last.scrollY, scrollTop := last.scrollTop)))]
      && !r.ticking && r.env.frames == []
  {
    ScrollsSchedule(s, offsets);
    var burst := Run(s, Scrolls(offsets));
    OneEventPerFrame(burst);
    var last := offsets[|offsets| - 1];
    assert burst.env.scrollY == last.scrollY && burst.env.scrollTop == last.scrollTop;
    assert GetScrollPosition(burst.env) == GetScrollPosition(s.env.(scrollY := last.scrollY, scrollTop := last.scrollTop));
  }

  /** With no instance and no listener, scrolls only move the page. */
  lemma {:induction false} ScrollsWithoutListener(s: State, offsets: seq<Offsets>)
    requires s.env.listeners == []
    ensures var r := Run(s, Scrolls(offsets));
      && r.ticking == s.ticking && r.env.frames == s.env.frames
      && r.env.dispatched == s.env.dispatched && r.env.listeners == []
    decreases |offsets|
  {
    if offsets != [] {
      ScrollsStep(s, offsets);
      ScrollsWithoutListener(SetOffsets(s, offsets[0].scrollY, offsets[0].scrollTop), offsets[1..]);
    }
  }

  /** No construction in a browser: the only step that can attach a listener. */
  predicate NoAcquire(steps: seq<Step>)
  {
    forall i :: 0 <= i < |steps| ==> steps[i] != NewManager(true)
  }

  /** With nothing attached, no trace without a construction in a browser
      broadcasts anything beyond the one frame that may already be pending,
      whatever scrolls, frames, releases or destroys (through any handle) it
      holds: the listeners stay empty, earlier events are kept, and the
      events plus the pending frame stay constant in number. */
  lemma {:induction false} IdleUntilAcquire(s: State, steps: seq<Step>)
    requires Throttled(s) && s.env.listeners == [] && NoAcquire(steps)
    ensures var r := Run(s, steps);
      && Throttled(r) && r.env.listeners == []
      && |r.env.dispatched| >= |s.env.dispatched|
      && r.env.dispatched[..|s.env.dispatched|] == s.env.dispatched
      && |r.env.dispatched| + (if r.ticking then 1 else 0) == |s.env.dispatched| + (if s.ticking then 1 else 0)
    decreases |steps|
  {
    if steps != [] {
      var next := Apply(s, steps[0]);
      ThrottledStep(s, steps[0]);
      match steps[0] {
        case NativeScroll =>
          assert OnScroll(s) == s;
        case AnimationFrame =>
          OneEventPerFrame(s);
        case NewManager(isBrowser) =>
          assert !isBrowser;
        case _ =>
      }
      assert next.env.listeners == [];
      assert NoAcquire(steps[1..]) by {
        forall i | 0 <= i < |steps[1..]| ensures steps[1..][i] != NewManager(true) {
          assert steps[1..][i] == steps[i + 1];
        }
      }
      IdleUntilAcquire(next, steps[1..]);
      var r := Run(next, steps[1..]);
      assert r.env.dispatched[..|s.env.dispatched|] == r.env.dispatched[..|next.env.dispatched|][..|s.env.dispatched|];
    }
  }

  /** Once the last reference is released, scrolls broadcast nothing more than
      the one frame that may already be pending, which still runs; after it,
      frames broadcast nothing. */
  lemma IdleAfterLastRelease(s: State, offsets: seq<Offsets>)
    requires WellFormed(s) && SingleListener(s) && Throttled(s) && s.instance.None?
    ensures var r := RunFrame(Run(s, Scrolls(offsets)));
      && |r.env.dispatched| == |s.env.dispatched| + (if s.ticking then 1 else 0)
      && RunFrame(r).env.dispatched == r.env.dispatched
  {
    ScrollsWithoutListener(s, offsets);
  }

  /** destroy does not clear ticking: a frame pending when it runs still
      dispatches its event. */
  lemma PendingFrameSurvivesDestroy(s: State, self: Id)
    requires Throttled(s) && s.ticking
    ensures var r := RunFrame(Destroy(s, self));
      && r.instance == None
      && |r.env.dispatched| == |s.env.dispatched| + 1
  {
  }

  // ---------------------------------------------------------------------
  // Construction outside a browser
  // ---------------------------------------------------------------------

  /** As written, `new ScrollManager()` without a window yields a fresh
      object rather than null; it was never initialised, yet releasing it
      still decrements the shared count. The intended construction yields
      null and changes nothing. */
  lemma ServerConstructionYieldsObject(s: State)
    requires WellFormed(s)
    ensures var written := ConstructAsWritten(s, false);
      && written.handle.Some?
      && written.handle.value !in written.state.listenerOptions
      && RemoveListener(written.state, written.handle.value).instancesCount == s.instancesCount - 1
    ensures Construct(s, false).handle == None && Construct(s, false).state == s
  {
  }
}
