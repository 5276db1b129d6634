/**
 * The library as it runs: a Window object standing in for the browser, and
 * a ScrollManagerModule object holding the variables of the library's
 * closure (`instance`, `instancesCount`, `ticking`) and the fields it sets on
 * ScrollManager objects. Each method is proved to take exactly the step the
 * function of the same name in ScrollState describes. Construction outside a
 * browser follows the intended ScrollState.Construct (null, nothing changes),
 * not ScrollState.ConstructAsWritten.
 */
module ScrollRuntime {
  import opened ScrollState

  /** The browser window: its scroll listeners, its animation-frame queue,
      the events dispatched on it and its scroll offsets. */
  class Window {
    var listeners: seq<Registration>
    var frames: seq<Id>
    var dispatched: seq<ScrollEvent>
    var scrollY: int
    var scrollTop: int

    function Model(): Environment
      reads this
    {
      Environment(listeners, frames, dispatched, scrollY, scrollTop)
    }

    constructor (scrollY: int, scrollTop: int)
      ensures Model() == Environment([], [], [], scrollY, scrollTop)
    {
      listeners, frames, dispatched := [], [], [];
      this.scrollY, this.scrollTop := scrollY, scrollTop;
    }

    method AddEventListener(reg: Registration)
      modifies this
      ensures Model() == Attach(old(Model()), reg)
    {
      if !Listening(listeners, reg.handler, reg.options.UsesCapture()) {
        listeners := listeners + [reg];
      }
    }

    method RemoveEventListener(handler: Id, capture: bool)
      modifies this
      ensures Model() == Detach(old(Model()), handler, capture)
    {
      listeners := RemoveMatching(listeners, handler, capture);
    }

    method RequestAnimationFrame(self: Id)
      modifies this
      ensures Model() == Schedule(old(Model()), self)
    {
      frames := frames + [self];
    }

    method DispatchEvent(event: ScrollEvent)
      modifies this
      ensures Model() == Dispatch(old(Model()), event)
    {
      dispatched := dispatched + [event];
    }

    /** The start of a frame: the pending callbacks are taken off the queue. */
    method TakeFrames() returns (queue: seq<Id>)
      modifies this
      ensures queue == old(frames)
      ensures Model() == old(Model()).(frames := [])
    {
      queue := frames;
      frames := [];
    }

    method ScrollTo(scrollY: int, scrollTop: int)
      modifies this
      ensures Model() == old(Model()).(scrollY := scrollY, scrollTop := scrollTop)
    {
      this.scrollY, this.scrollTop := scrollY, scrollTop;
    }
  }

  /** The closure of the library: the singleton, its reference count and the
      ticking flag, plus the `eventListenerOptions` and `scrollPosition`
      fields of the ScrollManager objects, keyed by their identity. */
  class ScrollManagerModule {
    const window: Window
    const supportsPassiveOption: bool
    var instance: Option<Id>
    var instancesCount: int
    var ticking: bool
    var nextId: Id
    var listenerOptions: map<Id, ListenerOptions>
    var scrollPositions: map<Id, int>

    function Model(): State
      reads this, window
    {
      State(supportsPassiveOption, instance, instancesCount, ticking, nextId,
            listenerOptions, scrollPositions, window.Model())
    }

    /** Loading the library in a page whose offsets are the given ones. */
    constructor (supportsPassiveOption: bool, scrollY: int, scrollTop: int)
      ensures fresh(window)
      ensures Model() == Initial(supportsPassiveOption, scrollY, scrollTop)
    {
      this.supportsPassiveOption := supportsPassiveOption;
      instance, instancesCount, ticking, nextId := None, 0, false, 0;
      listenerOptions, scrollPositions := map[], map[];
      window := new Window(scrollY, scrollTop);
    }

    /** `new ScrollManager()`, yielding None outside a browser as intended. */
    method Construct(isBrowser: bool) returns (handle: Option<Id>)
      modifies this, window
      ensures Model() == ScrollState.Construct(old(Model()), isBrowser).state
      ensures handle == ScrollState.Construct(old(Model()), isBrowser).handle
    {
      if !isBrowser {
        return None;
      }
      instancesCount := instancesCount + 1;
      if instance.Some? {
        return instance;
      }
      var id := nextId;
      nextId := id + 1;
      instance := Some(id);
      var options := OptionsFor(supportsPassiveOption);
      listenerOptions := listenerOptions[id := options];
      window.AddEventListener(Registration(id, options));
      handle := Some(id);
    }

    /** `removeListener` called on object `self`. */
    method RemoveListener(self: Id)
      modifies this, window
      ensures Model() == ScrollState.RemoveListener(old(Model()), self)
    {
      instancesCount := instancesCount - 1;
      if instancesCount == 0 {
        Destroy(self);
      }
    }

    /** `destroy` called on object `self`. */
    method Destroy(self: Id)
      modifies this, window
      ensures Model() == ScrollState.Destroy(old(Model()), self)
    {
      if self in listenerOptions {
        window.RemoveEventListener(self, listenerOptions[self].UsesCapture());
      }
      instance := None;
      instancesCount := 0;
    }

    /** `getScrollPosition`; it reads the window only. */
    method GetScrollPosition() returns (position: int)
      ensures position == ScrollState.GetScrollPosition(window.Model())
    {
      position := if window.scrollY != 0 then window.scrollY else window.scrollTop;
    }

    /** The bound `handleScroll` of object `self`. */
    method HandleScroll(self: Id)
      modifies this, window
      ensures Model() == ScrollState.HandleScroll(old(Model()), self)
    {
      if !ticking {
        ticking := true;
        window.RequestAnimationFrame(self);
      }
    }

    /** The animation-frame callback `handleScroll` requested for `self`. */
    method FrameCallback(self: Id)
      modifies this, window
      ensures Model() == ScrollState.FrameCallback(old(Model()), self)
    {
      var position := GetScrollPosition();
      scrollPositions := scrollPositions[self := position];
      window.DispatchEvent(ScrollEvent(EVENT_NAME, scrollPositions[self]));
      ticking := false;
    }

    /** The browser fires 'scroll' on window: every attached listener runs. */
    method OnScroll()
      modifies this, window
      ensures Model() == ScrollState.OnScroll(old(Model()))
    {
      var regs := window.listeners;
      var i := 0;
      while i < |regs|
        invariant 0 <= i <= |regs|
        invariant DeliverScroll(Model(), regs[i..]) == DeliverScroll(old(Model()), regs)
      {
        assert regs[i..][1..] == regs[i + 1..];
        HandleScroll(regs[i].handler);
        i := i + 1;
      }
    }

    /** The browser renders a frame: every pending callback runs. */
    method RunFrame()
      modifies this, window
      ensures Model() == ScrollState.RunFrame(old(Model()))
    {
      var queue := window.TakeFrames();
      var i := 0;
      while i < |queue|
        invariant 0 <= i <= |queue|
        invariant RunCallbacks(Model(), queue[i..]) == ScrollState.RunFrame(old(Model()))
      {
        assert queue[i..][1..] == queue[i + 1..];
        FrameCallback(queue[i]);
        i := i + 1;
      }
    }

    /** The user scrolls the page to new offsets. */
    method ScrollTo(scrollY: int, scrollTop: int)
      modifies window
      ensures Model() == SetOffsets(old(Model()), scrollY, scrollTop)
    {
      window.ScrollTo(scrollY, scrollTop);
    }
  }
}
